/**
 * The MFA helpers: TOTP secrets in the base32 alphabet of section 6 of
 * RFC 4648, their decoding, TOTP codes with the dynamic truncation of
 * section 5.3 of RFC 4226 and the one-period window of section 5.2 of
 * RFC 6238, and the backup codes with their normalisation and lookup.
 * HMAC-SHA1 and SHA-256 are inputs (`Hashes`), and so are the random bytes
 * and the clock.
 */
module MfaService {
  import opened Common
  import JsNumber
  import Csrf

  /**
   * The configuration: six digits, a window of one period either side. The
   * period (30 seconds) and `Math.pow(10, digits)` (1000000) are written as
   * literals in the arithmetic below, which keeps it linear for the solver.
   */
  const Digits: nat := 6
  const Window: nat := 1

  const Base32Alphabet: string := "ABCDEFGHIJKLMNOPQRSTUVWXYZ234567"

  /** HMAC-SHA1 (key, message) and the hex digest of SHA-256. */
  datatype Hashes = Hashes(hmacSha1: (seq<nat>, seq<nat>) -> seq<nat>, sha256Hex: string -> string)

  // ---------------------------------------------------------------------------
  // generateSecret

  predicate IsBase32Char(c: char) {
    ('A' <= c <= 'Z') || ('2' <= c <= '7')
  }

  /** The alphabet entry of a 5-bit value. */
  function Base32Char(k: nat): char
    requires k < 32
  {
    if k < 26 then ('A' as int + k) as char else ('2' as int + k - 26) as char
  }

  /** The position of `c` in the alphabet, -1 outside it. */
  function Base32Index(c: char): (r: int)
    ensures IsBase32Char(c) ==> 0 <= r < 32
    ensures !IsBase32Char(c) ==> r == -1
  {
    if 'A' <= c <= 'Z' then c as int - 'A' as int
    else if '2' <= c <= '7' then c as int - '2' as int + 26
    else -1
  }

  lemma AlphabetChars()
    ensures |Base32Alphabet| == 32
    ensures forall k :: 0 <= k < 32 ==> Base32Alphabet[k] == Base32Char(k)
  {
  }

  /** `Base32Index` is `BASE32_ALPHABET.indexOf`. */
  lemma AlphabetIndex(c: char)
    ensures IndexOf(Base32Alphabet, c) == Base32Index(c)
  {
    if IsBase32Char(c) {
      AlphabetIndexIn(c);
    } else {
      AlphabetIndexOut(c);
    }
  }

  lemma AlphabetIndexIn(c: char)
    requires IsBase32Char(c)
    ensures IndexOf(Base32Alphabet, c) == Base32Index(c)
  {
    AlphabetChars();
    var k := Base32Index(c);
    assert Base32Alphabet[k] == c;
    var r := IndexOf(Base32Alphabet, c);
    assert Base32Char(r) == c;
  }

  lemma AlphabetIndexOut(c: char)
    requires !IsBase32Char(c)
    ensures IndexOf(Base32Alphabet, c) == -1
  {
    AlphabetOnlyBase32();
    assert c !in Base32Alphabet;
  }

  lemma AlphabetOnlyBase32()
    ensures forall k :: 0 <= k < |Base32Alphabet| ==> IsBase32Char(Base32Alphabet[k])
  {
    AlphabetChars();
  }

  /** `generateSecret` over the given random bytes: one alphabet character per byte, chosen by the byte mod 32. */
  method GenerateSecret(random: seq<nat>) returns (secret: string)
    ensures |secret| == |random|
    ensures forall i :: 0 <= i < |random| ==> secret[i] == Base32Alphabet[random[i] % 32]
    ensures forall i :: 0 <= i < |secret| ==> IsBase32Char(secret[i])
  {
    AlphabetChars();
    secret := "";
    for i := 0 to |random|
      invariant |secret| == i
      invariant forall k :: 0 <= k < i ==> secret[k] == Base32Alphabet[random[k] % 32]
      invariant forall k :: 0 <= k < i ==> IsBase32Char(secret[k])
    {
      var index := random[i] % 32;
      secret := secret + [Base32Alphabet[index]];
    }
  }

  // ---------------------------------------------------------------------------
  // base32Decode

  /** `replace(/[^A-Z2-7]/g, '')`. */
  function KeepBase32(s: string): string {
    if s == [] then [] else (if IsBase32Char(s[0]) then [s[0]] else []) + KeepBase32(s[1..])
  }

  /** The characters `base32Decode` reads: upper-cased, then everything outside the alphabet dropped. */
  function Clean(encoded: string): string {
    KeepBase32(Upper(encoded))
  }

  function BitChar(b: nat): char
    requires b < 2
  {
    if b == 0 then '0' else '1'
  }

  /** `n.toString(2)` for `n >= 0`. */
  function Binary(n: nat): (r: string)
    ensures |r| >= 1
  {
    if n < 2 then [BitChar(n)] else Binary(n / 2) + [BitChar(n % 2)]
  }

  /** `n` copies of `c`. */
  function Repeat(c: char, n: nat): (r: string)
    ensures |r| == n && forall i :: 0 <= i < n ==> r[i] == c
  {
    seq(n, _ => c)
  }

  /** `s.padStart(n, c)`. */
  function PadStart(s: string, n: nat, c: char): (r: string)
    ensures |r| == Max(|s|, n)
  {
    if |s| >= n then s else Repeat(c, n - |s|) + s
  }

  /** `n.toString(2)`. */
  function IntBinary(n: int): string {
    if n < 0 then "-" + Binary(-n) else Binary(n)
  }

  lemma IndexBinaryLength(c: char)
    ensures |IntBinary(Base32Index(c))| <= 5
  {
    if IsBase32Char(c) {
      BinaryLength(Base32Index(c), 5);
    }
  }

  /**
   * `BASE32_ALPHABET.indexOf(char).toString(2).padStart(5, '0')`
   * (`AlphabetIndex`: `Base32Index` is `indexOf`).
   */
  function FiveBits(c: char): (r: string)
    ensures |r| == 5
  {
    IndexBinaryLength(c);
    PadStart(IntBinary(Base32Index(c)), 5, '0')
  }

  /** The bit string of the cleaned characters, five bits each. */
  function Bits(cleaned: string): (r: string)
    ensures |r| == 5 * |cleaned|
  {
    if cleaned == [] then "" else FiveBits(cleaned[0]) + Bits(cleaned[1..])
  }

  /** `parseInt(s, 2)` for a string of `0` and `1` digits, most significant first. */
  function BitsValue(s: string): nat {
    if s == [] then 0 else 2 * BitsValue(s[..|s| - 1]) + (if s[|s| - 1] == '1' then 1 else 0)
  }

  /** `parseInt(bits.substring(i, i + 8), 2)` for the k-th whole byte of the bit string. */
  function ByteAt(bits: string, k: nat): nat
    requires 8 * k + 8 <= |bits|
  {
    BitsValue(bits[8 * k..8 * k + 8])
  }

  /** What `base32Decode` returns: the whole bytes of the bit string, leftover bits dropped. */
  function Decoded(encoded: string): seq<nat> {
    var bits := Bits(Clean(encoded));
    seq(|bits| / 8, k requires 0 <= k < |bits| / 8 => ByteAt(bits, k))
  }

  /** `base32Decode(encoded)`. */
  method Base32Decode(encoded: string) returns (bytes: seq<nat>)
    ensures bytes == Decoded(encoded)
  {
    var cleaned := KeepBase32(Upper(encoded));
    var bits := Bits(cleaned);
    bytes := [];
    var i := 0;
    while i + 8 <= |bits|
      invariant 0 <= i && i == 8 * |bytes| && |bytes| <= |bits| / 8
      invariant forall k :: 0 <= k < |bytes| ==> bytes[k] == ByteAt(bits, k)
      decreases |bits| - i
    {
      bytes := bytes + [ByteAt(bits, |bytes|)];
      i := i + 8;
    }
  }

  function Pow(b: nat, k: nat): (r: nat)
    ensures b >= 1 ==> r >= 1
  {
    if k == 0 then 1 else b * Pow(b, k - 1)
  }

  lemma {:induction false} BinaryLength(n: nat, k: nat)
    requires 1 <= k && n < Pow(2, k)
    ensures |Binary(n)| <= k
    decreases k
  {
    if n >= 2 {
      BinaryLength(n / 2, k - 1);
    }
  }

  lemma {:induction false} BinaryValue(n: nat)
    ensures BitsValue(Binary(n)) == n
  {
    if n >= 2 {
      var s := Binary(n);
      assert s[..|s| - 1] == Binary(n / 2);
      BinaryValue(n / 2);
    }
  }

  lemma {:induction false} BitsValueZeros(z: nat)
    ensures BitsValue(Repeat('0', z)) == 0
  {
    if z > 0 {
      assert Repeat('0', z)[..z - 1] == Repeat('0', z - 1);
      BitsValueZeros(z - 1);
    }
  }

  /** Leading zeros do not change the value of a bit string. */
  lemma {:induction false} BitsValuePadded(z: nat, s: string)
    ensures BitsValue(Repeat('0', z) + s) == BitsValue(s)
    decreases |s|
  {
    var p := Repeat('0', z);
    if s == [] {
      assert p + s == p;
      BitsValueZeros(z);
    } else {
      var t := p + s;
      assert t[..|t| - 1] == p + s[..|s| - 1];
      assert t[|t| - 1] == s[|s| - 1];
      BitsValuePadded(z, s[..|s| - 1]);
    }
  }

  lemma {:induction false} ValueOfZeros(z: nat, radix: nat)
    requires radix >= 1
    ensures forall i :: 0 <= i < z ==> JsNumber.IsRadixDigit(Repeat('0', z)[i], radix)
    ensures JsNumber.ValueOf(Repeat('0', z), radix) == 0
  {
    if z > 0 {
      var s := Repeat('0', z);
      assert s[..z - 1] == Repeat('0', z - 1);
      ValueOfZeros(z - 1, radix);
    }
  }

  /** Leading zeros do not change the value of a digit string. */
  lemma {:induction false} ValueOfPadded(z: nat, s: string, radix: nat)
    requires radix >= 1
    requires forall i :: 0 <= i < |s| ==> JsNumber.IsRadixDigit(s[i], radix)
    ensures forall i :: 0 <= i < z + |s| ==> JsNumber.IsRadixDigit((Repeat('0', z) + s)[i], radix)
    ensures JsNumber.ValueOf(Repeat('0', z) + s, radix) == JsNumber.ValueOf(s, radix)
    decreases |s|
  {
    var p := Repeat('0', z);
    ValueOfZeros(z, radix);
    if s == [] {
      assert p + s == p;
    } else {
      var t := p + s;
      assert t[..|t| - 1] == p + s[..|s| - 1];
      assert t[|t| - 1] == s[|s| - 1];
      ValueOfPadded(z, s[..|s| - 1], radix);
    }
  }

  /** Each alphabet character becomes its 5-bit value, most significant bit first. */
  lemma FiveBitsValue(c: char)
    requires IsBase32Char(c)
    ensures |FiveBits(c)| == 5
    ensures BitsValue(FiveBits(c)) == Base32Index(c)
  {
    var k := Base32Index(c);
    BinaryLength(k, 5);
    BinaryValue(k);
    BitsValuePadded(5 - |Binary(k)|, Binary(k));
  }

  /** `n` bits stand for less than 2^n. */
  lemma {:induction false} BitsValueBound(s: string)
    ensures BitsValue(s) < Pow(2, |s|)
    decreases |s|
  {
    if s != [] {
      BitsValueBound(s[..|s| - 1]);
    }
  }

  /**
   * The decoded length is `floor(5n/8)` for the n characters kept, and every
   * decoded value is a byte.
   */
  lemma DecodedShape(encoded: string)
    ensures |Decoded(encoded)| == 5 * |Clean(encoded)| / 8
    ensures forall k :: 0 <= k < |Decoded(encoded)| ==> Decoded(encoded)[k] < 256
  {
    var bits := Bits(Clean(encoded));
    assert Pow(2, 8) == 256;
    forall k | 0 <= k < |bits| / 8
      ensures ByteAt(bits, k) < 256
    {
      BitsValueBound(bits[8 * k..8 * k + 8]);
    }
  }

  lemma {:induction false} KeepBase32Chars(s: string)
    ensures |KeepBase32(s)| <= |s|
    ensures forall i :: 0 <= i < |KeepBase32(s)| ==> IsBase32Char(KeepBase32(s)[i])
  {
    if s != [] {
      KeepBase32Chars(s[1..]);
    }
  }

  /** Decoding reads alphabet characters only, and never more than it was given. */
  lemma CleanChars(encoded: string)
    ensures |Clean(encoded)| <= |encoded|
    ensures forall i :: 0 <= i < |Clean(encoded)| ==> IsBase32Char(Clean(encoded)[i])
  {
    KeepBase32Chars(Upper(encoded));
  }

  /** The k-th group of five bits stands for the alphabet position of the k-th character. */
  lemma {:induction false} BitsChunks(cleaned: string)
    requires forall i :: 0 <= i < |cleaned| ==> IsBase32Char(cleaned[i])
    ensures forall k :: 0 <= k < |cleaned| ==> BitsValue(Bits(cleaned)[5 * k..5 * k + 5]) == Base32Index(cleaned[k])
  {
    if cleaned != [] {
      BitsChunks(cleaned[1..]);
      FiveBitsValue(cleaned[0]);
      var b, rest := Bits(cleaned), Bits(cleaned[1..]);
      forall k | 0 <= k < |cleaned|
        ensures BitsValue(b[5 * k..5 * k + 5]) == Base32Index(cleaned[k])
      {
        if k == 0 {
          assert b[0..5] == FiveBits(cleaned[0]);
        } else {
          assert b[5 * k..5 * k + 5] == rest[5 * (k - 1)..5 * (k - 1) + 5];
          assert cleaned[k] == cleaned[1..][k - 1];
        }
      }
    }
  }

  lemma {:induction false} UpperLowerChar(s: string)
    ensures Upper(Lower(s)) == Upper(s)
  {
  }

  /** Decoding ignores letter case. */
  lemma DecodeIgnoresCase(encoded: string)
    ensures Decoded(Lower(encoded)) == Decoded(encoded)
  {
    UpperLowerChar(encoded);
  }

  lemma {:induction false} KeepAll(s: string)
    requires forall i :: 0 <= i < |s| ==> IsBase32Char(s[i])
    ensures KeepBase32(s) == s
  {
    if s != [] {
      KeepAll(s[1..]);
    }
  }

  /**
   * A generated secret is read back whole: nothing is dropped, and its
   * twenty characters decode to twelve bytes.
   */
  lemma SecretSurvivesCleaning(secret: string)
    requires forall i :: 0 <= i < |secret| ==> IsBase32Char(secret[i])
    ensures Clean(secret) == secret
    ensures |Decoded(secret)| == 5 * |secret| / 8
    ensures |secret| == 20 ==> |Decoded(secret)| == 12
  {
    assert Upper(secret) == secret;
    KeepAll(secret);
    DecodedShape(secret);
  }

  // ---------------------------------------------------------------------------
  // generateTOTP

  /** `hash[i]`, with a missing entry read as 0 (`undefined & mask` is 0). */
  function At(hash: seq<nat>, i: int): nat {
    if 0 <= i < |hash| then hash[i] else 0
  }

  /** The dynamic truncation: four bytes from the offset in the low nibble of the last byte, top bit cleared. */
  function Truncate(hash: seq<nat>): (r: nat)
    ensures r < 0x8000_0000
  {
    var offset := At(hash, |hash| - 1) % 16;
    (At(hash, offset) % 128) * 0x100_0000 + (At(hash, offset + 1) % 256) * 0x1_0000
      + (At(hash, offset + 2) % 256) * 0x100 + At(hash, offset + 3) % 256
  }

  /** `otp.toString().padStart(6, '0')`. */
  function Code(otp: nat): string {
    PadStart(NatToString(otp), Digits, '0')
  }

  /**
   * The counter bytes as the loop writes them: every one of the eight is
   * `counter & 0xff`.
   */
  function CounterBytes(counter: int): (r: seq<nat>)
    ensures |r| == 8
  {
    seq(8, _ => counter % 256)
  }

  /** The code for a key and the counter bytes: HMAC-SHA1, dynamic truncation, six decimal digits. */
  function Hotp(h: Hashes, key: seq<nat>, counterBytes: seq<nat>): string {
    Code(Truncate(h.hmacSha1(key, counterBytes)) % 1000000)
  }

  /** The code `generateTOTP(secret, time)` returns. */
  function Totp(h: Hashes, secret: string, time: int): string {
    Hotp(h, Decoded(secret), CounterBytes(time / 30))
  }

  /** `generateTOTP(secret, time)`. */
  method GenerateTotp(h: Hashes, secret: string, time: int) returns (code: string)
    ensures code == Totp(h, secret, time)
  {
    var secretBuffer := Base32Decode(secret);
    var counter := time / 30;
    var counterBuffer := new nat[8](_ => 0);
    // The source writes `time = Math.floor(counter / 256)` here, so the
    // counter itself never moves on to its next byte.
    var rest := time;
    var i := 7;
    while i >= 0
      invariant -1 <= i <= 7
      invariant forall k :: i < k < 8 ==> counterBuffer[k] == counter % 256
    {
      counterBuffer[i] := counter % 256;
      rest := counter / 256;
      i := i - 1;
    }
    assert counterBuffer[..] == CounterBytes(counter);
    var hash := h.hmacSha1(secretBuffer, counterBuffer[..]);
    var binary := Truncate(hash);
    var otp := binary % 1000000;
    code := PadStart(NatToString(otp), Digits, '0');
  }

  /** The current code at `nowMs`: `getCurrentTOTP`. */
  method GetCurrentTotp(h: Hashes, secret: string, nowMs: int) returns (code: string)
    ensures code == Totp(h, secret, nowMs / 1000)
  {
    var currentTime := nowMs / 1000;
    code := GenerateTotp(h, secret, currentTime);
  }

  lemma {:induction false} DecimalLength(n: nat, k: nat)
    requires 1 <= k && n < Pow(10, k)
    ensures |NatToString(n)| <= k
    decreases k
  {
    if n >= 10 {
      DecimalLength(n / 10, k - 1);
    }
  }

  /** A code is six decimal digits whose value is the number it renders. */
  lemma CodeShape(otp: nat)
    requires otp < 1000000
    ensures |Code(otp)| == 6
    ensures forall i :: 0 <= i < 6 ==> IsDigit(Code(otp)[i])
    ensures forall i :: 0 <= i < 6 ==> JsNumber.IsRadixDigit(Code(otp)[i], 10)
    ensures JsNumber.ValueOf(Code(otp), 10) == otp
  {
    assert Pow(10, 6) == 1000000;
    DecimalLength(otp, 6);
    var s := NatToString(otp);
    JsNumber.ValueOfNatToString(otp);
    ValueOfPadded(6 - |s|, s, 10);
  }

  /** Every code is exactly six decimal digits, six bytes in UTF-8. */
  lemma HotpShape(h: Hashes, key: seq<nat>, counterBytes: seq<nat>)
    ensures |Hotp(h, key, counterBytes)| == 6
    ensures forall i :: 0 <= i < 6 ==> IsDigit(Hotp(h, key, counterBytes)[i])
    ensures |Csrf.Utf8String(Hotp(h, key, counterBytes))| == 6
  {
    CodeShape(Truncate(h.hmacSha1(key, counterBytes)) % 1000000);
    Csrf.AsciiLength(Hotp(h, key, counterBytes));
  }

  /** Every TOTP code is exactly six decimal digits. */
  lemma TotpShape(h: Hashes, secret: string, time: int)
    ensures |Totp(h, secret, time)| == 6
    ensures forall i :: 0 <= i < 6 ==> IsDigit(Totp(h, secret, time)[i])
    ensures |Csrf.Utf8String(Totp(h, secret, time))| == 6
  {
    HotpShape(h, Decoded(secret), CounterBytes(time / 30));
  }

  /** The counter steps once per thirty seconds. */
  lemma CounterSteps(h: Hashes, secret: string, time: int)
    ensures Totp(h, secret, time) == Totp(h, secret, time - time % 30)
  {
    DivModUnique(time - time % 30, 30, time / 30, 0);
  }

  /**
   * All eight bytes equal the low byte of the counter, so counters that
   * agree modulo 256 give the same code: the code at time 0 is the code at
   * time 7680 for every secret.
   */
  lemma CounterCollision(h: Hashes, secret: string)
    ensures CounterBytes(0) == CounterBytes(256)
    ensures Totp(h, secret, 0) == Totp(h, secret, 256 * 30)
  {
  }

  /** The low `n` bytes of `c`, most significant first. */
  function BigEndianBytes(c: nat, n: nat): (r: seq<nat>)
    ensures |r| == n
  {
    if n == 0 then [] else BigEndianBytes(c / 256, n - 1) + [c % 256]
  }

  /** The counter in eight bytes, most significant first, as section 5.2 of RFC 4226 has it. */
  function BigEndianCounter(counter: nat): (r: seq<nat>)
    ensures |r| == 8
  {
    BigEndianBytes(counter, 8)
  }

  /** The number big-endian bytes stand for. */
  function BigEndianValue(bytes: seq<nat>): nat {
    if bytes == [] then 0 else 256 * BigEndianValue(bytes[..|bytes| - 1]) + bytes[|bytes| - 1]
  }

  lemma MulAtLeast(k: int, x: int)
    requires k > 0 && x >= 1
    ensures k * x >= k
  {
    assert k * x == k * (x - 1) + k;
  }

  /** Division with remainder has one answer. */
  lemma DivModUnique(q: int, k: int, c: int, r: int)
    requires k > 0 && q == k * c + r && 0 <= r < k
    ensures q / k == c && q % k == r
  {
    var c', r' := q / k, q % k;
    assert k * c + r == k * c' + r';
    if c > c' {
      MulAtLeast(k, c - c');
    } else if c < c' {
      MulAtLeast(k, c' - c);
    }
  }

  /** Splitting off the last base-256 digit of `q % (256 * m)`. */
  lemma ModSplit(q: nat, m: nat)
    requires m > 0
    ensures 256 * ((q / 256) % m) + q % 256 == q % (256 * m)
  {
    var a, b := q / 256, q % 256;
    var c, d := a / m, a % m;
    assert a == m * c + d;
    assert q == (256 * m) * c + (256 * d + b) by {
      assert 256 * a == 256 * (m * c) + 256 * d;
      assert 256 * (m * c) == (256 * m) * c;
    }
    assert 256 * d + b < 256 * m by {
      assert 256 * (d + 1) <= 256 * m;
    }
    DivModUnique(q, 256 * m, c, 256 * d + b);
  }

  /** The low `n` bytes stand for the counter modulo 256^n. */
  lemma {:induction false} BigEndianBytesValue(c: nat, n: nat)
    ensures BigEndianValue(BigEndianBytes(c, n)) == c % Pow(256, n)
  {
    if n > 0 {
      var r := BigEndianBytes(c, n);
      assert r[..n - 1] == BigEndianBytes(c / 256, n - 1);
      BigEndianBytesValue(c / 256, n - 1);
      ModSplit(c, Pow(256, n - 1));
    }
  }

  /** The big-endian counter bytes give the counter back for every counter below 2^64. */
  lemma BigEndianRoundTrip(counter: nat)
    requires counter < Pow(256, 8)
    ensures BigEndianValue(BigEndianCounter(counter)) == counter
  {
    BigEndianBytesValue(counter, 8);
    DivModUnique(counter, Pow(256, 8), 0, counter);
  }

  /** The code with the counter bytes of RFC 4226: distinct periods below 2^64 get distinct HMAC inputs. */
  function RfcTotp(h: Hashes, secret: string, time: nat): string {
    Hotp(h, Decoded(secret), BigEndianCounter(time / 30))
  }

  lemma RfcCountersDistinct(c1: nat, c2: nat)
    requires c1 < Pow(256, 8) && c2 < Pow(256, 8) && c1 != c2
    ensures BigEndianCounter(c1) != BigEndianCounter(c2)
  {
    BigEndianRoundTrip(c1);
    BigEndianRoundTrip(c2);
  }

  // ---------------------------------------------------------------------------
  // verifyTOTP

  /** `crypto.timingSafeEqual`: throws for buffers of different lengths. */
  function TimingSafeEqual(a: seq<nat>, b: seq<nat>): (r: Result<bool>)
    ensures r.Err? <==> |a| != |b|
    ensures r.Ok? ==> (r.value <==> a == b)
  {
    if |a| != |b| then Err(Csrf.ByteLengthMismatch) else Ok(a == b)
  }

  /** The code for `key` `i` periods away from the time `t` (in seconds). */
  function WindowCode(h: Hashes, key: seq<nat>, t: int, i: int): string {
    Hotp(h, key, CounterBytes((t + i * 30) / 30))
  }

  /** Whether the token is the code of one of the periods `i` to `Window` away from `t`. */
  function InWindowFrom(h: Hashes, key: seq<nat>, token: string, t: int, i: int): bool
    decreases Window - i
  {
    if i > Window then false
    else token == WindowCode(h, key, t, i) || InWindowFrom(h, key, token, t, i + 1)
  }

  /**
   * What `verifyTOTP` answers at `nowMs`: a token that is empty or not six
   * characters long is refused; a token whose UTF-8 form is not six bytes
   * makes the first comparison throw; otherwise the token is accepted
   * exactly when it is the code of a period in the window (`WindowSpec`).
   */
  function TotpCheck(h: Hashes, secret: string, token: string, nowMs: int): Result<bool> {
    if token == "" || |token| != Digits then Ok(false)
    else if |Csrf.Utf8String(token)| != Digits then Err(Csrf.ByteLengthMismatch)
    else Ok(InWindowFrom(h, Decoded(secret), token, nowMs / 1000, -1))
  }

  /** The window is the period before, the current one and the one after. */
  lemma WindowSpec(h: Hashes, key: seq<nat>, token: string, t: int)
    ensures InWindowFrom(h, key, token, t, -1)
      <==> token == WindowCode(h, key, t, -1) || token == WindowCode(h, key, t, 0) || token == WindowCode(h, key, t, 1)
  {
    WindowStep(h, key, token, t, -1);
    WindowStep(h, key, token, t, 0);
    WindowStep(h, key, token, t, 1);
    assert !InWindowFrom(h, key, token, t, 2);
  }

  lemma WindowStep(h: Hashes, key: seq<nat>, token: string, t: int, i: int)
    requires i <= Window
    ensures InWindowFrom(h, key, token, t, i) == (token == WindowCode(h, key, t, i) || InWindowFrom(h, key, token, t, i + 1))
  {
  }

  /** The window codes are the TOTP codes thirty seconds apart. */
  lemma WindowCodeIsTotp(h: Hashes, secret: string, t: int, i: int)
    ensures WindowCode(h, Decoded(secret), t, i) == Totp(h, secret, t + i * 30)
  {
  }

  /** One round of the window loop: the code `i` periods from `currentTime` compared byte-wise with the token. */
  method CompareWithCode(h: Hashes, secret: string, token: string, currentTime: int, i: int) returns (same: Result<bool>)
    requires |token| == 6
    ensures same.Err? <==> |Csrf.Utf8String(token)| != 6
    ensures same.Err? ==> same.error == Csrf.ByteLengthMismatch
    ensures same.Ok? ==> (same.value <==> token == WindowCode(h, Decoded(secret), currentTime, i))
  {
    var checkTime := currentTime + i * 30;
    var expectedToken := GenerateTotp(h, secret, checkTime);
    TotpShape(h, secret, checkTime);
    WindowCodeIsTotp(h, secret, currentTime, i);
    var tokenBytes, expectedBytes := Csrf.Utf8String(token), Csrf.Utf8String(expectedToken);
    same := TimingSafeEqual(tokenBytes, expectedBytes);
    if same.Ok? && same.value {
      Csrf.Utf8StringInjective(token, expectedToken);
    }
  }

  /** `verifyTOTP(secret, token)` at `nowMs`. */
  method VerifyTotp(h: Hashes, secret: string, token: string, nowMs: int) returns (r: Result<bool>)
    ensures r == TotpCheck(h, secret, token, nowMs)
  {
    if token == "" || |token| != Digits {
      return Ok(false);
    }
    var currentTime := nowMs / 1000;
    ghost var key := Decoded(secret);
    var i := -(Window as int);
    while i <= Window as int
      invariant -1 <= i <= 2
      invariant i > -1 ==> |Csrf.Utf8String(token)| == Digits
      invariant InWindowFrom(h, key, token, currentTime, -1) == InWindowFrom(h, key, token, currentTime, i)
      decreases Window - i
    {
      var same := CompareWithCode(h, secret, token, currentTime, i);
      if same.Err? {
        return Err(same.error);
      }
      if same.value {
        return Ok(true);
      }
      i := i + 1;
    }
    return Ok(false);
  }

  /** The codes of the period before, the current one and the one after are accepted. */
  lemma WindowAccepted(h: Hashes, secret: string, nowMs: int, j: int)
    requires -1 <= j <= 1
    ensures TotpCheck(h, secret, Totp(h, secret, nowMs / 1000 + j * 30), nowMs) == Ok(true)
  {
    var t := nowMs / 1000;
    var key := Decoded(secret);
    var code := WindowCode(h, key, t, j);
    WindowCodeIsTotp(h, secret, t, j);
    HotpShape(h, key, CounterBytes((t + j * 30) / 30));
    WindowFromIndex(h, key, code, t, -1, j);
  }

  lemma {:induction false} WindowFromIndex(h: Hashes, key: seq<nat>, token: string, t: int, i: int, j: int)
    requires i <= j <= Window && token == WindowCode(h, key, t, j)
    ensures InWindowFrom(h, key, token, t, i)
    decreases j - i
  {
    if i < j {
      WindowFromIndex(h, key, token, t, i + 1, j);
      WindowStep(h, key, token, t, i);
    } else {
      assert token == WindowCode(h, key, t, i);
      WindowStep(h, key, token, t, i);
    }
  }

  /** A token of ASCII characters never makes the check throw, and one of another length is refused. */
  lemma AsciiTokenAnswers(h: Hashes, secret: string, token: string, nowMs: int)
    requires forall i :: 0 <= i < |token| ==> token[i] < '\U{0080}'
    ensures TotpCheck(h, secret, token, nowMs).Ok?
    ensures |token| != 6 ==> TotpCheck(h, secret, token, nowMs) == Ok(false)
  {
    Csrf.AsciiLength(token);
  }

  /** A six-character token with a character outside ASCII makes the comparison throw. */
  lemma WideTokenThrows(h: Hashes, secret: string, nowMs: int)
    ensures TotpCheck(h, secret, "12345\U{00E9}", nowMs).Err?
  {
    var token := "12345\U{00E9}";
    assert token == "12345" + ['\U{00E9}'];
    assert Csrf.Utf8String(token) == Csrf.Utf8String("12345") + Csrf.Utf8String(['\U{00E9}']) by {
      Utf8StringAppend("12345", ['\U{00E9}']);
    }
    Csrf.AsciiLength("12345");
    assert Csrf.Utf8String(['\U{00E9}']) == Utf8('\U{00E9}');
  }

  lemma {:induction false} Utf8StringAppend(s: string, t: string)
    ensures Csrf.Utf8String(s + t) == Csrf.Utf8String(s) + Csrf.Utf8String(t)
    decreases |s|
  {
    if s != [] {
      assert (s + t)[1..] == s[1..] + t;
      Utf8StringAppend(s[1..], t);
    } else {
      assert s + t == t;
    }
  }

  // ---------------------------------------------------------------------------
  // Backup codes

  /** `${code.substring(0, 4)}-${code.substring(4)}`. */
  function FormatCode(code: string): string
    requires |code| >= 4
  {
    code[..4] + "-" + code[4..]
  }

  /** `generateBackupCodes(count)` with the four random bytes of each code given. */
  method GenerateBackupCodes(count: int, random: seq<seq<nat>>) returns (codes: seq<string>)
    requires count <= |random|
    requires forall i :: 0 <= i < |random| ==> |random[i]| == 4 && Csrf.IsBytes(random[i])
    ensures |codes| == Max(count, 0)
    ensures forall i :: 0 <= i < |codes| ==> codes[i] == FormatCode(Upper(Csrf.Hex(random[i])))
  {
    codes := [];
    var i := 0;
    while i < count
      invariant 0 <= i == |codes| <= Max(count, 0)
      invariant forall k :: 0 <= k < i ==> codes[k] == FormatCode(Upper(Csrf.Hex(random[k])))
    {
      var code := Upper(Csrf.Hex(random[i]));
      codes := codes + [code[..4] + "-" + code[4..]];
      i := i + 1;
    }
  }

  /** `replace(/-/g, '')`. */
  function RemoveDashes(s: string): (r: string)
    ensures forall i :: 0 <= i < |r| ==> r[i] != '-'
  {
    if s == [] then [] else (if s[0] == '-' then [] else [s[0]]) + RemoveDashes(s[1..])
  }

  /** The form a backup code is hashed in: without dashes, upper-cased. */
  function Normalize(code: string): string {
    Upper(RemoveDashes(code))
  }

  lemma {:induction false} RemoveDashesUpper(s: string)
    ensures Upper(RemoveDashes(s)) == RemoveDashes(Upper(s))
    decreases |s|
  {
    if s != [] {
      RemoveDashesUpper(s[1..]);
      assert Upper(s)[1..] == Upper(s[1..]);
      assert Upper(RemoveDashes(s)) == Upper((if s[0] == '-' then [] else [s[0]]) + RemoveDashes(s[1..]));
      assert Upper((if s[0] == '-' then [] else [s[0]]) + RemoveDashes(s[1..]))
        == Upper(if s[0] == '-' then [] else [s[0]]) + Upper(RemoveDashes(s[1..]));
    }
  }

  lemma {:induction false} RemoveDashesNone(s: string)
    requires forall i :: 0 <= i < |s| ==> s[i] != '-'
    ensures RemoveDashes(s) == s
    decreases |s|
  {
    if s != [] {
      RemoveDashesNone(s[1..]);
    }
  }

  /** Normalising ignores letter case and is idempotent. */
  lemma NormalizeSpec(code: string)
    ensures Normalize(Lower(code)) == Normalize(code)
    ensures Normalize(Normalize(code)) == Normalize(code)
  {
    RemoveDashesUpper(Lower(code));
    RemoveDashesUpper(code);
    UpperLowerChar(code);
    var n := Normalize(code);
    RemoveDashesNone(n);
    assert Upper(n) == n;
  }

  lemma {:induction false} RemoveDashesAppend(a: string, b: string)
    ensures RemoveDashes(a + b) == RemoveDashes(a) + RemoveDashes(b)
    decreases |a|
  {
    if a != [] {
      assert (a + b)[1..] == a[1..] + b;
      RemoveDashesAppend(a[1..], b);
    } else {
      assert a + b == b;
    }
  }

  /**
   * A backup code is eight upper-case hex digits with a dash after the
   * fourth, and normalising it gives back the hex of its random bytes.
   */
  lemma BackupCodeShape(bytes: seq<nat>)
    requires |bytes| == 4 && Csrf.IsBytes(bytes)
    ensures var code := FormatCode(Upper(Csrf.Hex(bytes)));
      && |code| == 9 && code[4] == '-'
      && (forall i :: 0 <= i < 9 && i != 4 ==> IsUpperHex(code[i]))
      && Normalize(code) == Upper(Csrf.Hex(bytes))
  {
    var hex := Upper(Csrf.Hex(bytes));
    assert forall i :: 0 <= i < 8 ==> IsUpperHex(hex[i]);
    FormattedShape(hex);
  }

  /** Eight upper-case hex digits with the dash put in, and the dash taken out again. */
  lemma FormattedShape(hex: string)
    requires |hex| == 8 && forall i :: 0 <= i < 8 ==> IsUpperHex(hex[i])
    ensures var code := FormatCode(hex);
      && |code| == 9 && code[4] == '-'
      && (forall i :: 0 <= i < 9 && i != 4 ==> IsUpperHex(code[i]))
      && Normalize(code) == hex
  {
    DashesOut(hex);
    UpperHexUnchanged(hex);
  }

  /** Taking the dashes out of a formatted code gives back the code, whenever it had no dash of its own. */
  lemma DashesOut(hex: string)
    requires |hex| >= 4 && forall i :: 0 <= i < |hex| ==> hex[i] != '-'
    ensures RemoveDashes(FormatCode(hex)) == hex
  {
    var a, b := hex[..4], hex[4..];
    RemoveDashesAppend(a + "-", b);
    RemoveDashesAppend(a, "-");
    assert RemoveDashes("-") == [];
    RemoveDashesNone(a);
    RemoveDashesNone(b);
    assert a + b == hex;
  }

  /** Upper-case hex digits are left alone by upper-casing. */
  lemma UpperHexUnchanged(hex: string)
    requires forall i :: 0 <= i < |hex| ==> IsUpperHex(hex[i])
    ensures Upper(hex) == hex
  {
  }

  /** `hashBackupCodes(codes)`: the SHA-256 hex digest of each normalised code. */
  function HashBackupCodes(h: Hashes, codes: seq<string>): (r: seq<string>)
    ensures |r| == |codes|
  {
    seq(|codes|, i requires 0 <= i < |codes| => h.sha256Hex(Normalize(codes[i])))
  }

  /** The lookup from index `i` on: the first comparison that throws or matches decides; none gives -1. */
  function FindFrom(inputHash: string, hashed: seq<string>, i: nat): Result<int>
    decreases |hashed| - i
  {
    if i >= |hashed| then Ok(-1)
    else
      match TimingSafeEqual(Csrf.Utf8String(inputHash), Csrf.Utf8String(hashed[i]))
      case Err(e) => Err(e)
      case Ok(same) => if same then Ok(i) else FindFrom(inputHash, hashed, i + 1)
  }

  /** `verifyBackupCode(inputCode, hashedCodes)`. */
  method VerifyBackupCode(h: Hashes, inputCode: string, hashedCodes: seq<string>) returns (r: Result<int>)
    ensures r == FindFrom(h.sha256Hex(Normalize(inputCode)), hashedCodes, 0)
  {
    var normalized := Upper(RemoveDashes(inputCode));
    var inputHash := h.sha256Hex(normalized);
    for i := 0 to |hashedCodes|
      invariant FindFrom(inputHash, hashedCodes, 0) == FindFrom(inputHash, hashedCodes, i)
    {
      var same := TimingSafeEqual(Csrf.Utf8String(inputHash), Csrf.Utf8String(hashedCodes[i]));
      if same.Err? {
        return Err(same.error);
      }
      if same.value {
        return Ok(i);
      }
    }
    return Ok(-1);
  }

  /**
   * An index found holds the input hash and no earlier one does; -1 means
   * none does; a throw comes from a stored hash of another UTF-8 length.
   */
  lemma {:induction false} FindFromSpec(inputHash: string, hashed: seq<string>, i: nat)
    requires i <= |hashed|
    ensures var r := FindFrom(inputHash, hashed, i);
      && (r.Ok? && r.value >= 0 ==>
            && i <= r.value < |hashed| && hashed[r.value] == inputHash
            && forall j :: i <= j < r.value ==> hashed[j] != inputHash)
      && (r == Ok(-1) ==> forall j :: i <= j < |hashed| ==> hashed[j] != inputHash)
      && (r.Ok? ==> r.value >= -1)
      && (r.Err? ==> exists j :: i <= j < |hashed| && |Csrf.Utf8String(hashed[j])| != |Csrf.Utf8String(inputHash)|)
    decreases |hashed| - i
  {
    if i < |hashed| {
      FindFromSpec(inputHash, hashed, i + 1);
      if Csrf.Utf8String(inputHash) == Csrf.Utf8String(hashed[i]) {
        Csrf.Utf8StringInjective(inputHash, hashed[i]);
      }
    }
  }

  /** When every stored hash has the input's UTF-8 length the lookup never throws and finds any matching index or an earlier one. */
  lemma {:induction false} FindFromSameLength(inputHash: string, hashed: seq<string>, i: nat, j: nat)
    requires i <= j < |hashed| && hashed[j] == inputHash
    requires forall k :: i <= k < |hashed| ==> |Csrf.Utf8String(hashed[k])| == |Csrf.Utf8String(inputHash)|
    ensures FindFrom(inputHash, hashed, i).Ok?
    ensures 0 <= FindFrom(inputHash, hashed, i).value <= j
    decreases j - i
  {
    var same := Csrf.Utf8String(inputHash) == Csrf.Utf8String(hashed[i]);
    if i == j {
      assert same;
    } else if !same {
      FindFromSameLength(inputHash, hashed, i + 1, j);
    }
  }

  /** SHA-256 hex digests are 64 lower-case hex digits. */
  ghost predicate HexDigests(h: Hashes) {
    forall s :: |h.sha256Hex(s)| == 64 && forall i :: 0 <= i < 64 ==> IsLowerHex(h.sha256Hex(s)[i])
  }

  /**
   * A backup code entered with or without its dash and in either case is
   * found among the stored hashes, at its own index or at an earlier one
   * holding the same hash.
   */
  lemma BackupCodeAccepted(h: Hashes, codes: seq<string>, j: nat, input: string)
    requires HexDigests(h)
    requires j < |codes| && Normalize(input) == Normalize(codes[j])
    ensures var r := FindFrom(h.sha256Hex(Normalize(input)), HashBackupCodes(h, codes), 0);
      && r.Ok? && 0 <= r.value <= j
      && HashBackupCodes(h, codes)[r.value] == h.sha256Hex(Normalize(input))
  {
    var hashed := HashBackupCodes(h, codes);
    var x := h.sha256Hex(Normalize(input));
    forall k | 0 <= k < |hashed|
      ensures |Csrf.Utf8String(hashed[k])| == |Csrf.Utf8String(x)|
    {
      assert hashed[k] == h.sha256Hex(Normalize(codes[k]));
      Csrf.AsciiLength(hashed[k]);
      Csrf.AsciiLength(x);
    }
    FindFromSameLength(x, hashed, 0, j);
    FindFromSpec(x, hashed, 0);
  }
}
