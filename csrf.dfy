/**
 * CSRF tokens (synchronizer-token pattern): generation from 32 random bytes
 * and the comparison of the cookie token with the header token.
 */
module Csrf {
  import opened Common

  const TokenHeader: string := "X-CSRF-Token"
  const CookieName: string := "__Host-csrf-token"

  // ---------------------------------------------------------------------------
  // generateCsrfToken

  predicate IsBytes(bs: seq<nat>) {
    forall i :: 0 <= i < |bs| ==> bs[i] < 256
  }

  /** `Buffer.toString('hex')`. */
  function Hex(bs: seq<nat>): (r: string)
    requires IsBytes(bs)
    ensures |r| == 2 * |bs|
    ensures forall i :: 0 <= i < |r| ==> IsLowerHex(r[i])
  {
    if bs == [] then "" else ByteHexLower(bs[0]) + Hex(bs[1..])
  }

  /** `crypto.randomBytes(32).toString('hex')`, with the 32 random bytes as input. */
  function GenerateCsrfToken(random: seq<nat>): (r: string)
    requires |random| == 32 && IsBytes(random)
    ensures |r| == 64
    ensures forall i :: 0 <= i < |r| ==> IsLowerHex(r[i])
  {
    Hex(random)
  }

  /** The value of a lower-case hex digit (0 for any other character). */
  function HexValue(c: char): nat {
    if '0' <= c <= '9' then c as int - '0' as int
    else if 'a' <= c <= 'f' then c as int - 'a' as int + 10
    else 0
  }

  lemma HexDigitValue(d: nat)
    requires d < 16
    ensures IsLowerHex(HexDigitLower(d)) && HexValue(HexDigitLower(d)) == d
  {
  }

  /** Reading a lower-case hex string back into bytes, two digits at a time. */
  function Unhex(s: string): seq<nat> {
    if |s| < 2 then [] else [16 * HexValue(s[0]) + HexValue(s[1])] + Unhex(s[2..])
  }

  /** The two hex digits of a byte, in front of more text, read back as the byte. */
  lemma UnhexByte(b: nat, rest: string)
    requires b < 256
    ensures Unhex(ByteHexLower(b) + rest) == [b] + Unhex(rest)
  {
    var s := ByteHexLower(b) + rest;
    assert s[0] == HexDigitLower(b / 16) && s[1] == HexDigitLower(b % 16) && s[2..] == rest;
    HexDigitValue(b / 16);
    HexDigitValue(b % 16);
  }

  /** The hex rendering loses nothing: reading it back gives the random bytes. */
  lemma {:induction false} UnhexHex(bs: seq<nat>)
    requires IsBytes(bs)
    ensures Unhex(Hex(bs)) == bs
  {
    if bs != [] {
      assert Hex(bs) == ByteHexLower(bs[0]) + Hex(bs[1..]);
      UnhexByte(bs[0], Hex(bs[1..]));
      UnhexHex(bs[1..]);
      assert bs == [bs[0]] + bs[1..];
    }
  }

  /** Different random bytes give different tokens. */
  lemma TokensDistinct(a: seq<nat>, b: seq<nat>)
    requires |a| == 32 && IsBytes(a) && |b| == 32 && IsBytes(b) && a != b
    ensures GenerateCsrfToken(a) != GenerateCsrfToken(b)
  {
    UnhexHex(a);
    UnhexHex(b);
  }

  // ---------------------------------------------------------------------------
  // validateCsrfToken

  /** `Buffer.from(s, 'utf8')`. */
  function Utf8String(s: string): (r: seq<nat>)
    ensures |r| >= |s|
  {
    if s == [] then [] else Utf8(s[0]) + Utf8String(s[1..])
  }

  /** The length of a UTF-8 sequence, read from its first byte. */
  function LeadLength(b: nat): nat {
    if b < 0x80 then 1 else if b < 0xE0 then 2 else if b < 0xF0 then 3 else 4
  }

  lemma Utf8Lead(c: char)
    ensures |Utf8(c)| == LeadLength(Utf8(c)[0])
  {
  }

  lemma Utf8Injective(c: char, d: char)
    requires Utf8(c) == Utf8(d)
    ensures c == d
  {
    var n, m := c as int, d as int;
    if 0x80 <= n < 0x800 {
      Split64(n, m);
    } else if 0x800 <= n < 0x10000 {
      Split64(n / 64, m / 64);
      Split64(n, m);
    } else if 0x10000 <= n {
      Split64(n / 4096, m / 4096);
      Split64(n / 64, m / 64);
      Split64(n, m);
    }
  }

  /** A number is determined by its quotient and remainder by 64. */
  lemma Split64(n: int, m: int)
    requires n >= 0 && m >= 0 && n / 64 == m / 64 && n % 64 == m % 64
    ensures n == m
  {
  }

  /** UTF-8 encoding is one-to-one on strings. */
  lemma {:induction false} Utf8StringInjective(s: string, t: string)
    requires Utf8String(s) == Utf8String(t)
    ensures s == t
  {
    if s == [] || t == [] {
      assert |Utf8String(s)| >= |s| && |Utf8String(t)| >= |t|;
    } else {
      var e, f := Utf8(s[0]), Utf8(t[0]);
      var all := Utf8String(s);
      assert all == e + Utf8String(s[1..]) && all == f + Utf8String(t[1..]);
      assert e[0] == all[0] == f[0];
      Utf8Lead(s[0]);
      Utf8Lead(t[0]);
      assert e == all[..|e|] == f;
      Utf8Injective(s[0], t[0]);
      assert Utf8String(s[1..]) == all[|e|..] == Utf8String(t[1..]);
      Utf8StringInjective(s[1..], t[1..]);
    }
  }

  const ByteLengthMismatch: string := "Input buffers must have the same byte length"

  /**
   * `validateCsrfToken`: false for an empty token, false for tokens of
   * different length; otherwise the byte-wise comparison, which throws when
   * the UTF-8 encodings differ in length.
   */
  function ValidateCsrfToken(token1: string, token2: string): (r: Result<bool>)
    ensures token1 == "" || token2 == "" ==> r == Ok(false)
    ensures |token1| != |token2| ==> r == Ok(false)
    ensures r.Err? ==> |Utf8String(token1)| != |Utf8String(token2)|
  {
    if token1 == "" || token2 == "" then Ok(false)
    else if |token1| != |token2| then Ok(false)
    else
      var b1, b2 := Utf8String(token1), Utf8String(token2);
      if |b1| != |b2| then Err(ByteLengthMismatch) else Ok(b1 == b2)
  }

  /**
   * The comparison accepts exactly equal non-empty tokens: it is
   * case-sensitive, and never throws for equal tokens.
   */
  lemma ValidateCsrfTokenSpec(token1: string, token2: string)
    ensures ValidateCsrfToken(token1, token2) == Ok(true) <==> token1 != "" && token1 == token2
  {
    if ValidateCsrfToken(token1, token2) == Ok(true) {
      Utf8StringInjective(token1, token2);
    }
  }

  /** Tokens that differ only in letter case are rejected. */
  lemma CaseSensitive()
    ensures ValidateCsrfToken("abc123", "ABC123") == Ok(false)
  {
    ValidateCsrfTokenSpec("abc123", "ABC123");
    assert "abc123"[0] != "ABC123"[0];
  }

  /** ASCII tokens of equal length never make the comparison throw. */
  lemma {:induction false} AsciiNeverThrows(token1: string, token2: string)
    requires forall i :: 0 <= i < |token1| ==> token1[i] < '\U{0080}'
    requires forall i :: 0 <= i < |token2| ==> token2[i] < '\U{0080}'
    ensures ValidateCsrfToken(token1, token2).Ok?
  {
    AsciiLength(token1);
    AsciiLength(token2);
  }

  lemma {:induction false} AsciiLength(s: string)
    requires forall i :: 0 <= i < |s| ==> s[i] < '\U{0080}'
    ensures |Utf8String(s)| == |s|
  {
    if s != [] {
      AsciiLength(s[1..]);
    }
  }

  /** Equal lengths in characters but not in UTF-8 bytes: the byte comparison throws. */
  lemma ThrowsOnByteLengthMismatch()
    ensures ValidateCsrfToken("\U{00E9}a", "ab").Err?
  {
    assert Utf8String("\U{00E9}a") == Utf8('\U{00E9}') + Utf8String("a");
    assert Utf8String("ab") == Utf8('a') + Utf8String("b");
  }
}
