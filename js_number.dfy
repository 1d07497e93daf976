/**
 * JavaScript number conversions the request handlers rely on: `parseInt`
 * without a radix, `Number(value)`, `Math.min`/`Math.max` with `NaN`, and
 * `n || d`. Numbers are integers here; `NaN` is its own value.
 */
module JsNumber {
  import opened Common

  /** A JavaScript number as these handlers see it: an integer or `NaN`. */
  datatype Num = NaN | Int(i: int)

  /** The value of a digit character in radix 36, or 36 for a character that is no digit. */
  function DigitValue(c: char): (r: nat)
    ensures r <= 36
    ensures IsDigit(c) ==> r == c as int - '0' as int
  {
    if '0' <= c <= '9' then c as int - '0' as int
    else if 'a' <= c <= 'z' then c as int - 'a' as int + 10
    else if 'A' <= c <= 'Z' then c as int - 'A' as int + 10
    else 36
  }

  predicate IsRadixDigit(c: char, radix: nat) {
    DigitValue(c) < radix
  }

  /** The length of the run of radix digits at the start of `s`. */
  function DigitRun(s: string, radix: nat): (r: nat)
    ensures r <= |s|
    ensures forall i :: 0 <= i < r ==> IsRadixDigit(s[i], radix)
    ensures r == |s| || !IsRadixDigit(s[r], radix)
  {
    if s != [] && IsRadixDigit(s[0], radix) then 1 + DigitRun(s[1..], radix) else 0
  }

  /** The value of a string of radix digits, most significant first. */
  function ValueOf(ds: string, radix: nat): nat
    requires forall i :: 0 <= i < |ds| ==> IsRadixDigit(ds[i], radix)
  {
    if ds == [] then 0
    else
      var high := ValueOf(ds[..|ds| - 1], radix);
      assert radix * high >= 0;
      radix * high + DigitValue(ds[|ds| - 1])
  }

  /** A sign character at the head of `t` is consumed; `-` negates. */
  function Unsigned(t: string): string {
    if |t| > 0 && (t[0] == '-' || t[0] == '+') then t[1..] else t
  }

  predicate HexPrefixed(u: string) {
    |u| >= 2 && u[0] == '0' && (u[1] == 'x' || u[1] == 'X')
  }

  /**
   * `parseInt(s)`: leading white space, an optional sign, `0x` choosing
   * radix 16, then the longest run of digits; `NaN` when that run is empty.
   */
  function ParseInt(s: string): Num {
    ParseSigned(TrimStart(s))
  }

  /** `parseInt(s, 10)`: leading white space, an optional sign, the run of decimal digits; `NaN` when that run is empty. */
  function ParseDecimal(s: string): Num {
    var t := TrimStart(s);
    var u := Unsigned(t);
    var n := DigitRun(u, 10);
    if n == 0 then NaN else Negate(|t| > 0 && t[0] == '-', Int(ValueOf(u[..n], 10)))
  }

  /** The decimal text of a natural number parses back to it. */
  lemma ParseDecimalOfNat(n: nat)
    ensures ParseDecimal(NatToString(n)) == Int(n)
  {
    var s := NatToString(n);
    ValueOfNatToString(n);
    assert !IsSpace(s[0]);
    assert TrimStart(s) == s;
    assert Unsigned(s) == s;
    assert DigitRun(s, 10) == |s|;
    assert s[..|s|] == s;
  }

  function ParseSigned(t: string): Num {
    Negate(|t| > 0 && t[0] == '-', ParseDigits(Unsigned(t)))
  }

  function Negate(negative: bool, n: Num): Num {
    if negative && n.Int? then Int(-n.i) else n
  }

  function ParseDigits(u: string): Num {
    var radix := if HexPrefixed(u) then 16 else 10;
    var v := if HexPrefixed(u) then u[2..] else u;
    var n := DigitRun(v, radix);
    if n == 0 then NaN else Int(ValueOf(v[..n], radix))
  }

  /** A decimal run followed by a non-digit parses as that run. */
  lemma ParseDecimalRun(ds: string, rest: string)
    requires ds != [] && forall i :: 0 <= i < |ds| ==> IsRadixDigit(ds[i], 10)
    requires rest == [] || !IsRadixDigit(rest[0], 10)
    requires !HexPrefixed(ds + rest)
    ensures ParseDigits(ds + rest) == Int(ValueOf(ds, 10))
  {
    DigitRunOfPrefix(ds, rest, 10);
    assert (ds + rest)[..|ds|] == ds;
  }

  lemma {:induction false} ValueOfNatToString(n: nat)
    ensures forall i :: 0 <= i < |NatToString(n)| ==> IsRadixDigit(NatToString(n)[i], 10)
    ensures ValueOf(NatToString(n), 10) == n
  {
    var s := NatToString(n);
    DecimalIsRadix(s);
    if n >= 10 {
      ValueOfNatToString(n / 10);
      assert s[..|s| - 1] == NatToString(n / 10);
      assert s[|s| - 1] == DigitChar(n % 10);
      DigitCharValue(n % 10);
    } else {
      DigitCharValue(n);
    }
  }

  lemma DigitCharValue(d: nat)
    requires d < 10
    ensures DigitValue(DigitChar(d)) == d
  {
  }

  lemma DecimalIsRadix(s: string)
    requires forall i :: 0 <= i < |s| ==> IsDigit(s[i])
    ensures forall i :: 0 <= i < |s| ==> IsRadixDigit(s[i], 10)
  {
  }

  /** `parseInt(String(n))` gives `n` back. */
  lemma ParseIntRoundTrip(n: int)
    ensures ParseInt(IntToString(n)) == Int(n)
  {
    var m := if n < 0 then -n else n;
    ValueOfNatToString(m);
    NumeralNotPrefixed(m);
    var ds := NatToString(m);
    DecimalDigits(ds);
    if n < 0 {
      assert IntToString(n) == "-" + ds;
      ParseIntMinus(ds);
    } else {
      assert IntToString(n) == ds && IsRadixDigit(ds[0], 10);
      ParseIntPlain(ds);
    }
  }

  /** A decimal numeral has no `0x`, `0o` or `0b` prefix. */
  lemma NumeralNotPrefixed(m: nat)
    ensures !HexPrefixed(NatToString(m)) && PrefixRadix(NatToString(m)) == 0
  {
    var digits := NatToString(m);
    if |digits| >= 2 {
      assert IsDigit(digits[1]);
    }
  }

  /** Text starting with neither white space nor a sign is parsed as digits from its first character. */
  lemma ParseIntPlain(t: string)
    requires t != [] && !IsSpace(t[0]) && t[0] != '-' && t[0] != '+'
    ensures ParseInt(t) == ParseDigits(t)
  {
    TrimStartUnspaced(t);
  }

  /** A leading `-` negates what the digits after it parse to. */
  lemma ParseIntMinus(t: string)
    ensures ParseInt("-" + t) == Negate(true, ParseDigits(t))
  {
    var s := "-" + t;
    assert s[0] == '-' && s[1..] == t;
    TrimStartUnspaced(s);
  }

  /** A non-empty run of decimal digits with no `0x` prefix parses as its value. */
  lemma DecimalDigits(ds: string)
    requires ds != [] && forall i :: 0 <= i < |ds| ==> IsRadixDigit(ds[i], 10)
    requires !HexPrefixed(ds)
    ensures ParseDigits(ds) == Int(ValueOf(ds, 10))
  {
    assert ds + [] == ds;
    ParseDecimalRun(ds, []);
  }

  lemma TrimStartUnspaced(s: string)
    requires s != [] && !IsSpace(s[0])
    ensures TrimStart(s) == s
  {
  }

  /** `parseInt` stops at the first character that is not a digit: `parseInt("12abc")` is 12. */
  lemma ParseIntIgnoresTail(n: nat, rest: string)
    requires n > 0 && (rest == [] || !IsRadixDigit(rest[0], 10))
    ensures ParseInt(NatToString(n) + rest) == Int(n)
  {
    var digits := NatToString(n);
    ValueOfNatToString(n);
    var s := digits + rest;
    assert s[0] == digits[0];
    TrimStartUnspaced(s);
    assert Unsigned(s) == s;
    assert digits[0] != '0' by {
      if n >= 10 {
        NatToStringLeading(n);
      }
    }
    ParseDecimalRun(digits, rest);
  }

  lemma {:induction false} NatToStringLeading(n: nat)
    requires n > 0
    ensures NatToString(n)[0] != '0'
  {
    if n >= 10 {
      NatToStringLeading(n / 10);
    }
  }

  lemma {:induction false} DigitRunOfPrefix(ds: string, rest: string, radix: nat)
    requires forall i :: 0 <= i < |ds| ==> IsRadixDigit(ds[i], radix)
    requires rest == [] || !IsRadixDigit(rest[0], radix)
    ensures DigitRun(ds + rest, radix) == |ds|
  {
    if ds != [] {
      assert (ds + rest)[1..] == ds[1..] + rest;
      DigitRunOfPrefix(ds[1..], rest, radix);
    }
  }

  /** The radix a `0x`, `0o` or `0b` prefix selects in `Number(string)`, or 0 for none. */
  function PrefixRadix(t: string): nat {
    if |t| >= 2 && t[0] == '0' then
      if t[1] == 'x' || t[1] == 'X' then 16
      else if t[1] == 'o' || t[1] == 'O' then 8
      else if t[1] == 'b' || t[1] == 'B' then 2
      else 0
    else 0
  }

  /**
   * `Number(s)` for a string: the trimmed text must be empty (0), a radix
   * literal `0x…`/`0o…`/`0b…`, or a signed run of decimal digits; anything
   * else is `NaN`.
   */
  function StringToNumber(s: string): (r: Num)
    ensures Trim(s) == "" ==> r == Int(0)
  {
    NumberLiteral(Trim(s))
  }

  /** The numeric literal grammar `Number` applies to the trimmed text. */
  function NumberLiteral(t: string): Num {
    if t == "" then Int(0)
    else if PrefixRadix(t) != 0 then DigitsLiteral(t[2..], PrefixRadix(t))
    else Negate(t[0] == '-', DigitsLiteral(Unsigned(t), 10))
  }

  /** A non-empty text made only of radix digits, or `NaN`. */
  function DigitsLiteral(ds: string, radix: nat): Num {
    if ds != [] && DigitRun(ds, radix) == |ds| then Int(ValueOf(ds, radix)) else NaN
  }

  /** `Number(String(n))` gives `n` back. */
  lemma StringToNumberRoundTrip(n: int)
    ensures StringToNumber(IntToString(n)) == Int(n)
  {
    var m := if n < 0 then -n else n;
    var ds := NatToString(m);
    ValueOfNatToString(m);
    NumeralNotPrefixed(m);
    DigitsOnly(ds);
    if n < 0 {
      assert IntToString(n) == "-" + ds;
      NegativeNumber(ds);
    } else {
      assert IntToString(n) == ds;
      PositiveNumber(ds);
    }
  }

  /** An unsigned decimal numeral converts to its value. */
  lemma PositiveNumber(ds: string)
    requires ds != [] && IsRadixDigit(ds[0], 10) && IsRadixDigit(ds[|ds| - 1], 10)
    requires PrefixRadix(ds) == 0
    ensures StringToNumber(ds) == DigitsLiteral(ds, 10)
  {
    TrimUnspaced(ds);
    assert Unsigned(ds) == ds;
  }

  /** A negated decimal numeral converts to the negated value. */
  lemma NegativeNumber(ds: string)
    requires ds != [] && IsRadixDigit(ds[|ds| - 1], 10) && DigitsLiteral(ds, 10).Int?
    ensures StringToNumber("-" + ds) == Int(-DigitsLiteral(ds, 10).i)
  {
    var s := "-" + ds;
    assert s[|s| - 1] == ds[|ds| - 1];
    TrimUnspaced(s);
    NegativeLiteral(ds);
  }

  lemma DigitsOnly(ds: string)
    requires ds != [] && forall i :: 0 <= i < |ds| ==> IsRadixDigit(ds[i], 10)
    ensures DigitsLiteral(ds, 10) == Int(ValueOf(ds, 10))
  {
    assert ds + [] == ds;
    DigitRunOfPrefix(ds, [], 10);
  }

  lemma NegativeLiteral(ds: string)
    requires DigitsLiteral(ds, 10).Int?
    ensures NumberLiteral("-" + ds) == Int(-DigitsLiteral(ds, 10).i)
  {
    var s := "-" + ds;
    assert s[0] == '-' && s[1..] == ds;
  }

  /** A string with no white space at either end is its own trim. */
  lemma TrimUnspaced(s: string)
    requires s != [] && !IsSpace(s[0]) && !IsSpace(s[|s| - 1])
    ensures Trim(s) == s
  {
    assert TrimStart(s) == s;
    assert TrimEnd(s) == s;
  }

  /** `Number(value)`: objects and arrays go through their string form. */
  function ToNumber(v: Js): (r: Num)
    ensures v.JNum? ==> r == Int(v.n)
    ensures v == JNull ==> r == Int(0)
    ensures v == JUndefined ==> r == NaN
  {
    match v
    case JUndefined => NaN
    case JNull => Int(0)
    case JBool(b) => Int(if b then 1 else 0)
    case JNum(n) => Int(n)
    case _ => StringToNumber(JsString(v))
  }

  /** `n || d` on a number: `NaN` and 0 are falsy. */
  function OrDefault(n: Num, d: int): (r: int)
    ensures n.Int? && n.i != 0 ==> r == n.i
    ensures n == NaN || n == Int(0) ==> r == d
  {
    if n.Int? && n.i != 0 then n.i else d
  }

  /** `Math.min(n, b)`: `NaN` wins. */
  function MinNum(n: Num, b: int): (r: Num)
    ensures r == NaN <==> n == NaN
    ensures r.Int? ==> r.i <= b && (r.i == b || r.i == n.i)
  {
    if n == NaN then NaN else Int(Min(n.i, b))
  }

  /** `Math.max(b, n)`: `NaN` wins. */
  function MaxNum(n: Num, b: int): (r: Num)
    ensures r == NaN <==> n == NaN
    ensures r.Int? ==> r.i >= b && (r.i == b || r.i == n.i)
  {
    if n == NaN then NaN else Int(Max(n.i, b))
  }
}
