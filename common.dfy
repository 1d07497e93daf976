/**
 * Shared vocabulary of the model: an Option type, and the handful of string and
 * sequence operations that the JavaScript and Python sources call on strings
 * and arrays (`includes`/`in`, `toLowerCase`, `trim`, `join`, `[...new Set(xs)]`,
 * decimal and hexadecimal rendering).
 */
module Common {

  datatype Option<+T> = None | Some(value: T) {
    function GetOr(default: T): T {
      match this
      case Some(v) => v
      case None => default
    }
  }

  /** A value or the message of the exception raised instead. */
  datatype Result<T> = Ok(value: T) | Err(error: string)

  // ---------------------------------------------------------------------------
  // Substrings

  /** `sub` occurs in `s` (JavaScript `s.includes(sub)`, Python `sub in s`). */
  predicate Contains<T(==)>(s: seq<T>, sub: seq<T>)
    decreases |s|
  {
    |sub| <= |s| && (sub <= s || Contains(s[1..], sub))
  }

  lemma {:induction false} ContainsAt<T>(s: seq<T>, sub: seq<T>, i: nat)
    requires i + |sub| <= |s| && s[i..i + |sub|] == sub
    ensures Contains(s, sub)
  {
    if i > 0 {
      assert s[1..][i - 1..i - 1 + |sub|] == sub;
      ContainsAt(s[1..], sub, i - 1);
    } else {
      assert sub <= s;
    }
  }

  lemma {:induction false} ContainsWitness<T>(s: seq<T>, sub: seq<T>) returns (i: nat)
    requires Contains(s, sub)
    ensures i + |sub| <= |s| && s[i..i + |sub|] == sub
    decreases |s|
  {
    if sub <= s {
      i := 0;
    } else {
      var j := ContainsWitness(s[1..], sub);
      assert s[1..][j..j + |sub|] == s[j + 1..j + 1 + |sub|];
      i := j + 1;
    }
  }

  /** What occurs in a suffix occurs in the whole. */
  lemma ContainsInSuffix<T>(s: seq<T>, n: nat, sub: seq<T>)
    requires n <= |s| && Contains(s[n..], sub)
    ensures Contains(s, sub)
  {
    var k := ContainsWitness(s[n..], sub);
    assert s[n..][k..k + |sub|] == s[n + k..n + k + |sub|];
    ContainsAt(s, sub, n + k);
  }

  /** The empty string occurs in every string. */
  lemma ContainsEmpty<T>(s: seq<T>)
    ensures Contains(s, [])
  {
    ContainsAt(s, [], 0);
  }

  /** A single element occurs iff it is a member. */
  lemma ContainsSingleton<T>(s: seq<T>, x: T)
    ensures Contains(s, [x]) <==> x in s
  {
    if x in s {
      var i :| 0 <= i < |s| && s[i] == x;
      assert s[i..i + 1] == [x];
      ContainsAt(s, [x], i);
    }
    if Contains(s, [x]) {
      var i := ContainsWitness(s, [x]);
      assert s[i] == s[i..i + 1][0];
    }
  }

  lemma ContainsItself<T>(s: seq<T>)
    ensures Contains(s, s)
  {
    assert s[0..|s|] == s;
    ContainsAt(s, s, 0);
  }

  // ---------------------------------------------------------------------------
  // Case mapping (ASCII letters only; see README "Left out")

  function LowerChar(c: char): char {
    if 'A' <= c <= 'Z' then (c as int + 32) as char else c
  }

  function UpperChar(c: char): char {
    if 'a' <= c <= 'z' then (c as int - 32) as char else c
  }

  function Lower(s: string): (r: string)
    ensures |r| == |s| && forall i :: 0 <= i < |s| ==> r[i] == LowerChar(s[i])
  {
    seq(|s|, i requires 0 <= i < |s| => LowerChar(s[i]))
  }

  function Upper(s: string): (r: string)
    ensures |r| == |s| && forall i :: 0 <= i < |s| ==> r[i] == UpperChar(s[i])
  {
    seq(|s|, i requires 0 <= i < |s| => UpperChar(s[i]))
  }

  /** Lower-casing twice is lower-casing once. */
  lemma LowerIdempotent(s: string)
    ensures Lower(Lower(s)) == Lower(s)
  {
  }

  // ---------------------------------------------------------------------------
  // Whitespace and trimming

  /** The characters JavaScript's `String.prototype.trim` and a regular expression `\s` treat as white space. */
  predicate IsSpace(c: char) {
    c == ' ' || c == '\t' || c == '\n' || c == '\r' || c == '\U{000B}' || c == '\U{000C}'
    || c == '\U{00A0}' || c == '\U{1680}' || ('\U{2000}' <= c <= '\U{200A}')
    || c == '\U{2028}' || c == '\U{2029}' || c == '\U{202F}' || c == '\U{205F}'
    || c == '\U{3000}' || c == '\U{FEFF}'
  }

  function TrimStart(s: string): (r: string)
    ensures |r| <= |s| && r == s[|s| - |r|..]
    ensures r == [] || !IsSpace(r[0])
    ensures forall i :: 0 <= i < |s| - |r| ==> IsSpace(s[i])
  {
    if s != [] && IsSpace(s[0]) then TrimStart(s[1..]) else s
  }

  function TrimEnd(s: string): (r: string)
    ensures |r| <= |s| && r == s[..|r|]
    ensures r == [] || !IsSpace(r[|r| - 1])
    ensures forall i :: |r| <= i < |s| ==> IsSpace(s[i])
  {
    if s != [] && IsSpace(s[|s| - 1]) then TrimEnd(s[..|s| - 1]) else s
  }

  /** `s.trim()`: the longest slice of `s` with no white space at either end. */
  function Trim(s: string): (r: string)
    ensures |r| <= |s|
    ensures r == [] || (!IsSpace(r[0]) && !IsSpace(r[|r| - 1]))
    ensures Contains(s, r)
  {
    var t := TrimStart(s);
    var r := TrimEnd(t);
    assert r == s[|s| - |t|..|s| - |t| + |r|];
    ContainsAt(s, r, |s| - |t|);
    r
  }

  /**
   * A Unicode letter or number (`\p{L}`, `\p{N}`), approximated by ASCII
   * letters and digits, Latin-1 letters, hiragana, katakana, CJK ideographs
   * and the full-width forms.
   */
  predicate IsLetterOrNumber(c: char) {
    ('a' <= c <= 'z') || ('A' <= c <= 'Z') || ('0' <= c <= '9')
    || ('\U{00C0}' <= c <= '\U{00FF}' && c != '\U{00D7}' && c != '\U{00F7}')
    || ('\U{3041}' <= c <= '\U{3096}') || ('\U{30A1}' <= c <= '\U{30FA}') || c == '\U{30FC}'
    || ('\U{4E00}' <= c <= '\U{9FFF}')
    || ('\U{FF10}' <= c <= '\U{FF19}') || ('\U{FF21}' <= c <= '\U{FF3A}') || ('\U{FF41}' <= c <= '\U{FF5A}')
    || ('\U{FF66}' <= c <= '\U{FF9D}')
  }

  predicate IsBlank(s: string) {
    forall i :: 0 <= i < |s| ==> IsSpace(s[i])
  }

  /** Trimming leaves nothing exactly when the string is all white space. */
  lemma TrimEmptyIffBlank(s: string)
    ensures Trim(s) == [] <==> IsBlank(s)
  {
    var t := TrimStart(s);
    var r := Trim(s);
    if r != [] {
      var k := ContainsWitness(s, r);
      assert r[0] == s[k];
    } else {
      assert t == [];
    }
  }

  // ---------------------------------------------------------------------------
  // Order-preserving de-duplication (`[...new Set(xs)]`)

  predicate NoDup<T(==)>(s: seq<T>) {
    forall i, j :: 0 <= i < j < |s| ==> s[i] != s[j]
  }

  /** Without duplicates, a list has as many elements as its set. */
  lemma {:induction false} NoDupSetSize<T>(s: seq<T>)
    requires NoDup(s)
    ensures |set x | x in s| == |s|
  {
    if s != [] {
      var p := s[..|s| - 1];
      NoDupSetSize(p);
      assert s[|s| - 1] !in p;
      assert (set x | x in s) == (set x | x in p) + {s[|s| - 1]} by {
        assert s == p + [s[|s| - 1]];
      }
    }
  }

  /** Keeps the first occurrence of each element, in order. */
  function Dedup<T(==)>(s: seq<T>): (r: seq<T>)
    ensures NoDup(r)
    ensures forall i :: 0 <= i < |r| ==> r[i] in s
    ensures forall i :: 0 <= i < |s| ==> s[i] in r
    ensures |r| <= |s|
  {
    if s == [] then []
    else
      var r := Dedup(s[..|s| - 1]);
      if s[|s| - 1] in r then r else r + [s[|s| - 1]]
  }

  /** De-duplication keeps exactly the members. */
  lemma DedupMembers<T>(s: seq<T>, x: T)
    ensures x in Dedup(s) <==> x in s
  {
    var r := Dedup(s);
    if x in r {
      var i :| 0 <= i < |r| && r[i] == x;
    }
    if x in s {
      var i :| 0 <= i < |s| && s[i] == x;
    }
  }

  /** A list that already has no duplicates is left as it is. */
  lemma {:induction false} DedupOfNoDup<T>(s: seq<T>)
    requires NoDup(s)
    ensures Dedup(s) == s
  {
    if s != [] {
      var p := s[..|s| - 1];
      assert NoDup(p);
      DedupOfNoDup(p);
      assert s[|s| - 1] !in p;
      assert p + [s[|s| - 1]] == s;
    }
  }

  /** One more element: kept iff it is new. */
  lemma DedupSnoc<T>(p: seq<T>, x: T)
    ensures Dedup(p + [x]) == if x in Dedup(p) then Dedup(p) else Dedup(p) + [x]
  {
    assert (p + [x])[..|p|] == p;
  }

  /** De-duplicating a concatenation: the second part only adds what the first lacks. */
  lemma {:induction false} DedupPrefix<T>(s: seq<T>, t: seq<T>)
    ensures Dedup(s) <= Dedup(s + t)
    decreases |t|
  {
    if t == [] {
      assert s + t == s;
    } else {
      var p, x := s + t[..|t| - 1], t[|t| - 1];
      assert s + t == p + [x];
      DedupPrefix(s, t[..|t| - 1]);
      DedupSnoc(p, x);
    }
  }

  /** The first element of the input is the first element of the output. */
  lemma {:induction false} DedupHead<T>(s: seq<T>)
    requires s != []
    ensures Dedup(s) != [] && Dedup(s)[0] == s[0]
  {
    DedupPrefix([s[0]], s[1..]);
    assert [s[0]] + s[1..] == s;
    assert Dedup([s[0]]) == [s[0]] by {
      assert [s[0]][..0] == [];
    }
  }

  // ---------------------------------------------------------------------------
  // Selecting options in a list (`filter`, the check-box toggles of the forms)

  /** `s.filter(y => y !== x)`. */
  function Without<T(==,!new)>(s: seq<T>, x: T): (r: seq<T>)
    ensures forall y :: y in r <==> y in s && y != x
    ensures |r| <= |s|
    decreases |s|
  {
    if |s| == 0 then []
    else if s[0] == x then Without(s[1..], x)
    else [s[0]] + Without(s[1..], x)
  }

  /** Filtering out a value that is absent leaves the list as it is. */
  lemma {:induction false} WithoutAbsent<T(!new)>(s: seq<T>, x: T)
    requires x !in s
    ensures Without(s, x) == s
    decreases |s|
  {
    if |s| > 0 {
      WithoutAbsent(s[1..], x);
      assert [s[0]] + s[1..] == s;
    }
  }

  /** Filtering keeps a list without repeats without repeats. */
  lemma {:induction false} WithoutNoDup<T(!new)>(s: seq<T>, x: T)
    requires NoDup(s)
    ensures NoDup(Without(s, x))
    decreases |s|
  {
    if |s| > 0 {
      assert NoDup(s[1..]);
      WithoutNoDup(s[1..], x);
      var w := Without(s[1..], x);
      assert s[0] !in s[1..];
      assert s[0] !in w;
    }
  }

  /**
   * `s.includes(x) ? s.filter(y => y !== x) : [...s, x]`: a check box over a
   * list of selected options. The option changes side and the others stay.
   */
  function Flip<T(==,!new)>(s: seq<T>, x: T): (r: seq<T>)
    ensures x in r <==> x !in s
    ensures forall y :: y != x ==> (y in r <==> y in s)
    ensures x !in s ==> r == s + [x]
    ensures x in s ==> r == Without(s, x)
  {
    if x in s then Without(s, x) else s + [x]
  }

  /** Selecting an option and deselecting it again gives back the list; a list without repeats keeps none. */
  lemma FlipSpec<T(!new)>(s: seq<T>, x: T)
    ensures x !in s ==> Flip(Flip(s, x), x) == s
    ensures NoDup(s) ==> NoDup(Flip(s, x))
  {
    if x !in s {
      assert Flip(s, x) == s + [x];
      WithoutAbsent(s, x);
      WithoutAppend(s, [x], x);
      assert Without([x], x) == [];
    }
    if NoDup(s) {
      if x in s {
        WithoutNoDup(s, x);
      }
    }
  }

  /** Filtering a concatenation filters each part. */
  lemma {:induction false} WithoutAppend<T(!new)>(a: seq<T>, b: seq<T>, x: T)
    ensures Without(a + b, x) == Without(a, x) + Without(b, x)
    decreases |a|
  {
    if |a| == 0 {
      assert a + b == b;
    } else {
      assert (a + b)[0] == a[0];
      assert (a + b)[1..] == a[1..] + b;
      WithoutAppend(a[1..], b, x);
    }
  }

  /**
   * The plan toggles of the onboarding forms: choosing `none` ("nothing
   * planned") clears every other choice; choosing anything else drops `none`
   * and flips that choice.
   */
  function ToggleWithNone<T(==,!new)>(s: seq<T>, x: T, none: T): (r: seq<T>)
    ensures x == none ==> r == [none]
    ensures x != none ==> none !in r && (x in r <==> x !in s)
    ensures x != none ==> forall y :: y != x && y != none ==> (y in r <==> y in s)
  {
    if x == none then [none] else Flip(Without(s, none), x)
  }

  /** `none` is chosen alone or not at all. */
  predicate NoneAlone<T(==,!new)>(s: seq<T>, none: T) {
    none in s ==> s == [none]
  }

  /**
   * The toggle keeps `none` alone and the list without repeats, and selecting
   * then deselecting another option on a list without `none` gives it back.
   */
  lemma ToggleWithNoneSpec<T(!new)>(s: seq<T>, x: T, none: T)
    ensures NoneAlone(ToggleWithNone(s, x, none), none)
    ensures NoDup(s) ==> NoDup(ToggleWithNone(s, x, none))
    ensures x != none && none !in s && x !in s ==> ToggleWithNone(ToggleWithNone(s, x, none), x, none) == s
  {
    if x != none {
      var w := Without(s, none);
      if NoDup(s) {
        WithoutNoDup(s, none);
        FlipSpec(w, x);
      }
      if none !in s && x !in s {
        WithoutAbsent(s, none);
        var once := Flip(s, x);
        assert none !in once;
        WithoutAbsent(once, none);
        FlipSpec(s, x);
      }
    }
  }

  // ---------------------------------------------------------------------------
  // Joining and rendering

  /** `parts.join(sep)` / `sep.join(parts)`. */
  function Join(parts: seq<string>, sep: string): (r: string)
    ensures parts == [] ==> r == ""
    ensures |parts| == 1 ==> r == parts[0]
  {
    if parts == [] then ""
    else if |parts| == 1 then parts[0]
    else parts[0] + sep + Join(parts[1..], sep)
  }

  /** `s.indexOf(x)`: the first index holding `x`, or -1. */
  function IndexOf<T(==)>(s: seq<T>, x: T): (r: int)
    ensures -1 <= r < |s|
    ensures r == -1 <==> x !in s
    ensures r >= 0 ==> s[r] == x && x !in s[..r]
  {
    if s == [] then -1
    else if s[0] == x then 0
    else
      var r := IndexOf(s[1..], x);
      if r == -1 then -1
      else
        assert s[..r + 1] == [s[0]] + s[1..][..r];
        r + 1
  }

  /** `s.split(sep)` for a one-character separator. */
  function Split(s: string, sep: char): (r: seq<string>)
    ensures |r| >= 1
    ensures forall i :: 0 <= i < |r| ==> sep !in r[i]
    ensures Join(r, [sep]) == s
    decreases |s|
  {
    var i := IndexOf(s, sep);
    if i == -1 then [s]
    else
      var rest := Split(s[i + 1..], sep);
      var r := [s[..i]] + rest;
      assert r[1..] == rest;
      assert Join(r, [sep]) == s[..i] + [sep] + Join(rest, [sep]);
      assert s == s[..i] + [sep] + s[i + 1..];
      r
  }

  /** The first `x` in `a + [x] + b` is the one after `a` when `a` holds none. */
  lemma {:induction false} IndexOfAfter<T>(a: seq<T>, x: T, b: seq<T>)
    requires x !in a
    ensures IndexOf(a + [x] + b, x) == |a|
    decreases |a|
  {
    var s := a + [x] + b;
    if a == [] {
      assert s[0] == x;
    } else {
      assert s[0] == a[0] && a[0] != x;
      assert s[1..] == a[1..] + [x] + b;
      assert x !in a[1..];
      IndexOfAfter(a[1..], x, b);
    }
  }

  /** A separator after a field without one ends that field. */
  lemma SplitStep(a: string, sep: char, b: string)
    requires sep !in a
    ensures Split(a + [sep] + b, sep) == [a] + Split(b, sep)
  {
    var s := a + [sep] + b;
    IndexOfAfter(a, sep, b);
    assert s[..|a|] == a;
    assert s[|a| + 1..] == b;
  }

  /** Four fields with separators, regrouped from the right. */
  lemma RegroupFour(a: string, b: string, c: string, d: string, sep: char)
    ensures a + [sep] + b + [sep] + c + [sep] + d == a + [sep] + (b + [sep] + (c + [sep] + d))
  {
  }

  lemma ListFour<T>(a: T, b: T, c: T, d: T)
    ensures [a] + ([b] + ([c] + [d])) == [a, b, c, d]
  {
  }

  /** Splitting four fields joined by a separator none of them holds gives the four fields back. */
  lemma SplitFour(a: string, b: string, c: string, d: string, sep: char)
    requires sep !in a && sep !in b && sep !in c && sep !in d
    ensures Split(a + [sep] + b + [sep] + c + [sep] + d, sep) == [a, b, c, d]
  {
    assert IndexOf(d, sep) == -1;
    SplitStep(c, sep, d);
    SplitStep(b, sep, c + [sep] + d);
    SplitStep(a, sep, b + [sep] + (c + [sep] + d));
    ListFour(a, b, c, d);
    RegroupFour(a, b, c, d, sep);
  }

  function DigitChar(d: nat): char
    requires d < 10
  {
    ['0', '1', '2', '3', '4', '5', '6', '7', '8', '9'][d]
  }

  predicate IsDigit(c: char) {
    '0' <= c <= '9'
  }

  /** Decimal rendering of a natural number, without leading zeros. */
  function NatToString(n: nat): (r: string)
    ensures |r| >= 1
    ensures forall i :: 0 <= i < |r| ==> IsDigit(r[i])
  {
    if n < 10 then [DigitChar(n)] else NatToString(n / 10) + [DigitChar(n % 10)]
  }

  /** `String(n)` / `str(n)` for an integer. */
  function IntToString(n: int): string {
    if n < 0 then "-" + NatToString(-n) else NatToString(n)
  }

  function HexDigitLower(d: nat): char
    requires d < 16
  {
    "0123456789abcdef"[d]
  }

  function HexDigitUpper(d: nat): char
    requires d < 16
  {
    "0123456789ABCDEF"[d]
  }

  predicate IsLowerHex(c: char) {
    ('0' <= c <= '9') || ('a' <= c <= 'f')
  }

  predicate IsUpperHex(c: char) {
    ('0' <= c <= '9') || ('A' <= c <= 'F')
  }

  /** Two lower-case hexadecimal digits of a byte (`toString(16).padStart(2, '0')`). */
  function ByteHexLower(b: nat): (r: string)
    requires b < 256
    ensures |r| == 2 && IsLowerHex(r[0]) && IsLowerHex(r[1])
  {
    [HexDigitLower(b / 16), HexDigitLower(b % 16)]
  }

  function ByteHexUpper(b: nat): (r: string)
    requires b < 256
    ensures |r| == 2 && IsUpperHex(r[0]) && IsUpperHex(r[1])
  {
    [HexDigitUpper(b / 16), HexDigitUpper(b % 16)]
  }

  function Min(a: int, b: int): int { if a <= b then a else b }
  function Max(a: int, b: int): int { if a >= b then a else b }

  // ---------------------------------------------------------------------------
  // Association lists (JavaScript `Record`/`Map` lookups, in insertion order)

  /** The keys of an association list, in order. */
  function KeysOf<V>(t: seq<(string, V)>): (r: seq<string>)
    ensures |r| == |t| && forall i :: 0 <= i < |t| ==> r[i] == t[i].0
  {
    seq(|t|, i requires 0 <= i < |t| => t[i].0)
  }

  lemma KeysOfAppend<V>(a: seq<(string, V)>, b: seq<(string, V)>)
    ensures KeysOf(a + b) == KeysOf(a) + KeysOf(b)
  {
  }

  /** `record[key]`: the value of the first entry with that key. */
  function Get<V(==)>(t: seq<(string, V)>, key: string): (r: Option<V>)
    ensures r.Some? <==> key in KeysOf(t)
  {
    if t == [] then None
    else if t[0].0 == key then Some(t[0].1)
    else
      assert KeysOf(t) == [t[0].0] + KeysOf(t[1..]);
      Get(t[1..], key)
  }

  /** The value found is the one of the first entry with the key. */
  lemma {:induction false} GetFirst<V>(t: seq<(string, V)>, key: string)
    requires Get(t, key).Some?
    ensures exists i :: 0 <= i < |t| && t[i] == (key, Get(t, key).value) && forall j :: 0 <= j < i ==> t[j].0 != key
  {
    if t[0].0 != key {
      var r := Get(t[1..], key);
      GetFirst(t[1..], key);
      var i :| 0 <= i < |t[1..]| && t[1..][i] == (key, r.value) && forall j :: 0 <= j < i ==> t[1..][j].0 != key;
      assert t[i + 1] == (key, r.value);
      forall j | 0 <= j < i + 1
        ensures t[j].0 != key
      {
        if j > 0 {
          assert t[j] == t[1..][j - 1];
        }
      }
    } else {
      assert t[0] == (key, Get(t, key).value);
    }
  }

  // ---------------------------------------------------------------------------
  // Dynamically typed JSON values, as a request body or a stored record holds them

  /**
   * A JavaScript value as parsed from JSON (numbers are integers here; see
   * README "Left out"). Objects keep their keys in insertion order.
   */
  datatype Js =
    | JUndefined
    | JNull
    | JBool(b: bool)
    | JNum(n: int)
    | JStr(s: string)
    | JArr(items: seq<Js>)
    | JObj(fields: seq<(string, Js)>)

  /** JavaScript truthiness. */
  predicate Truthy(v: Js) {
    match v
    case JUndefined => false
    case JNull => false
    case JBool(b) => b
    case JNum(n) => n != 0
    case JStr(s) => s != ""
    case _ => true
  }

  /** `obj.key`: `undefined` when absent or when `obj` is not an object. */
  function Prop(v: Js, key: string): Js {
    if v.JObj? then Get(v.fields, key).GetOr(JUndefined) else JUndefined
  }

  /** V8's message for reading property `key` of `null` or `undefined`. */
  function NullAccessMessage(v: Js, key: string): string {
    "Cannot read properties of " + (if v == JNull then "null" else "undefined") + " (reading '" + key + "')"
  }

  /** `obj.key` where `obj` may be `null` or `undefined`: that access throws a TypeError. */
  function StrictProp(v: Js, key: string): Result<Js> {
    if v == JNull || v == JUndefined then Err(NullAccessMessage(v, key)) else Ok(Prop(v, key))
  }

  /** `a || b`. */
  function Or(a: Js, b: Js): Js {
    if Truthy(a) then a else b
  }

  /** `String(v)` for the values this model stringifies. */
  function JsString(v: Js): string
    decreases v, 0
  {
    match v
    case JUndefined => "undefined"
    case JNull => "null"
    case JBool(b) => if b then "true" else "false"
    case JNum(n) => IntToString(n)
    case JStr(s) => s
    case JArr(items) => Join(seq(|items|, i requires 0 <= i < |items| => ElementString(items[i])), ",")
    case JObj(_) => "[object Object]"
  }

  /** An array element inside `String(array)`: `null` and `undefined` render as "". */
  function ElementString(v: Js): string
    decreases v, 1
  {
    if v == JUndefined || v == JNull then "" else JsString(v)
  }

  // ---------------------------------------------------------------------------
  // Percent-encoding

  /** The UTF-8 bytes of one character. */
  function Utf8(c: char): (r: seq<nat>)
    ensures 1 <= |r| <= 4 && forall i :: 0 <= i < |r| ==> r[i] < 256
  {
    var n := c as int;
    if n < 0x80 then [n]
    else if n < 0x800 then [0xC0 + n / 64, 0x80 + n % 64]
    else if n < 0x10000 then [0xE0 + n / 4096, 0x80 + (n / 64) % 64, 0x80 + n % 64]
    else [0xF0 + n / 262144, 0x80 + (n / 4096) % 64, 0x80 + (n / 64) % 64, 0x80 + n % 64]
  }

  /** `%XX` for each byte, upper-case hexadecimal. */
  function PercentBytes(bs: seq<nat>): (r: string)
    requires forall i :: 0 <= i < |bs| ==> bs[i] < 256
    ensures |r| == 3 * |bs|
    ensures forall i :: 0 <= i < |r| ==> r[i] == '%' || IsUpperHex(r[i])
  {
    if bs == [] then "" else "%" + ByteHexUpper(bs[0]) + PercentBytes(bs[1..])
  }

  // ---------------------------------------------------------------------------
  // Objects as entry lists

  /** `obj[key] = value`: an existing key keeps its place and takes the value, a new key is appended. */
  function Put<V(==)>(rec: seq<(string, V)>, key: string, value: V): (r: seq<(string, V)>)
    ensures Get(r, key) == Some(value)
    ensures forall k :: k != key ==> Get(r, k) == Get(rec, k)
    ensures key in KeysOf(rec) ==> KeysOf(r) == KeysOf(rec)
    ensures key !in KeysOf(rec) ==> KeysOf(r) == KeysOf(rec) + [key]
    decreases |rec|
  {
    if rec == [] then [(key, value)]
    else if rec[0].0 == key then
      PutHere(rec, key, value);
      [(key, value)] + rec[1..]
    else
      var t := Put(rec[1..], key, value);
      PutFurther(rec, key, value, t);
      [rec[0]] + t
  }

  /** A lookup in a list with a first entry: that entry, or a lookup in the rest. */
  lemma GetCons<V>(h: (string, V), t: seq<(string, V)>, k: string)
    ensures Get([h] + t, k) == if h.0 == k then Some(h.1) else Get(t, k)
    ensures KeysOf([h] + t) == [h.0] + KeysOf(t)
  {
    var s := [h] + t;
    assert s[0] == h && s[1..] == t;
    assert KeysOf(s) == [h.0] + KeysOf(t) by {
      forall i | 0 <= i < |s|
        ensures KeysOf(s)[i] == ([h.0] + KeysOf(t))[i]
      {
        if i > 0 {
          assert s[i] == t[i - 1];
        }
      }
    }
  }

  lemma PutHere<V>(rec: seq<(string, V)>, key: string, value: V)
    requires rec != [] && rec[0].0 == key
    ensures Get([(key, value)] + rec[1..], key) == Some(value)
    ensures forall k :: k != key ==> Get([(key, value)] + rec[1..], k) == Get(rec, k)
    ensures KeysOf([(key, value)] + rec[1..]) == KeysOf(rec)
  {
    assert rec == [rec[0]] + rec[1..];
    GetCons((key, value), rec[1..], key);
    forall k | k != key
      ensures Get([(key, value)] + rec[1..], k) == Get(rec, k)
    {
      GetCons((key, value), rec[1..], k);
      GetCons(rec[0], rec[1..], k);
    }
    GetCons(rec[0], rec[1..], key);
  }

  lemma PutFurther<V>(rec: seq<(string, V)>, key: string, value: V, t: seq<(string, V)>)
    requires rec != [] && rec[0].0 != key
    requires Get(t, key) == Some(value)
    requires forall k :: k != key ==> Get(t, k) == Get(rec[1..], k)
    requires key in KeysOf(rec[1..]) ==> KeysOf(t) == KeysOf(rec[1..])
    requires key !in KeysOf(rec[1..]) ==> KeysOf(t) == KeysOf(rec[1..]) + [key]
    ensures Get([rec[0]] + t, key) == Some(value)
    ensures forall k :: k != key ==> Get([rec[0]] + t, k) == Get(rec, k)
    ensures key in KeysOf(rec) ==> KeysOf([rec[0]] + t) == KeysOf(rec)
    ensures key !in KeysOf(rec) ==> KeysOf([rec[0]] + t) == KeysOf(rec) + [key]
  {
    assert rec == [rec[0]] + rec[1..];
    GetCons(rec[0], t, key);
    GetCons(rec[0], rec[1..], key);
    forall k | k != key
      ensures Get([rec[0]] + t, k) == Get(rec, k)
    {
      GetCons(rec[0], t, k);
      GetCons(rec[0], rec[1..], k);
    }
  }
}
