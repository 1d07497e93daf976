/**
 * Form-input validation: e-mail format, password strength scoring, name
 * checks, HTML escaping and the strength label/colour lookups.
 */
module Validation {
  import opened Common

  datatype ValidationResult = ValidationResult(isValid: bool, error: Option<string>)

  const EmailRequired: string := "メールアドレスを入力してください"
  const EmailTooLong: string := "メールアドレスが長すぎます"
  const EmailInvalid: string := "有効なメールアドレスを入力してください"

  // ---------------------------------------------------------------------------
  // E-mail (a simplified addr-spec of RFC 5322 section 3.4.1)

  predicate AsciiAlnum(c: char) {
    ('a' <= c <= 'z') || ('A' <= c <= 'Z') || ('0' <= c <= '9')
  }

  /** The characters allowed before the `@`. */
  predicate LocalChar(c: char) {
    AsciiAlnum(c) || c in ".!#$%&'*+/=?^_`{|}~-"
  }

  /** One domain label: 1 to 63 letters, digits or hyphens, starting and ending with a letter or digit. */
  predicate Label(s: string) {
    1 <= |s| <= 63 && AsciiAlnum(s[0]) && AsciiAlnum(s[|s| - 1])
    && forall i :: 0 <= i < |s| ==> AsciiAlnum(s[i]) || s[i] == '-'
  }

  /** Labels separated by single dots. */
  predicate Domain(d: string)
    decreases |d|
  {
    var j := IndexOf(d, '.');
    if j == -1 then Label(d) else Label(d[..j]) && Domain(d[j + 1..])
  }

  /** The e-mail pattern: a non-empty local part, one `@`, a domain. */
  predicate EmailPattern(s: string) {
    var at := IndexOf(s, '@');
    at > 0 && (forall i :: 0 <= i < at ==> LocalChar(s[i])) && Domain(s[at + 1..])
  }

  lemma {:induction false} DomainHasNoAt(d: string)
    requires Domain(d)
    ensures '@' !in d && d != [] && d[0] != '.' && d[0] != '-' && d[|d| - 1] != '.' && d[|d| - 1] != '-'
    decreases |d|
  {
    var j := IndexOf(d, '.');
    if j != -1 {
      DomainHasNoAt(d[j + 1..]);
      assert d == d[..j] + [d[j]] + d[j + 1..];
    }
  }

  /**
   * A matching address holds exactly one `@`, with a non-empty local part
   * before it and a domain that neither starts nor ends with `.` or `-`.
   */
  lemma EmailPatternShape(s: string)
    requires EmailPattern(s)
    ensures var at := IndexOf(s, '@');
      && 0 < at < |s| - 1
      && '@' !in s[..at] && '@' !in s[at + 1..]
      && s[at + 1] != '.' && s[|s| - 1] != '.' && s[|s| - 1] != '-'
  {
    var at := IndexOf(s, '@');
    DomainHasNoAt(s[at + 1..]);
  }

  /** `validateEmail`: blank after trimming, then longer than 254, then the pattern — the first failure is reported. */
  function ValidateEmail(email: string): (r: ValidationResult)
    ensures r.isValid <==> r.error == None
    ensures r.error == Some(EmailRequired) <==> IsBlank(email)
    ensures r.error == Some(EmailTooLong) <==> !IsBlank(email) && |Trim(email)| > 254
    ensures r.error == Some(EmailInvalid) <==> !IsBlank(email) && |Trim(email)| <= 254 && !EmailPattern(Trim(email))
    ensures r.isValid ==> EmailPattern(Trim(email)) && |Trim(email)| <= 254
  {
    TrimEmptyIffBlank(email);
    var trimmed := Trim(email);
    if trimmed == "" then ValidationResult(false, Some(EmailRequired))
    else if |trimmed| > 254 then ValidationResult(false, Some(EmailTooLong))
    else if !EmailPattern(trimmed) then ValidationResult(false, Some(EmailInvalid))
    else ValidationResult(true, None)
  }

  // ---------------------------------------------------------------------------
  // Password strength

  datatype PasswordStrength = PasswordStrength(score: int, feedback: seq<string>, isValid: bool)

  const CommonPasswords: set<string> := {
    "password", "password123", "12345678", "123456789", "qwerty123",
    "abc12345", "password1", "iloveyou", "admin123", "welcome1",
    "letmein", "monkey", "dragon", "master", "qwertyuiop"
  }

  const TooShort: string := "12文字以上にしてください"
  const NeedUpper: string := "大文字を含めてください"
  const NeedLower: string := "小文字を含めてください"
  const NeedDigit: string := "数字を含めてください"
  const NeedSymbol: string := "記号を含めてください"
  const AvoidCommon: string := "よく使われるパスワードは避けてください"
  const AvoidRepeats: string := "同じ文字の連続を避けてください"

  /** The symbol class of the special-character check. */
  predicate SymbolChar(c: char) {
    c in "!@#$%^&*(),.?\":{}|<>[]\\;'`~_+=-"
  }

  /** Characters a regular expression `.` does not match. */
  predicate LineTerminator(c: char) {
    c == '\n' || c == '\r' || c == '\U{2028}' || c == '\U{2029}'
  }

  predicate HasUpper(p: string) { exists i :: 0 <= i < |p| && 'A' <= p[i] <= 'Z' }
  predicate HasLower(p: string) { exists i :: 0 <= i < |p| && 'a' <= p[i] <= 'z' }
  predicate HasDigit(p: string) { exists i :: 0 <= i < |p| && '0' <= p[i] <= '9' }
  predicate HasSymbol(p: string) { exists i :: 0 <= i < |p| && SymbolChar(p[i]) }

  /** `(.)\1{2,}`: some character other than a line terminator three times in a row. */
  predicate HasTriple(p: string) {
    exists i :: 0 <= i < |p| - 2 && p[i] == p[i + 1] && p[i + 1] == p[i + 2] && !LineTerminator(p[i])
  }

  predicate IsCommon(p: string) {
    Lower(p) in CommonPasswords
  }

  /** The outcome of each check `validatePassword` makes, in order. */
  datatype Checks = Checks(long: bool, upper: bool, lower: bool, digit: bool, symbol: bool, common: bool, triple: bool)

  function ChecksOf(p: string): Checks {
    Checks(|p| >= 12, HasUpper(p), HasLower(p), HasDigit(p), HasSymbol(p), IsCommon(p), HasTriple(p))
  }

  function B(b: bool): int { if b then 1 else 0 }

  /** The number of the five class/length checks that pass. */
  function RawScore(c: Checks): (r: int)
    ensures 0 <= r <= 5
  {
    B(c.long) + B(c.upper) + B(c.lower) + B(c.digit) + B(c.symbol)
  }

  /** The raw score after the common-password (-2) and repeated-character (-1) penalties, each floored at 0. */
  function PenalisedScore(c: Checks): (r: int)
    ensures 0 <= r <= RawScore(c)
    ensures c.common ==> r <= 3
  {
    var s := RawScore(c);
    var s := if c.common then Max(0, s - 2) else s;
    if c.triple then Max(0, s - 1) else s
  }

  /** `min(4, floor(0.8 * s))`; for the integer scores 0..5 the product is exact. */
  function Normalised(s: int): int {
    Min(4, (8 * s) / 10)
  }

  /** The messages of the five class/length checks that fail. */
  function CheckFeedback(c: Checks): (r: seq<string>)
    ensures |r| == 5 - RawScore(c)
  {
    (if c.long then [] else [TooShort])
    + (if c.upper then [] else [NeedUpper])
    + (if c.lower then [] else [NeedLower])
    + (if c.digit then [] else [NeedDigit])
    + (if c.symbol then [] else [NeedSymbol])
  }

  /** The messages for the failed checks and penalties, in the order they are checked. */
  function Feedback(c: Checks): seq<string> {
    CheckFeedback(c)
    + (if c.common then [AvoidCommon] else [])
    + (if c.triple then [AvoidRepeats] else [])
  }

  /** One class/length check: a point when it passes, its message when it fails. */
  method Check(score: int, feedback: seq<string>, passed: bool, message: string) returns (score': int, feedback': seq<string>)
    ensures score' == score + B(passed)
    ensures feedback' == feedback + (if passed then [] else [message])
  {
    if passed {
      score', feedback' := score + 1, feedback;
    } else {
      score', feedback' := score, feedback + [message];
    }
  }

  /** `validatePassword`: the checks are made, then scored and explained. */
  method ValidatePassword(password: string) returns (r: PasswordStrength)
    ensures r.score == Normalised(PenalisedScore(ChecksOf(password)))
    ensures r.feedback == Feedback(ChecksOf(password))
    ensures r.isValid <==> r.score >= 3 && |password| >= 12
  {
    r := ScoreChecks(ChecksOf(password), |password|);
  }

  /** The five class/length checks, in order. */
  method ClassChecks(c: Checks) returns (score: int, feedback: seq<string>)
    ensures score == RawScore(c)
    ensures feedback == CheckFeedback(c)
  {
    score, feedback := 0, [];
    score, feedback := Check(score, feedback, c.long, TooShort);
    score, feedback := Check(score, feedback, c.upper, NeedUpper);
    score, feedback := Check(score, feedback, c.lower, NeedLower);
    score, feedback := Check(score, feedback, c.digit, NeedDigit);
    score, feedback := Check(score, feedback, c.symbol, NeedSymbol);
  }

  /** The body of `validatePassword`: the score and the feedback accumulated check by check. */
  method ScoreChecks(c: Checks, length: nat) returns (r: PasswordStrength)
    ensures r.score == Normalised(PenalisedScore(c))
    ensures r.feedback == Feedback(c)
    ensures r.isValid <==> r.score >= 3 && length >= 12
  {
    var score, feedback := ClassChecks(c);
    if c.common {
      score := Max(0, score - 2);
      feedback := feedback + [AvoidCommon];
    }
    if c.triple {
      score := Max(0, score - 1);
      feedback := feedback + [AvoidRepeats];
    }
    var normalizedScore := Normalised(score);
    r := PasswordStrength(normalizedScore, feedback, normalizedScore >= 3 && length >= 12);
  }

  /**
   * The score lies in 0..4; every failed check adds one message; a valid
   * password passes at least four of the five checks, is at least 12
   * characters long and is not a common password.
   */
  lemma PasswordStrengthSpec(p: string)
    ensures var c := ChecksOf(p);
      && 0 <= Normalised(PenalisedScore(c)) <= 4
      && |Feedback(c)| == (5 - RawScore(c)) + B(IsCommon(p)) + B(HasTriple(p))
      && (Normalised(PenalisedScore(c)) >= 3 && |p| >= 12 ==> RawScore(c) >= 4 && !IsCommon(p))
  {
  }

  /** A password of all five classes, no common word and no repeats reaches the top score. */
  lemma StrongPasswordScoresFour(p: string)
    requires |p| >= 12 && HasUpper(p) && HasLower(p) && HasDigit(p) && HasSymbol(p)
    requires !IsCommon(p) && !HasTriple(p)
    ensures Normalised(PenalisedScore(ChecksOf(p))) == 4
  {
  }

  /** Three failed classes, or a common password, keep a password below the valid threshold. */
  lemma WeakPasswordInvalid(p: string)
    requires RawScore(ChecksOf(p)) <= 3 || IsCommon(p)
    ensures Normalised(PenalisedScore(ChecksOf(p))) < 3
  {
  }

  // ---------------------------------------------------------------------------
  // Names

  const NameRequired: string := "名前を入力してください"
  const NameTooLong: string := "名前が長すぎます"
  const NameBadChar: string := "使用できない文字が含まれています"

  /** `[\p{L}\p{N}\s\-']`. */
  predicate NameChar(c: char) {
    IsLetterOrNumber(c) || IsSpace(c) || c == '-' || c == '\''
  }

  predicate NameChars(s: string) {
    forall i :: 0 <= i < |s| ==> NameChar(s[i])
  }

  /** `validateName`: blank, then longer than 100, then a character outside the name class. */
  function ValidateName(name: string): (r: ValidationResult)
    ensures r.isValid <==> r.error == None
    ensures r.isValid <==> !IsBlank(name) && |Trim(name)| <= 100 && NameChars(Trim(name))
    ensures r.error == Some(NameRequired) <==> IsBlank(name)
    ensures r.error == Some(NameTooLong) <==> !IsBlank(name) && |Trim(name)| > 100
  {
    TrimEmptyIffBlank(name);
    var trimmed := Trim(name);
    if trimmed == "" then ValidationResult(false, Some(NameRequired))
    else if |trimmed| < 1 then ValidationResult(false, Some(NameRequired))
    else if |trimmed| > 100 then ValidationResult(false, Some(NameTooLong))
    else if !NameChars(trimmed) then ValidationResult(false, Some(NameBadChar))
    else ValidationResult(true, None)
  }

  // ---------------------------------------------------------------------------
  // HTML escaping

  /** `s.replace(/c/g, rep)`. */
  function ReplaceAll(s: string, c: char, rep: string): string {
    if s == [] then "" else (if s[0] == c then rep else [s[0]]) + ReplaceAll(s[1..], c, rep)
  }

  /** The chain of five replacements of `sanitizeInput`, `&` first. */
  function Chain(s: string): string {
    ReplaceAll(ReplaceAll(ReplaceAll(ReplaceAll(ReplaceAll(s, '&', "&amp;"), '<', "&lt;"), '>', "&gt;"), '"', "&quot;"), '\'', "&#x27;")
  }

  /** `sanitizeInput`: the replacement chain, then trimming; no raw `<`, `>`, `"` or `'` is left. */
  function SanitizeInput(input: string): (r: string)
    ensures '<' !in r && '>' !in r && '"' !in r && '\'' !in r
  {
    var s := Chain(input);
    var r := Trim(s);
    ChainIsEscape(input);
    EscapeHasNoRaw(input);
    TrimKeepsAbsence(s, r);
    r
  }

  lemma TrimKeepsAbsence(s: string, r: string)
    requires r == Trim(s)
    ensures forall x :: x in r ==> x in s
  {
    var k := ContainsWitness(s, r);
    forall x | x in r ensures x in s {
      var i :| 0 <= i < |r| && r[i] == x;
      assert s[k + i] == x;
    }
  }

  /** The escape of one character, as an independent reference for the replacement chain. */
  function EscapeChar(c: char): string {
    if c == '&' then "&amp;" else if c == '<' then "&lt;" else if c == '>' then "&gt;"
    else if c == '"' then "&quot;" else if c == '\'' then "&#x27;" else [c]
  }

  function Escape(s: string): string {
    if s == [] then "" else EscapeChar(s[0]) + Escape(s[1..])
  }

  lemma EscapeCharNoRaw(c: char)
    ensures '<' !in EscapeChar(c) && '>' !in EscapeChar(c) && '"' !in EscapeChar(c) && '\'' !in EscapeChar(c)
  {
  }

  lemma {:induction false} EscapeHasNoRaw(s: string)
    ensures '<' !in Escape(s) && '>' !in Escape(s) && '"' !in Escape(s) && '\'' !in Escape(s)
  {
    if s != [] {
      assert Escape(s) == EscapeChar(s[0]) + Escape(s[1..]);
      EscapeCharNoRaw(s[0]);
      EscapeHasNoRaw(s[1..]);
    }
  }

  lemma {:induction false} ReplaceAllAppend(a: string, b: string, c: char, rep: string)
    ensures ReplaceAll(a + b, c, rep) == ReplaceAll(a, c, rep) + ReplaceAll(b, c, rep)
  {
    if a != [] {
      var head := if a[0] == c then rep else [a[0]];
      assert (a + b)[0] == a[0];
      assert (a + b)[1..] == a[1..] + b;
      ReplaceAllAppend(a[1..], b, c, rep);
      assert ReplaceAll(a + b, c, rep) == head + (ReplaceAll(a[1..], c, rep) + ReplaceAll(b, c, rep));
      assert ReplaceAll(a, c, rep) == head + ReplaceAll(a[1..], c, rep);
    } else {
      assert a + b == b;
    }
  }

  lemma {:induction false} ReplaceAllAbsent(s: string, c: char, rep: string)
    requires c !in s
    ensures ReplaceAll(s, c, rep) == s
  {
    if s != [] {
      ReplaceAllAbsent(s[1..], c, rep);
    }
  }

  lemma ReplaceAllSingle(x: char, c: char, rep: string)
    ensures ReplaceAll([x], c, rep) == if x == c then rep else [x]
  {
    assert [x][1..] == [];
  }

  lemma {:induction false} ChainAppend(a: string, b: string)
    ensures Chain(a + b) == Chain(a) + Chain(b)
  {
    ReplaceAllAppend(a, b, '&', "&amp;");
    var a1, b1 := ReplaceAll(a, '&', "&amp;"), ReplaceAll(b, '&', "&amp;");
    ReplaceAllAppend(a1, b1, '<', "&lt;");
    var a2, b2 := ReplaceAll(a1, '<', "&lt;"), ReplaceAll(b1, '<', "&lt;");
    ReplaceAllAppend(a2, b2, '>', "&gt;");
    var a3, b3 := ReplaceAll(a2, '>', "&gt;"), ReplaceAll(b2, '>', "&gt;");
    ReplaceAllAppend(a3, b3, '"', "&quot;");
    var a4, b4 := ReplaceAll(a3, '"', "&quot;"), ReplaceAll(b3, '"', "&quot;");
    ReplaceAllAppend(a4, b4, '\'', "&#x27;");
  }

  /** After its own replacement, a character's escape is left alone by the later ones. */
  lemma ChainChar(c: char)
    ensures Chain([c]) == EscapeChar(c)
  {
    if c == '&' { ChainAmp(); }
    else if c == '<' { ChainLt(); }
    else if c == '>' { ChainGt(); }
    else if c == '"' { ChainQuot(); }
    else { ChainOther(c); }
  }

  /** Text holding none of `< > " '` is left alone by the last four replacements. */
  lemma LaterReplacementsKeep(t: string)
    requires '<' !in t && '>' !in t && '"' !in t && '\'' !in t
    ensures ReplaceAll(ReplaceAll(ReplaceAll(ReplaceAll(t, '<', "&lt;"), '>', "&gt;"), '"', "&quot;"), '\'', "&#x27;") == t
  {
    ReplaceAllAbsent(t, '<', "&lt;");
    ReplaceAllAbsent(t, '>', "&gt;");
    ReplaceAllAbsent(t, '"', "&quot;");
    ReplaceAllAbsent(t, '\'', "&#x27;");
  }

  /** The replacements after the one for `<`, on text holding none of `> " '`. */
  lemma LastThreeKeep(t: string)
    requires '>' !in t && '"' !in t && '\'' !in t
    ensures ReplaceAll(ReplaceAll(ReplaceAll(t, '>', "&gt;"), '"', "&quot;"), '\'', "&#x27;") == t
  {
    ReplaceAllAbsent(t, '>', "&gt;");
    ReplaceAllAbsent(t, '"', "&quot;");
    ReplaceAllAbsent(t, '\'', "&#x27;");
  }

  lemma ChainAmp()
    ensures Chain("&") == "&amp;"
  {
    ReplaceAllSingle('&', '&', "&amp;");
    assert ReplaceAll("&", '&', "&amp;") == "&amp;";
    LaterReplacementsKeep("&amp;");
  }

  lemma ChainLt()
    ensures Chain("<") == "&lt;"
  {
    ReplaceAllSingle('<', '&', "&amp;");
    assert ReplaceAll("<", '&', "&amp;") == "<";
    ReplaceAllSingle('<', '<', "&lt;");
    assert ReplaceAll("<", '<', "&lt;") == "&lt;";
    LastThreeKeep("&lt;");
  }

  lemma ChainGt()
    ensures Chain(">") == "&gt;"
  {
    ReplaceAllSingle('>', '&', "&amp;");
    ReplaceAllSingle('>', '<', "&lt;");
    assert ReplaceAll(ReplaceAll(">", '&', "&amp;"), '<', "&lt;") == ">";
    ReplaceAllSingle('>', '>', "&gt;");
    assert ReplaceAll(">", '>', "&gt;") == "&gt;";
    ReplaceAllAbsent("&gt;", '"', "&quot;");
    ReplaceAllAbsent("&gt;", '\'', "&#x27;");
  }

  lemma ChainQuot()
    ensures Chain("\"") == "&quot;"
  {
    ReplaceAllSingle('"', '&', "&amp;");
    ReplaceAllSingle('"', '<', "&lt;");
    ReplaceAllSingle('"', '>', "&gt;");
    assert ReplaceAll(ReplaceAll(ReplaceAll("\"", '&', "&amp;"), '<', "&lt;"), '>', "&gt;") == "\"";
    ReplaceAllSingle('"', '"', "&quot;");
    assert ReplaceAll("\"", '"', "&quot;") == "&quot;";
    ReplaceAllAbsent("&quot;", '\'', "&#x27;");
  }

  lemma ChainOther(c: char)
    requires c != '&' && c != '<' && c != '>' && c != '"'
    ensures Chain([c]) == EscapeChar(c)
  {
    ReplaceAllSingle(c, '&', "&amp;");
    ReplaceAllSingle(c, '<', "&lt;");
    ReplaceAllSingle(c, '>', "&gt;");
    ReplaceAllSingle(c, '"', "&quot;");
    ReplaceAllSingle(c, '\'', "&#x27;");
  }

  /**
   * Because `&` is replaced first and no replacement text holds a character
   * replaced later, the chain escapes every character independently.
   */
  lemma {:induction false} ChainIsEscape(s: string)
    ensures Chain(s) == Escape(s)
  {
    if s != [] {
      assert s == [s[0]] + s[1..];
      ChainAppend([s[0]], s[1..]);
      ChainChar(s[0]);
      ChainIsEscape(s[1..]);
    }
  }

  /** `sanitizeInput` is the character-wise escape, trimmed. */
  lemma SanitizeIsCharwiseEscape(input: string)
    ensures SanitizeInput(input) == Trim(Escape(input))
  {
    ChainIsEscape(input);
  }

  // ---------------------------------------------------------------------------
  // Strength label and colour

  const Labels: seq<string> := ["非常に弱い", "弱い", "普通", "強い", "非常に強い"]
  const Colors: seq<string> := ["#ef4444", "#f97316", "#eab308", "#22c55e", "#16a34a"]

  /** `table[Math.min(score, 4)]`; a negative score indexes nothing (`undefined`). */
  function Lookup(table: seq<string>, score: int): (r: Option<string>)
    requires |table| == 5
    ensures score < 0 <==> r == None
    ensures score >= 4 ==> r == Some(table[4])
    ensures 0 <= score <= 4 ==> r == Some(table[score])
  {
    var i := Min(score, 4);
    if i < 0 then None else Some(table[i])
  }

  function PasswordStrengthLabel(score: int): (r: Option<string>)
    ensures score >= 0 ==> r.Some? && r.value in Labels
  {
    Lookup(Labels, score)
  }

  function PasswordStrengthColor(score: int): (r: Option<string>)
    ensures score >= 0 ==> r.Some? && r.value in Colors
  {
    Lookup(Colors, score)
  }
}
