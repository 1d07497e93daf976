/**
 * The audit log service: it builds an audit record from the partial actor,
 * target, request and response a caller supplies, masks personal data, lists
 * the fields a modification changed, keeps only harmless request headers and
 * derives a severity. It then buffers each record, or hands it at once to the
 * console, the database and a remote endpoint.
 */
module AuditService {
  import opened Common

  /** A JavaScript object as its list of entries, in insertion order. */
  type Record = seq<(string, Js)>
  /** An object whose values are strings (query parameters, headers). */
  type StringRecord = seq<(string, string)>

  // ---------------------------------------------------------------------------
  // Event types, severities and risk levels

  datatype EventType = Auth | Data | Admin | Sec | Sys
  datatype Severity = Debug | Info | Warn | Error | Critical
  datatype RiskLevel = Low | Medium | High | CriticalRisk

  function EventTypeName(t: EventType): string {
    match t
    case Auth => "AUTH"
    case Data => "DATA"
    case Admin => "ADMIN"
    case Sec => "SEC"
    case Sys => "SYS"
  }

  function SeverityName(s: Severity): string {
    match s
    case Debug => "DEBUG"
    case Info => "INFO"
    case Warn => "WARN"
    case Error => "ERROR"
    case Critical => "CRITICAL"
  }

  function RiskLevelName(r: RiskLevel): string {
    match r
    case Low => "LOW"
    case Medium => "MEDIUM"
    case High => "HIGH"
    case CriticalRisk => "CRITICAL"
  }

  /** The place of a severity in DEBUG < INFO < WARN < ERROR < CRITICAL. */
  function SeverityRank(s: Severity): nat {
    match s
    case Debug => 0
    case Info => 1
    case Warn => 2
    case Error => 3
    case Critical => 4
  }

  /** The place of a risk level in LOW < MEDIUM < HIGH < CRITICAL. */
  function RiskRank(r: RiskLevel): nat {
    match r
    case Low => 0
    case Medium => 1
    case High => 2
    case CriticalRisk => 3
  }

  /** The code mentions one of the words. */
  predicate Mentions(code: string, words: seq<string>) {
    exists w :: w in words && Contains(code, w)
  }

  /** The tests `eventCodeToSeverity` makes, in order, each with the severity it gives. */
  const SeverityRules: seq<(seq<string>, Severity)> :=
    [(["FAILURE", "DENIED"], Warn),
     (["DETECTED", "VIOLATION", "ATTEMPT"], Error),
     (["DELETE", "PURGE"], Warn),
     (["LOCKED"], Warn)]

  /** The severity of the first rule whose words the code mentions, INFO when none. */
  function FirstRule(rules: seq<(seq<string>, Severity)>, code: string): Severity
    decreases |rules|
  {
    if rules == [] then Info
    else if Mentions(code, rules[0].0) then rules[0].1
    else FirstRule(rules[1..], code)
  }

  /**
   * `eventCodeToSeverity`: a failure or a denial is a warning even when it
   * also names an attack; a detected threat, a violation or an attempt is an
   * error; deletions, purges and lock-outs are warnings; anything else is INFO.
   */
  function EventCodeToSeverity(code: string): (r: Severity)
    ensures r == Info || r == Warn || r == Error
    ensures Mentions(code, ["FAILURE", "DENIED"]) ==> r == Warn
    ensures r == Error <==> !Mentions(code, ["FAILURE", "DENIED"]) && Mentions(code, ["DETECTED", "VIOLATION", "ATTEMPT"])
    ensures r == Info <==> !Mentions(code, ["FAILURE", "DENIED", "DETECTED", "VIOLATION", "ATTEMPT", "DELETE", "PURGE", "LOCKED"])
  {
    if Contains(code, "FAILURE") || Contains(code, "DENIED") then Warn
    else if Contains(code, "DETECTED") || Contains(code, "VIOLATION") || Contains(code, "ATTEMPT") then Error
    else if Contains(code, "DELETE") || Contains(code, "PURGE") then Warn
    else if Contains(code, "LOCKED") then Warn
    else Info
  }

  /** The chain of tests is the first-match table of rules. */
  lemma SeverityIsFirstRule(code: string)
    ensures EventCodeToSeverity(code) == FirstRule(SeverityRules, code)
  {
    assert SeverityRules[1..][1..][1..][1..] == [];
  }

  /** `riskLevelToSeverity`: each risk level maps to the severity one step above it. */
  function RiskLevelToSeverity(r: RiskLevel): (s: Severity)
    ensures SeverityRank(s) == RiskRank(r) + 1
  {
    match r
    case Low => Info
    case Medium => Warn
    case High => Error
    case CriticalRisk => Critical
  }

  /** The mapping keeps the order of risk levels and tells them apart. */
  lemma RiskOrderKept(a: RiskLevel, b: RiskLevel)
    ensures RiskRank(a) <= RiskRank(b) <==> SeverityRank(RiskLevelToSeverity(a)) <= SeverityRank(RiskLevelToSeverity(b))
    ensures RiskLevelToSeverity(a) == RiskLevelToSeverity(b) ==> a == b
  {
  }

  // ---------------------------------------------------------------------------
  // Masking personal data

  const Redacted: string := "[REDACTED]"
  const DefaultPiiFields: seq<string> := ["email", "phone", "address", "ssn", "credit_card", "password", "token"]

  /** The key names personal data: its lower-case form contains one of the configured field names. */
  predicate IsPiiKey(key: string, piiFields: seq<string>) {
    exists f :: f in piiFields && Contains(Lower(key), f)
  }

  /** What `sanitizePII` builds: the same keys, masked values under personal-data keys, nested objects masked in turn. */
  function Sanitized(obj: Record, piiFields: seq<string>): (r: Record)
    ensures KeysOf(r) == KeysOf(obj)
    decreases JObj(obj), 0
  {
    seq(|obj|, i requires 0 <= i < |obj| => (obj[i].0, SanitizedValue(obj[i].0, obj[i].1, piiFields)))
  }

  /** One entry's new value: a string under a personal-data key becomes the mask, anything else there null. */
  function SanitizedValue(key: string, v: Js, piiFields: seq<string>): Js
    decreases v, 1
  {
    if IsPiiKey(key, piiFields) then (if v.JStr? then JStr(Redacted) else JNull)
    else if v.JObj? then JObj(Sanitized(v.fields, piiFields))
    else v
  }

  /** At any depth, an entry under a personal-data key holds only the mask or null. */
  predicate Clean(obj: Record, piiFields: seq<string>)
    decreases JObj(obj), 0
  {
    forall i :: 0 <= i < |obj| ==> CleanEntry(obj[i].0, obj[i].1, piiFields)
  }

  predicate CleanEntry(key: string, v: Js, piiFields: seq<string>)
    decreases v, 1
  {
    if IsPiiKey(key, piiFields) then v == JStr(Redacted) || v == JNull
    else v.JObj? ==> Clean(v.fields, piiFields)
  }

  /** `sanitizePII`: walks the entries, recursing into nested objects. */
  method SanitizePII(obj: Record, piiFields: seq<string>) returns (sanitized: Record)
    ensures sanitized == Sanitized(obj, piiFields)
    decreases JObj(obj)
  {
    sanitized := [];
    for i := 0 to |obj|
      invariant |sanitized| == i
      invariant forall j :: 0 <= j < i ==> sanitized[j] == (obj[j].0, SanitizedValue(obj[j].0, obj[j].1, piiFields))
    {
      var (key, value) := obj[i];
      var v: Js;
      if IsPiiKey(key, piiFields) {
        v := if value.JStr? then JStr(Redacted) else JNull;
      } else if value.JObj? {
        assert JObj(value.fields) == obj[i].1;
        var inner := SanitizePII(value.fields, piiFields);
        v := JObj(inner);
      } else {
        v := value;
      }
      sanitized := sanitized + [(key, v)];
    }
  }

  lemma {:induction false} SanitizedIsClean(obj: Record, piiFields: seq<string>)
    ensures Clean(Sanitized(obj, piiFields), piiFields)
    decreases JObj(obj)
  {
    var r := Sanitized(obj, piiFields);
    forall i | 0 <= i < |obj|
      ensures CleanEntry(r[i].0, r[i].1, piiFields)
    {
      var v := obj[i].1;
      assert r[i] == (obj[i].0, SanitizedValue(obj[i].0, v, piiFields));
      if !IsPiiKey(obj[i].0, piiFields) && v.JObj? {
        assert JObj(v.fields) == obj[i].1;
        SanitizedIsClean(v.fields, piiFields);
      }
    }
  }

  lemma {:induction false} CleanIsUnchanged(obj: Record, piiFields: seq<string>)
    requires Clean(obj, piiFields)
    ensures Sanitized(obj, piiFields) == obj
    decreases JObj(obj)
  {
    var r := Sanitized(obj, piiFields);
    forall i | 0 <= i < |obj|
      ensures r[i] == obj[i]
    {
      var v := obj[i].1;
      assert CleanEntry(obj[i].0, v, piiFields);
      if !IsPiiKey(obj[i].0, piiFields) && v.JObj? {
        assert JObj(v.fields) == obj[i].1;
        CleanIsUnchanged(v.fields, piiFields);
      }
    }
  }

  /**
   * Masking leaves an object as it is exactly when no personal data shows in
   * it at any depth; so masking twice is masking once.
   */
  lemma SanitizeFixedPoints(obj: Record, piiFields: seq<string>)
    ensures Sanitized(obj, piiFields) == obj <==> Clean(obj, piiFields)
    ensures Sanitized(Sanitized(obj, piiFields), piiFields) == Sanitized(obj, piiFields)
  {
    SanitizedIsClean(obj, piiFields);
    if Clean(obj, piiFields) {
      CleanIsUnchanged(obj, piiFields);
    }
    CleanIsUnchanged(Sanitized(obj, piiFields), piiFields);
  }

  /** An e-mail address under `userEmail` is masked; an age is kept. */
  lemma SanitizeExample()
    ensures Sanitized([("userEmail", JStr("a@example.jp")), ("age", JNum(30))], DefaultPiiFields)
         == [("userEmail", JStr(Redacted)), ("age", JNum(30))]
  {
    EmailKeyIsPii();
    AgeKeyIsNotPii();
    var r := Sanitized([("userEmail", JStr("a@example.jp")), ("age", JNum(30))], DefaultPiiFields);
    assert r[0] == ("userEmail", JStr(Redacted));
    assert r[1] == ("age", JNum(30));
  }

  lemma EmailKeyIsPii()
    ensures IsPiiKey("userEmail", DefaultPiiFields)
  {
    assert Lower("userEmail") == "useremail";
    ContainsAt("useremail", "email", 4);
    assert DefaultPiiFields[0] == "email";
  }

  lemma AgeKeyIsNotPii()
    ensures !IsPiiKey("age", DefaultPiiFields)
  {
    assert Lower("age") == "age";
    assert !Contains("age", "ssn") by {
      assert "ssn"[0] != "age"[0];
      assert !Contains("ge", "ssn");
    }
  }

  // ---------------------------------------------------------------------------
  // JSON text and changed fields

  /** The JSON escape of one character. */
  function EscapeChar(c: char): string {
    if c == '"' then "\\\""
    else if c == '\\' then "\\\\"
    else if c == '\n' then "\\n"
    else if c == '\r' then "\\r"
    else if c == '\t' then "\\t"
    else if c as int == 8 then "\\b"
    else if c as int == 12 then "\\f"
    else if (c as int) < 0x20 then "\\u00" + ByteHexLower(c as int)
    else [c]
  }

  function Escape(s: string): string {
    if s == [] then "" else EscapeChar(s[0]) + Escape(s[1..])
  }

  function Quote(s: string): string {
    "\"" + Escape(s) + "\""
  }

  /** The present values of a list of optional ones, in order. */
  function Somes<T>(s: seq<Option<T>>): (r: seq<T>)
    ensures |r| <= |s|
  {
    if s == [] then [] else (if s[0].Some? then [s[0].value] else []) + Somes(s[1..])
  }

  /** The JSON text of a value; `undefined` inside an array is written `null`, and object entries holding it are dropped. */
  function JsonText(v: Js): string
    decreases v
  {
    match v
    case JUndefined => "null"
    case JNull => "null"
    case JBool(b) => if b then "true" else "false"
    case JNum(n) => IntToString(n)
    case JStr(s) => Quote(s)
    case JArr(items) => "[" + Join(seq(|items|, i requires 0 <= i < |items| => JsonText(items[i])), ",") + "]"
    case JObj(fields) =>
      "{" + Join(Somes(seq(|fields|, i requires 0 <= i < |fields| =>
                          if fields[i].1 == JUndefined then None
                          else Some(Quote(fields[i].0) + ":" + JsonText(fields[i].1)))), ",") + "}"
  }

  /** `JSON.stringify(v)`: no text at all for `undefined`. */
  function Stringify(v: Js): (r: Option<string>)
    ensures r.None? <==> v == JUndefined
  {
    if v == JUndefined then None else Some(JsonText(v))
  }

  /** `record[key]`: the value of the first entry with the key, `undefined` when there is none. */
  function ValueAt(rec: Record, key: string): (r: Js)
    ensures key !in KeysOf(rec) ==> r == JUndefined
  {
    Get(rec, key).GetOr(JUndefined)
  }

  predicate Differs(prev: Record, next: Record, key: string) {
    Stringify(ValueAt(prev, key)) != Stringify(ValueAt(next, key))
  }

  /** The keys of `keys`, in order, whose values serialise differently in the two records. */
  function ChangedAmong(keys: seq<string>, prev: Record, next: Record): (r: seq<string>)
    ensures forall k :: k in r <==> k in keys && Differs(prev, next, k)
    decreases |keys|
  {
    if keys == [] then []
    else
      var init := keys[..|keys| - 1];
      assert keys == init + [keys[|keys| - 1]];
      ChangedAmong(init, prev, next) + (if Differs(prev, next, keys[|keys| - 1]) then [keys[|keys| - 1]] else [])
  }

  /** `Array.from(new Set([...Object.keys(prev), ...Object.keys(next)]))`. */
  function AllKeys(prev: Record, next: Record): seq<string> {
    Dedup(KeysOf(prev) + KeysOf(next))
  }

  function ChangedFields(prev: Record, next: Record): seq<string> {
    ChangedAmong(AllKeys(prev, next), prev, next)
  }

  /** `getChangedFields`: the union of the keys, each kept when its two values serialise differently. */
  method GetChangedFields(prev: Record, next: Record) returns (changed: seq<string>)
    ensures changed == ChangedFields(prev, next)
  {
    changed := [];
    var allKeys := AllKeys(prev, next);
    for i := 0 to |allKeys|
      invariant changed == ChangedAmong(allKeys[..i], prev, next)
    {
      assert allKeys[..i + 1][..i] == allKeys[..i];
      if Stringify(ValueAt(prev, allKeys[i])) != Stringify(ValueAt(next, allKeys[i])) {
        changed := changed + [allKeys[i]];
      }
    }
    assert allKeys[..|allKeys|] == allKeys;
  }

  lemma {:induction false} ChangedAmongNoDup(keys: seq<string>, prev: Record, next: Record)
    requires NoDup(keys)
    ensures NoDup(ChangedAmong(keys, prev, next))
    decreases |keys|
  {
    if keys != [] {
      var init := keys[..|keys| - 1];
      assert NoDup(init);
      ChangedAmongNoDup(init, prev, next);
      assert keys[|keys| - 1] !in init;
    }
  }

  /** The scanned key list holds exactly the union of both records' keys. */
  lemma AllKeysMembers(prev: Record, next: Record)
    ensures forall k :: k in AllKeys(prev, next) <==> k in KeysOf(prev) || k in KeysOf(next)
  {
    forall k ensures k in AllKeys(prev, next) <==> k in KeysOf(prev) + KeysOf(next) {
      DedupMembers(KeysOf(prev) + KeysOf(next), k);
    }
  }

  /**
   * A field is reported exactly when it is a key of either record and its two
   * values serialise differently; none is reported twice; a record compared
   * with itself has no changed field; and a field that only one side defines is
   * always reported.
   */
  lemma ChangedFieldsSpec(prev: Record, next: Record)
    ensures forall k :: k in ChangedFields(prev, next) <==> (k in KeysOf(prev) || k in KeysOf(next)) && Differs(prev, next, k)
    ensures NoDup(ChangedFields(prev, next))
    ensures ChangedFields(prev, prev) == []
    ensures forall k :: k in KeysOf(next) && k !in KeysOf(prev) && ValueAt(next, k) != JUndefined ==> k in ChangedFields(prev, next)
  {
    AllKeysMembers(prev, next);
    ChangedAmongNoDup(AllKeys(prev, next), prev, next);
    NothingChangedAmong(AllKeys(prev, prev), prev);
  }

  lemma {:induction false} NothingChangedAmong(keys: seq<string>, rec: Record)
    ensures ChangedAmong(keys, rec, rec) == []
    decreases |keys|
  {
    if keys != [] {
      NothingChangedAmong(keys[..|keys| - 1], rec);
    }
  }

  // ---------------------------------------------------------------------------
  // Request headers

  const AllowedHeaders: seq<string> := ["content-type", "accept", "x-csrf-token", "x-request-id", "x-forwarded-for", "x-real-ip"]
  const HeaderMask: string := "***REDACTED***"

  /** The authorization header as logged: its first ten characters and the mask. */
  function MaskAuthorization(value: string): (r: string)
    ensures |r| <= 10 + |HeaderMask|
  {
    value[..Min(10, |value|)] + HeaderMask
  }

  /** What the filter writes for one header: an allowed one as it is, `authorization` masked, nothing for the rest. */
  function KeptHeader(key: string, value: string): Option<(string, string)> {
    if Lower(key) in AllowedHeaders then Some((key, value))
    else if Lower(key) == "authorization" then Some((key, MaskAuthorization(value)))
    else None
  }

  function KeptHeaders(headers: StringRecord): (r: StringRecord)
    ensures |r| <= |headers|
    decreases |headers|
  {
    if headers == [] then []
    else
      var init := headers[..|headers| - 1];
      var last := headers[|headers| - 1];
      KeptHeaders(init) + (match KeptHeader(last.0, last.1) case Some(e) => [e] case None => [])
  }

  /** `filterHeaders`: no headers, or none kept, gives `undefined`. */
  function FilteredHeaders(headers: Option<StringRecord>): Option<StringRecord> {
    if headers.None? then None
    else
      var kept := KeptHeaders(headers.value);
      if |kept| > 0 then Some(kept) else None
  }

  method FilterHeaders(headers: Option<StringRecord>) returns (r: Option<StringRecord>)
    ensures r == FilteredHeaders(headers)
  {
    if headers.None? {
      return None;
    }
    var h := headers.value;
    var filtered: StringRecord := [];
    for i := 0 to |h|
      invariant filtered == KeptHeaders(h[..i])
    {
      assert h[..i + 1][..i] == h[..i];
      var (key, value) := h[i];
      var lowerKey := Lower(key);
      if lowerKey in AllowedHeaders {
        filtered := filtered + [(key, value)];
      }
      if lowerKey == "authorization" {
        filtered := filtered + [(key, MaskAuthorization(value))];
      }
    }
    assert h[..|h|] == h;
    r := if |filtered| > 0 then Some(filtered) else None;
  }

  lemma {:induction false} KeptHeadersSpec(headers: StringRecord)
    ensures forall e :: e in KeptHeaders(headers) ==>
              (Lower(e.0) in AllowedHeaders && e in headers)
              || (Lower(e.0) == "authorization" && exists v :: (e.0, v) in headers && e.1 == MaskAuthorization(v))
    ensures forall e :: e in headers && Lower(e.0) in AllowedHeaders ==> e in KeptHeaders(headers)
    ensures forall e :: e in headers && Lower(e.0) == "authorization" ==> (e.0, MaskAuthorization(e.1)) in KeptHeaders(headers)
    decreases |headers|
  {
    if headers != [] {
      var init := headers[..|headers| - 1];
      KeptHeadersSpec(init);
      assert headers == init + [headers[|headers| - 1]];
    }
  }

  /**
   * Only allowed headers pass unchanged, the authorization header passes only
   * masked, every allowed or authorization header is kept, and the result is
   * `undefined` exactly when no header was given or none of them qualifies.
   */
  lemma FilterHeadersSpec(headers: Option<StringRecord>)
    ensures FilteredHeaders(headers).Some? ==> |FilteredHeaders(headers).value| > 0
    ensures headers.Some? ==> forall e :: e in KeptHeaders(headers.value) ==>
              (Lower(e.0) in AllowedHeaders && e in headers.value)
              || (Lower(e.0) == "authorization" && exists v :: (e.0, v) in headers.value && e.1 == MaskAuthorization(v))
    ensures FilteredHeaders(headers).None? <==>
              headers.None? || forall e :: e in headers.value ==> Lower(e.0) !in AllowedHeaders && Lower(e.0) != "authorization"
  {
    if headers.Some? {
      KeptHeadersSpec(headers.value);
      var kept := KeptHeaders(headers.value);
      if kept != [] {
        assert kept[0] in kept;
      }
    }
  }

  // ---------------------------------------------------------------------------
  // The audit record

  /** What a caller knows of the actor; every field may be missing. */
  datatype PartialActor = PartialActor(
    kind: Option<string>, userId: Option<string>, username: Option<string>, email: Option<string>,
    roles: Option<seq<string>>, sessionId: Option<string>, ipAddress: Option<string>,
    userAgent: Option<string>, geoLocation: Option<Js>)

  datatype PartialTarget = PartialTarget(
    kind: Option<string>, id: Option<string>, name: Option<string>, ownerId: Option<string>,
    previousState: Option<Record>, newState: Option<Record>, affectedFields: Option<seq<string>>)

  datatype PartialRequest = PartialRequest(
    id: Option<string>, httpMethod: Option<string>, path: Option<string>, query: Option<StringRecord>,
    headers: Option<StringRecord>, body: Option<Record>, contentType: Option<string>, contentLength: Option<int>)

  datatype PartialResponse = PartialResponse(
    statusCode: Option<int>, success: Option<bool>, errorCode: Option<string>, errorMessage: Option<string>,
    duration: Option<int>, dataSize: Option<int>)

  const NoActor := PartialActor(None, None, None, None, None, None, None, None, None)
  const NoTarget := PartialTarget(None, None, None, None, None, None, None)
  const NoRequest := PartialRequest(None, None, None, None, None, None, None, None)
  const NoResponse := PartialResponse(None, None, None, None, None, None)

  /** The actor as recorded: the e-mail address only as a hash. */
  datatype Actor = Actor(
    kind: string, userId: Option<string>, username: Option<string>, emailHash: Option<string>,
    roles: Option<seq<string>>, sessionId: Option<string>, ipAddress: string, userAgent: string,
    geoLocation: Option<Js>)

  datatype Target = Target(
    kind: string, id: string, name: Option<string>, ownerId: Option<string>,
    previousState: Option<Record>, newState: Option<Record>, affectedFields: Option<seq<string>>)

  datatype Request = Request(
    id: string, httpMethod: string, path: string, query: Option<StringRecord>, headers: Option<StringRecord>,
    body: Option<Record>, contentType: Option<string>, contentLength: Option<int>)

  datatype Response = Response(
    statusCode: int, success: bool, errorCode: Option<string>, errorMessage: Option<string>,
    duration: int, dataSize: Option<int>)

  datatype Context = Context(
    service: string, version: string, environment: string, hostname: string, traceId: string,
    spanId: string, parentSpanId: Option<string>, correlationId: Option<string>)

  datatype AuditLog = AuditLog(
    id: string, timestamp: string, eventType: EventType, eventCode: string, eventName: string,
    eventDescription: string, actor: Actor, target: Option<Target>, request: Request, response: Response,
    context: Context, metadata: Option<Record>, severity: Severity, riskLevel: Option<RiskLevel>)

  /**
   * What building a record draws from outside the service: three fresh UUIDs
   * (for the trace, the span and the record), the clock, the `HOSTNAME`
   * variable and the table of event names.
   */
  datatype Env = Env(
    traceUuid: string, spanUuid: string, logUuid: string, timestamp: string,
    hostnameVar: Option<string>, eventNames: StringRecord)

  /** `s || fallback` for an optional string. */
  function OrElse(s: Option<string>, fallback: string): (r: string)
    ensures r == fallback || (s.Some? && r == s.value && r != "")
    ensures fallback != "" ==> r != ""
  {
    if s.Some? && s.value != "" then s.value else fallback
  }

  /** `getEventName`: the name in the table, or the code itself. */
  function EventName(names: StringRecord, code: string): string {
    OrElse(Get(names, code), code)
  }

  const EventDescriptions: StringRecord := [
    ("AUTH_LOGIN_SUCCESS", "ユーザーが正常にシステムにログインしました"),
    ("AUTH_LOGIN_FAILURE", "ログイン試行が失敗しました（認証エラー）"),
    ("AUTH_LOGOUT", "ユーザーがシステムからログアウトしました"),
    ("AUTH_PASSWORD_CHANGE", "ユーザーがパスワードを変更しました"),
    ("AUTH_ACCOUNT_LOCKED", "複数回のログイン失敗によりアカウントがロックされました"),
    ("DATA_USER_PROFILE_VIEW", "ユーザープロファイルが閲覧されました"),
    ("DATA_USER_PROFILE_UPDATE", "ユーザープロファイルが更新されました"),
    ("DATA_LIFEPLAN_CREATE", "新しいライフプランが作成されました"),
    ("DATA_LIFEPLAN_VIEW", "ライフプランが閲覧されました"),
    ("DATA_LIFEPLAN_UPDATE", "ライフプランが更新されました"),
    ("DATA_LIFEPLAN_DELETE", "ライフプランが削除されました"),
    ("SEC_BRUTE_FORCE_DETECTED", "ブルートフォース攻撃の試行が検知されました"),
    ("SEC_CSRF_VIOLATION", "CSRFトークンの検証に失敗しました"),
    ("SEC_RATE_LIMIT_EXCEEDED", "APIレート制限を超過しました")]

  /** `getEventDescription`: the description in the table, or "". */
  function EventDescription(code: string): (r: string)
    ensures code !in KeysOf(EventDescriptions) ==> r == ""
  {
    OrElse(Get(EventDescriptions, code), "")
  }

  datatype AuditConfig = AuditConfig(
    serviceName: string, version: string, environment: string, piiFields: seq<string>,
    asyncLogging: bool, batchSize: int, flushInterval: int, enableConsoleOutput: bool,
    enableDatabaseOutput: bool, enableRemoteOutput: bool, remoteEndpoint: Option<string>)

  /** `defaultConfig`, from `NEXT_PUBLIC_APP_VERSION`, `NODE_ENV` and `AUDIT_LOG_ENDPOINT`. */
  function DefaultConfig(appVersion: Option<string>, nodeEnv: Option<string>, endpoint: Option<string>): (c: AuditConfig)
    ensures c.piiFields == DefaultPiiFields && c.asyncLogging && c.batchSize == 100 && c.enableDatabaseOutput
    ensures c.enableConsoleOutput <==> nodeEnv == Some("development")
    ensures c.enableRemoteOutput <==> nodeEnv == Some("production")
    ensures !(c.enableConsoleOutput && c.enableRemoteOutput)
  {
    AuditConfig(
      "lifeplan-navigator", OrElse(appVersion, "1.0.0"), OrElse(nodeEnv, "development"), DefaultPiiFields,
      true, 100, 5000, nodeEnv == Some("development"), true, nodeEnv == Some("production"), endpoint)
  }

  /**
   * With `NODE_ENV` unset the environment is recorded as "development", yet
   * the console output that development turns on stays off.
   */
  lemma UnsetEnvironment(appVersion: Option<string>, endpoint: Option<string>)
    ensures DefaultConfig(appVersion, None, endpoint).environment == "development"
    ensures !DefaultConfig(appVersion, None, endpoint).enableConsoleOutput
  {
  }

  /** A `Partial<AuditLogConfig>`: the fields it sets. */
  datatype ConfigUpdate = ConfigUpdate(
    serviceName: Option<string>, version: Option<string>, environment: Option<string>,
    piiFields: Option<seq<string>>, asyncLogging: Option<bool>, batchSize: Option<int>,
    flushInterval: Option<int>, enableConsoleOutput: Option<bool>, enableDatabaseOutput: Option<bool>,
    enableRemoteOutput: Option<bool>, remoteEndpoint: Option<string>)

  const NoUpdate := ConfigUpdate(None, None, None, None, None, None, None, None, None, None, None)

  /** `{ ...config, ...update }`. */
  function MergeConfig(c: AuditConfig, u: ConfigUpdate): AuditConfig {
    AuditConfig(
      u.serviceName.GetOr(c.serviceName), u.version.GetOr(c.version), u.environment.GetOr(c.environment),
      u.piiFields.GetOr(c.piiFields), u.asyncLogging.GetOr(c.asyncLogging), u.batchSize.GetOr(c.batchSize),
      u.flushInterval.GetOr(c.flushInterval), u.enableConsoleOutput.GetOr(c.enableConsoleOutput),
      u.enableDatabaseOutput.GetOr(c.enableDatabaseOutput), u.enableRemoteOutput.GetOr(c.enableRemoteOutput),
      if u.remoteEndpoint.Some? then u.remoteEndpoint else c.remoteEndpoint)
  }

  /** The update that sets everything set by either of two updates, the second winning. */
  function Then(u1: ConfigUpdate, u2: ConfigUpdate): ConfigUpdate {
    ConfigUpdate(
      if u2.serviceName.Some? then u2.serviceName else u1.serviceName,
      if u2.version.Some? then u2.version else u1.version,
      if u2.environment.Some? then u2.environment else u1.environment,
      if u2.piiFields.Some? then u2.piiFields else u1.piiFields,
      if u2.asyncLogging.Some? then u2.asyncLogging else u1.asyncLogging,
      if u2.batchSize.Some? then u2.batchSize else u1.batchSize,
      if u2.flushInterval.Some? then u2.flushInterval else u1.flushInterval,
      if u2.enableConsoleOutput.Some? then u2.enableConsoleOutput else u1.enableConsoleOutput,
      if u2.enableDatabaseOutput.Some? then u2.enableDatabaseOutput else u1.enableDatabaseOutput,
      if u2.enableRemoteOutput.Some? then u2.enableRemoteOutput else u1.enableRemoteOutput,
      if u2.remoteEndpoint.Some? then u2.remoteEndpoint else u1.remoteEndpoint)
  }

  /** An empty update changes nothing, repeating an update changes nothing more, and two updates in turn are their combination. */
  lemma MergeConfigLaws(c: AuditConfig, u: ConfigUpdate, u2: ConfigUpdate)
    ensures MergeConfig(c, NoUpdate) == c
    ensures MergeConfig(MergeConfig(c, u), u) == MergeConfig(c, u)
    ensures MergeConfig(MergeConfig(c, u), u2) == MergeConfig(c, Then(u, u2))
  {
  }

  /** `createAuditLog`; the SHA-256 digest in hexadecimal is the parameter `sha256`. */
  function CreateAuditLog(
    config: AuditConfig, eventType: EventType, eventCode: string, actor: PartialActor,
    target: Option<PartialTarget>, request: PartialRequest, response: PartialResponse,
    metadata: Option<Record>, env: Env, sha256: string -> string): (r: AuditLog)
    ensures r.eventType == eventType && r.eventCode == eventCode
    ensures r.severity == EventCodeToSeverity(eventCode) && r.riskLevel.None?
    ensures r.request.id == r.context.traceId && r.context.correlationId == request.id
    ensures request.id.Some? && request.id.value != "" ==> r.context.traceId == request.id.value
    ensures r.context.spanId <= env.spanUuid && |r.context.spanId| <= 16
    ensures r.actor.emailHash.Some? <==> actor.email.Some? && actor.email.value != ""
    ensures r.actor.emailHash.Some? ==> r.actor.emailHash.value == sha256(Lower(actor.email.value))
    ensures r.request.headers == FilteredHeaders(request.headers)
    ensures r.request.body.Some? <==> request.body.Some?
    ensures r.request.body.Some? ==> Clean(r.request.body.value, config.piiFields)
    ensures r.metadata.Some? <==> metadata.Some?
    ensures r.metadata.Some? ==> Clean(r.metadata.value, config.piiFields)
    ensures r.target.Some? <==> target.Some?
  {
    var traceId := OrElse(request.id, env.traceUuid);
    var spanId := env.spanUuid[..Min(16, |env.spanUuid|)];
    var emailHash := if actor.email.Some? && actor.email.value != "" then Some(sha256(Lower(actor.email.value))) else None;
    var body := if request.body.Some? then Some(Sanitized(request.body.value, config.piiFields)) else None;
    var meta := if metadata.Some? then Some(Sanitized(metadata.value, config.piiFields)) else None;
    SanitizedIsCleanOpt(request.body, config.piiFields);
    SanitizedIsCleanOpt(metadata, config.piiFields);
    AuditLog(
      env.logUuid, env.timestamp, eventType, eventCode, EventName(env.eventNames, eventCode), EventDescription(eventCode),
      Actor(OrElse(actor.kind, "anonymous"), actor.userId, actor.username, emailHash, actor.roles, actor.sessionId,
            OrElse(actor.ipAddress, "0.0.0.0"), OrElse(actor.userAgent, "unknown"), actor.geoLocation),
      if target.Some? then
        var t := target.value;
        Some(Target(OrElse(t.kind, "unknown"), OrElse(t.id, "unknown"), t.name, t.ownerId,
                    t.previousState, t.newState, t.affectedFields))
      else None,
      Request(OrElse(request.id, traceId), OrElse(request.httpMethod, "UNKNOWN"), OrElse(request.path, "/"),
              request.query, FilteredHeaders(request.headers), body, request.contentType, request.contentLength),
      Response(response.statusCode.GetOr(0), response.success.GetOr(false), response.errorCode,
               response.errorMessage, response.duration.GetOr(0), response.dataSize),
      Context(config.serviceName, config.version, config.environment, OrElse(env.hostnameVar, "browser"),
              traceId, spanId, None, request.id),
      meta, EventCodeToSeverity(eventCode), None)
  }

  lemma SanitizedIsCleanOpt(obj: Option<Record>, piiFields: seq<string>)
    ensures obj.Some? ==> Clean(Sanitized(obj.value, piiFields), piiFields)
  {
    if obj.Some? {
      SanitizedIsClean(obj.value, piiFields);
    }
  }

  /**
   * What a record says when the caller knows nothing: an anonymous actor at
   * 0.0.0.0 with an unknown agent, an UNKNOWN request to "/" whose id is the
   * fresh trace id, a failed response with status 0 taking no time, and the
   * host "browser" when `HOSTNAME` is unset.
   */
  lemma CreateAuditLogDefaults(config: AuditConfig, eventType: EventType, eventCode: string, env: Env, sha256: string -> string)
    requires env.traceUuid != "" && env.hostnameVar.None?
    ensures var r := CreateAuditLog(config, eventType, eventCode, NoActor, Some(NoTarget), NoRequest, NoResponse, None, env, sha256);
      && r.actor.kind == "anonymous" && r.actor.ipAddress == "0.0.0.0" && r.actor.userAgent == "unknown"
      && r.actor.emailHash.None?
      && r.target == Some(Target("unknown", "unknown", None, None, None, None, None))
      && r.request.id == env.traceUuid && r.request.httpMethod == "UNKNOWN" && r.request.path == "/"
      && r.request.headers.None? && r.request.body.None?
      && r.response == Response(0, false, None, None, 0, None)
      && r.context.hostname == "browser" && r.context.correlationId.None?
      && r.metadata.None?
  {
  }

  /** `{ ...target, previousState, newState, affectedFields }` of `logDataModification`. */
  function ModifiedTarget(target: PartialTarget, prev: Record, next: Record, piiFields: seq<string>): PartialTarget {
    target.(previousState := Some(Sanitized(prev, piiFields)), newState := Some(Sanitized(next, piiFields)),
            affectedFields := Some(ChangedFields(prev, next)))
  }

  /** `{ ...metadata, riskLevel }`. */
  function SecurityMetadata(metadata: Option<Record>, riskLevel: RiskLevel): (r: Record)
    ensures ValueAt(r, "riskLevel") == JStr(RiskLevelName(riskLevel))
  {
    Put(metadata.GetOr([]), "riskLevel", JStr(RiskLevelName(riskLevel)))
  }

  /** The actor `logSystemEvent` records. */
  const SystemActor := NoActor.(kind := Some("system"), ipAddress := Some("127.0.0.1"), userAgent := Some("LifePlan-Navigator-System"))

  // ---------------------------------------------------------------------------
  // Outputs and the buffer

  /** A write the service starts; its promise is awaited with failures ignored. */
  datatype Output =
    | Console(log: AuditLog)
    | Database(log: AuditLog)
    | DatabaseBatch(logs: seq<AuditLog>)
    | Remote(endpoint: string, log: AuditLog)

  predicate RemoteEnabled(c: AuditConfig) {
    c.enableRemoteOutput && c.remoteEndpoint.Some? && c.remoteEndpoint.value != ""
  }

  /** `persistLogImmediately`: console, database, remote, each when enabled. */
  function ImmediateOutputs(c: AuditConfig, log: AuditLog): seq<Output> {
    (if c.enableConsoleOutput then [Console(log)] else [])
    + (if c.enableDatabaseOutput then [Database(log)] else [])
    + (if RemoteEnabled(c) then [Remote(c.remoteEndpoint.value, log)] else [])
  }

  function ConsoleEach(logs: seq<AuditLog>): seq<Output> {
    seq(|logs|, i requires 0 <= i < |logs| => Console(logs[i]))
  }

  function RemoteEach(endpoint: string, logs: seq<AuditLog>): seq<Output> {
    seq(|logs|, i requires 0 <= i < |logs| => Remote(endpoint, logs[i]))
  }

  /** `flushLogs`: each record to the console, the batch to the database, each record to the remote endpoint. */
  function FlushOutputs(c: AuditConfig, logs: seq<AuditLog>): seq<Output> {
    (if c.enableConsoleOutput then ConsoleEach(logs) else [])
    + (if c.enableDatabaseOutput then [DatabaseBatch(logs)] else [])
    + (if RemoteEnabled(c) then RemoteEach(c.remoteEndpoint.value, logs) else [])
  }

  /** The records handed to the database by a list of writes, in order. */
  function DbLogs(outs: seq<Output>): seq<AuditLog>
    decreases |outs|
  {
    if outs == [] then []
    else
      (match outs[0]
       case Database(log) => [log]
       case DatabaseBatch(logs) => logs
       case _ => [])
      + DbLogs(outs[1..])
  }

  lemma {:induction false} DbLogsAppend(a: seq<Output>, b: seq<Output>)
    ensures DbLogs(a + b) == DbLogs(a) + DbLogs(b)
    decreases |a|
  {
    if a == [] {
      assert a + b == b;
    } else {
      assert (a + b)[1..] == a[1..] + b;
      DbLogsAppend(a[1..], b);
    }
  }

  lemma {:induction false} NoDbLogs(outs: seq<Output>)
    requires forall i :: 0 <= i < |outs| ==> outs[i].Console? || outs[i].Remote?
    ensures DbLogs(outs) == []
    decreases |outs|
  {
    if outs != [] {
      NoDbLogs(outs[1..]);
    }
  }

  /** Writes around the database ones add nothing to what the database is handed. */
  lemma DbLogsBetween(pre: seq<Output>, mid: seq<Output>, post: seq<Output>)
    requires forall i :: 0 <= i < |pre| ==> pre[i].Console? || pre[i].Remote?
    requires forall i :: 0 <= i < |post| ==> post[i].Console? || post[i].Remote?
    ensures DbLogs(pre + mid + post) == DbLogs(mid)
  {
    NoDbLogs(pre);
    NoDbLogs(post);
    DbLogsAppend(pre + mid, post);
    DbLogsAppend(pre, mid);
  }

  /** With the database on, a flush hands it exactly the flushed records, in one batch. */
  lemma DbLogsOfFlush(c: AuditConfig, logs: seq<AuditLog>)
    ensures DbLogs(FlushOutputs(c, logs)) == if c.enableDatabaseOutput then logs else []
  {
    var db: seq<Output> := if c.enableDatabaseOutput then [DatabaseBatch(logs)] else [];
    DbLogsBetween(if c.enableConsoleOutput then ConsoleEach(logs) else [], db,
                  if RemoteEnabled(c) then RemoteEach(c.remoteEndpoint.value, logs) else []);
    assert DbLogs(db) == if c.enableDatabaseOutput then logs else [];
  }

  /** With the database on, an immediate write hands it the one record. */
  lemma DbLogsOfImmediate(c: AuditConfig, log: AuditLog)
    ensures DbLogs(ImmediateOutputs(c, log)) == if c.enableDatabaseOutput then [log] else []
  {
    var db: seq<Output> := if c.enableDatabaseOutput then [Database(log)] else [];
    DbLogsBetween(if c.enableConsoleOutput then [Console(log)] else [], db,
                  if RemoteEnabled(c) then [Remote(c.remoteEndpoint.value, log)] else []);
    assert DbLogs(db) == if c.enableDatabaseOutput then [log] else [];
  }

  /** The loops of `flushLogs`: one console write, or one remote write to `endpoint`, per record. */
  method WriteEach(logs: seq<AuditLog>, endpoint: Option<string>) returns (started: seq<Output>)
    ensures started == if endpoint.Some? then RemoteEach(endpoint.value, logs) else ConsoleEach(logs)
  {
    started := [];
    for i := 0 to |logs|
      invariant started == if endpoint.Some? then RemoteEach(endpoint.value, logs[..i]) else ConsoleEach(logs[..i])
    {
      var w := if endpoint.Some? then Remote(endpoint.value, logs[i]) else Console(logs[i]);
      started := started + [w];
    }
    assert logs[..|logs|] == logs;
  }

  /** The service's fields, as one value. */
  datatype ServiceState = ServiceState(
    config: AuditConfig, logBuffer: seq<AuditLog>, hasFlushTimer: bool, isShuttingDown: bool, outputs: seq<Output>)

  function AfterImmediate(s: ServiceState, log: AuditLog): ServiceState {
    s.(outputs := s.outputs + ImmediateOutputs(s.config, log))
  }

  function AfterFlush(s: ServiceState): ServiceState {
    if s.logBuffer == [] then s
    else s.(logBuffer := [], outputs := s.outputs + FlushOutputs(s.config, s.logBuffer))
  }

  /** `persistLog`: immediate while shutting down or when not asynchronous; otherwise buffered, flushing once the batch is full. */
  function AfterPersist(s: ServiceState, log: AuditLog): ServiceState {
    if s.isShuttingDown || !s.config.asyncLogging then AfterImmediate(s, log)
    else
      var t := s.(logBuffer := s.logBuffer + [log]);
      if |t.logBuffer| >= s.config.batchSize then AfterFlush(t) else t
  }

  function AfterShutdown(s: ServiceState): ServiceState {
    AfterFlush(s.(isShuttingDown := true, hasFlushTimer := false))
  }

  /** The records the database has been handed, followed by those still waiting in the buffer. */
  function Stored(s: ServiceState): seq<AuditLog> {
    DbLogs(s.outputs) + s.logBuffer
  }

  /**
   * Flushing empties the buffer and loses nothing: with the database on, the
   * records handed over or waiting are the same before and after.
   */
  lemma FlushKeepsStored(s: ServiceState)
    ensures AfterFlush(s).logBuffer == [] && AfterFlush(s).config == s.config
    ensures s.config.enableDatabaseOutput ==> Stored(AfterFlush(s)) == Stored(s)
  {
    if s.logBuffer != [] {
      DbLogsAppend(s.outputs, FlushOutputs(s.config, s.logBuffer));
      DbLogsOfFlush(s.config, s.logBuffer);
    }
  }

  lemma PersistImmediateStored(s: ServiceState, log: AuditLog)
    requires s.config.enableDatabaseOutput && (s.isShuttingDown || !s.config.asyncLogging)
    ensures Stored(AfterPersist(s, log)) == DbLogs(s.outputs) + [log] + s.logBuffer
  {
    DbLogsAppend(s.outputs, ImmediateOutputs(s.config, log));
    DbLogsOfImmediate(s.config, log);
  }

  lemma PersistBufferedStored(s: ServiceState, log: AuditLog)
    requires s.config.enableDatabaseOutput && !s.isShuttingDown && s.config.asyncLogging
    ensures Stored(AfterPersist(s, log)) == Stored(s) + [log]
  {
    FlushKeepsStored(s.(logBuffer := s.logBuffer + [log]));
  }

  /**
   * Persisting a record adds exactly that record to what the database has
   * been handed or will be handed, when the database is on. It comes after
   * all earlier records when it is buffered or nothing waits in the buffer;
   * a record written at once overtakes the records still waiting.
   */
  lemma PersistKeepsStored(s: ServiceState, log: AuditLog)
    requires s.config.enableDatabaseOutput
    ensures multiset(Stored(AfterPersist(s, log))) == multiset(Stored(s)) + multiset{log}
    ensures (s.isShuttingDown || !s.config.asyncLogging) ==> Stored(AfterPersist(s, log)) == DbLogs(s.outputs) + [log] + s.logBuffer
    ensures (s.logBuffer == [] || (!s.isShuttingDown && s.config.asyncLogging)) ==> Stored(AfterPersist(s, log)) == Stored(s) + [log]
  {
    if s.isShuttingDown || !s.config.asyncLogging {
      PersistImmediateStored(s, log);
      if s.logBuffer == [] {
        assert DbLogs(s.outputs) + [log] + s.logBuffer == Stored(s) + [log];
      }
    } else {
      PersistBufferedStored(s, log);
    }
  }

  /**
   * In asynchronous mode the buffer never reaches the batch size (taken as
   * at least one); otherwise, or while shutting down, it is left as it is.
   */
  lemma PersistBoundsBuffer(s: ServiceState, log: AuditLog)
    ensures !s.isShuttingDown && s.config.asyncLogging ==> |AfterPersist(s, log).logBuffer| < Max(1, s.config.batchSize)
    ensures s.isShuttingDown || !s.config.asyncLogging ==> AfterPersist(s, log).logBuffer == s.logBuffer
  {
  }

  /** After shutdown the buffer is empty, and it stays empty whatever is logged afterwards. */
  lemma ShutdownDrains(s: ServiceState, log: AuditLog)
    ensures AfterShutdown(s).logBuffer == [] && AfterShutdown(s).isShuttingDown && !AfterShutdown(s).hasFlushTimer
    ensures AfterPersist(AfterShutdown(s), log).logBuffer == []
  {
  }

  /** The service; `hasFlushTimer` stands for the interval that flushes the buffer. */
  class AuditLogService {
    var config: AuditConfig
    var logBuffer: seq<AuditLog>
    var hasFlushTimer: bool
    var isShuttingDown: bool
    /** The writes started so far, in order. */
    var outputs: seq<Output>

    function State(): ServiceState
      reads this
    {
      ServiceState(config, logBuffer, hasFlushTimer, isShuttingDown, outputs)
    }

    /** `new AuditLogService(config)`: the defaults overridden by `overrides`; the timer runs in asynchronous mode. */
    constructor(defaults: AuditConfig, overrides: ConfigUpdate)
      ensures State() == ServiceState(MergeConfig(defaults, overrides), [], MergeConfig(defaults, overrides).asyncLogging, false, [])
    {
      config := MergeConfig(defaults, overrides);
      logBuffer := [];
      hasFlushTimer := MergeConfig(defaults, overrides).asyncLogging;
      isShuttingDown := false;
      outputs := [];
    }

    method PersistLogImmediately(log: AuditLog)
      modifies this
      ensures State() == AfterImmediate(old(State()), log)
    {
      var started: seq<Output> := [];
      if config.enableConsoleOutput {
        started := started + [Console(log)];
      }
      if config.enableDatabaseOutput {
        started := started + [Database(log)];
      }
      if config.enableRemoteOutput && config.remoteEndpoint.Some? && config.remoteEndpoint.value != "" {
        started := started + [Remote(config.remoteEndpoint.value, log)];
      }
      outputs := outputs + started;
    }

    method FlushLogs()
      modifies this
      ensures State() == AfterFlush(old(State()))
    {
      if |logBuffer| == 0 {
        return;
      }
      var logsToFlush := logBuffer;
      logBuffer := [];
      var started: seq<Output> := [];
      if config.enableConsoleOutput {
        started := WriteEach(logsToFlush, None);
      }
      if config.enableDatabaseOutput {
        started := started + [DatabaseBatch(logsToFlush)];
      }
      if config.enableRemoteOutput && config.remoteEndpoint.Some? && config.remoteEndpoint.value != "" {
        var remote := WriteEach(logsToFlush, config.remoteEndpoint);
        started := started + remote;
      }
      outputs := outputs + started;
    }

    method PersistLog(log: AuditLog)
      modifies this
      ensures State() == AfterPersist(old(State()), log)
    {
      if isShuttingDown {
        PersistLogImmediately(log);
        return;
      }
      if config.asyncLogging {
        logBuffer := logBuffer + [log];
        if |logBuffer| >= config.batchSize {
          FlushLogs();
        }
      } else {
        PersistLogImmediately(log);
      }
    }

    method LogAuthentication(eventCode: string, actor: PartialActor, request: PartialRequest, response: PartialResponse,
                             metadata: Option<Record>, env: Env, sha256: string -> string)
      modifies this
      ensures State() == AfterPersist(old(State()),
                CreateAuditLog(old(config), Auth, eventCode, actor, None, request, response, metadata, env, sha256))
    {
      var log := CreateAuditLog(config, Auth, eventCode, actor, None, request, response, metadata, env, sha256);
      PersistLog(log);
    }

    method LogDataAccess(eventCode: string, actor: PartialActor, target: PartialTarget, request: PartialRequest,
                         response: PartialResponse, metadata: Option<Record>, env: Env, sha256: string -> string)
      modifies this
      ensures State() == AfterPersist(old(State()),
                CreateAuditLog(old(config), Data, eventCode, actor, Some(target), request, response, metadata, env, sha256))
    {
      var log := CreateAuditLog(config, Data, eventCode, actor, Some(target), request, response, metadata, env, sha256);
      PersistLog(log);
    }

    /** The target carries both states masked and the fields that changed, computed on the unmasked states. */
    method LogDataModification(eventCode: string, actor: PartialActor, target: PartialTarget, previousState: Record,
                               newState: Record, request: PartialRequest, response: PartialResponse,
                               metadata: Option<Record>, env: Env, sha256: string -> string)
      modifies this
      ensures State() == AfterPersist(old(State()),
                CreateAuditLog(old(config), Data, eventCode, actor, Some(ModifiedTarget(target, previousState, newState, old(config).piiFields)),
                               request, response, metadata, env, sha256))
    {
      var sanitizedPrevState := SanitizePII(previousState, config.piiFields);
      var sanitizedNewState := SanitizePII(newState, config.piiFields);
      var affectedFields := GetChangedFields(previousState, newState);
      var enrichedTarget := target.(previousState := Some(sanitizedPrevState), newState := Some(sanitizedNewState),
                                    affectedFields := Some(affectedFields));
      var log := CreateAuditLog(config, Data, eventCode, actor, Some(enrichedTarget), request, response, metadata, env, sha256);
      PersistLog(log);
    }

    /** Written at once, with the risk level in the metadata and the severity taken from the risk level. */
    method LogSecurityEvent(eventCode: string, actor: PartialActor, request: PartialRequest, response: PartialResponse,
                            riskLevel: RiskLevel, metadata: Option<Record>, env: Env, sha256: string -> string)
      modifies this
      ensures State() == AfterImmediate(old(State()),
                CreateAuditLog(old(config), Sec, eventCode, actor, None, request, response,
                               Some(SecurityMetadata(metadata, riskLevel)), env, sha256)
                .(riskLevel := Some(riskLevel), severity := RiskLevelToSeverity(riskLevel)))
    {
      var log := CreateAuditLog(config, Sec, eventCode, actor, None, request, response,
                                Some(SecurityMetadata(metadata, riskLevel)), env, sha256);
      log := log.(riskLevel := Some(riskLevel), severity := RiskLevelToSeverity(riskLevel));
      PersistLogImmediately(log);
    }

    /** Written at once. */
    method LogAdminAction(eventCode: string, actor: PartialActor, target: PartialTarget, request: PartialRequest,
                          response: PartialResponse, metadata: Option<Record>, env: Env, sha256: string -> string)
      modifies this
      ensures State() == AfterImmediate(old(State()),
                CreateAuditLog(old(config), Admin, eventCode, actor, Some(target), request, response, metadata, env, sha256))
    {
      var log := CreateAuditLog(config, Admin, eventCode, actor, Some(target), request, response, metadata, env, sha256);
      PersistLogImmediately(log);
    }

    /** Logged as the system itself, from 127.0.0.1. */
    method LogSystemEvent(eventCode: string, request: PartialRequest, response: PartialResponse,
                          metadata: Option<Record>, env: Env, sha256: string -> string)
      modifies this
      ensures State() == AfterPersist(old(State()),
                CreateAuditLog(old(config), Sys, eventCode, SystemActor, None, request, response, metadata, env, sha256))
    {
      var log := CreateAuditLog(config, Sys, eventCode, SystemActor, None, request, response, metadata, env, sha256);
      PersistLog(log);
    }

    method Shutdown()
      modifies this
      ensures State() == AfterShutdown(old(State()))
    {
      isShuttingDown := true;
      if hasFlushTimer {
        hasFlushTimer := false;
      }
      FlushLogs();
    }

    method UpdateConfig(update: ConfigUpdate)
      modifies this
      ensures State() == old(State()).(config := MergeConfig(old(config), update))
    {
      config := MergeConfig(config, update);
    }

    method GetBufferSize() returns (n: nat)
      ensures n == |logBuffer|
    {
      n := |logBuffer|;
    }
  }
}
