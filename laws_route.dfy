/**
 * The laws API route: keyword sanitising, the per-IP fixed-window rate
 * limiter shared by GET and POST, the enumeration checks on user attributes,
 * and the action dispatch that validates and clamps the parameters before the
 * law library is called. A library call is represented by the `Response`
 * naming the call and its arguments; the library itself is modelled in
 * `LawsApi` and `TermsDictionary`.
 */
module LawsRoute {
  import opened Common
  import opened JsNumber

  const ValidEmploymentTypes: seq<string> := ["FULL_TIME_EMPLOYEE", "CONTRACT_EMPLOYEE", "CIVIL_SERVANT",
    "SELF_EMPLOYED", "PART_TIME", "STUDENT", "HOMEMAKER", "RETIRED", "UNEMPLOYED", "OTHER"]
  const ValidPlannedEvents: seq<string> := ["SIDE_BUSINESS", "JOB_CHANGE", "RETIREMENT", "HOME_PURCHASE",
    "HOME_RENOVATION", "MARRIAGE", "CHILDBIRTH", "CHILD_EDUCATION", "INHERITANCE", "NURSING_CARE", "RELOCATION", "NONE"]
  const ValidResidenceTypes: seq<string> := ["RENTAL", "OWNED", "PARENTS_HOME", "COMPANY_HOUSING", "PUBLIC_HOUSING", "OTHER"]

  // ---------------------------------------------------------------------------
  // Enumeration checks

  /** `typeof value === 'string' && list.includes(value)`. */
  predicate IsMember(v: Js, valid: seq<string>) {
    v.JStr? && v.s in valid
  }

  /** The value if it is a member of the list, else `undefined`. */
  function ValidOrAbsent(v: Js, valid: seq<string>): (r: Option<string>)
    ensures r.Some? <==> IsMember(v, valid)
    ensures r.Some? ==> r.value == v.s && r.value in valid
  {
    if IsMember(v, valid) then Some(v.s) else None
  }

  /** `values.filter(isValid…)`: the member strings, in order. */
  function FilterMembers(vs: seq<Js>, valid: seq<string>): (r: seq<string>)
    ensures |r| <= |vs|
    ensures forall i :: 0 <= i < |r| ==> r[i] in valid
  {
    if vs == [] then []
    else (if IsMember(vs[0], valid) then [vs[0].s] else []) + FilterMembers(vs[1..], valid)
  }

  /** The filter keeps every valid entry and nothing else. */
  lemma {:induction false} FilterMembersExact(vs: seq<Js>, valid: seq<string>, x: string)
    ensures x in FilterMembers(vs, valid) <==> x in valid && JStr(x) in vs
  {
    if vs != [] {
      FilterMembersExact(vs[1..], valid, x);
      assert vs == [vs[0]] + vs[1..];
    }
  }

  /** An already valid list passes the filter unchanged. */
  lemma {:induction false} FilterMembersKeepsValid(xs: seq<string>, valid: seq<string>)
    requires forall i :: 0 <= i < |xs| ==> xs[i] in valid
    ensures FilterMembers(Strings(xs), valid) == xs
  {
    if xs != [] {
      assert Strings(xs)[1..] == Strings(xs[1..]);
      FilterMembersKeepsValid(xs[1..], valid);
    }
  }

  function Strings(xs: seq<string>): (r: seq<Js>)
    ensures |r| == |xs| && forall i :: 0 <= i < |xs| ==> r[i] == JStr(xs[i])
  {
    seq(|xs|, i requires 0 <= i < |xs| => JStr(xs[i]))
  }

  // ---------------------------------------------------------------------------
  // sanitizeKeyword

  function DropAngles(s: string): (r: string)
    ensures |r| <= |s|
    ensures '<' !in r && '>' !in r
  {
    if s == [] then []
    else (if s[0] == '<' || s[0] == '>' then [] else [s[0]]) + DropAngles(s[1..])
  }

  /** `keyword.slice(0, 100).replace(/[<>]/g, '')`. */
  function SanitizeKeyword(keyword: string): (r: string)
    ensures |r| <= 100
    ensures '<' !in r && '>' !in r
  {
    DropAngles(keyword[..Min(|keyword|, 100)])
  }

  /** Every character other than `<` and `>` is kept, as often as it occurs. */
  lemma {:induction false} DropAnglesKeepsOthers(s: string, c: char)
    requires c != '<' && c != '>'
    ensures multiset(DropAngles(s))[c] == multiset(s)[c]
  {
    if s != [] {
      DropAnglesKeepsOthers(s[1..], c);
      assert s == [s[0]] + s[1..];
    }
  }

  lemma {:induction false} DropAnglesFixpoint(s: string)
    ensures DropAngles(s) == s <==> '<' !in s && '>' !in s
  {
    if s != [] {
      DropAnglesFixpoint(s[1..]);
      assert s == [s[0]] + s[1..];
    }
  }

  /** A keyword is left alone exactly when it is short enough and has no angle brackets. */
  lemma SanitizeFixpoint(keyword: string)
    ensures SanitizeKeyword(keyword) == keyword <==> |keyword| <= 100 && '<' !in keyword && '>' !in keyword
  {
    if |keyword| <= 100 {
      assert keyword[..|keyword|] == keyword;
    }
    DropAnglesFixpoint(keyword[..Min(|keyword|, 100)]);
  }

  /** Sanitising twice is sanitising once. */
  lemma SanitizeIdempotent(keyword: string)
    ensures SanitizeKeyword(SanitizeKeyword(keyword)) == SanitizeKeyword(keyword)
  {
    SanitizeFixpoint(SanitizeKeyword(keyword));
  }

  /** `raw.map(sanitizeKeyword).filter(k => k.length > 0)`. */
  function CleanKeywords(raw: seq<string>): (r: seq<string>)
    ensures |r| <= |raw|
    ensures forall i :: 0 <= i < |r| ==> r[i] != "" && |r[i]| <= 100 && '<' !in r[i] && '>' !in r[i]
  {
    if raw == [] then []
    else (if SanitizeKeyword(raw[0]) != "" then [SanitizeKeyword(raw[0])] else []) + CleanKeywords(raw[1..])
  }

  /** A clean keyword is kept, and no keyword survives whose sanitised form is empty. */
  lemma {:induction false} CleanKeywordsKeeps(raw: seq<string>, k: string)
    ensures k in CleanKeywords(raw) <==> k != "" && exists i :: 0 <= i < |raw| && SanitizeKeyword(raw[i]) == k
  {
    if raw != [] {
      CleanKeywordsKeeps(raw[1..], k);
      if k in CleanKeywords(raw[1..]) {
        var i :| 0 <= i < |raw[1..]| && SanitizeKeyword(raw[1..][i]) == k;
        assert SanitizeKeyword(raw[i + 1]) == k;
      }
      if k != "" && exists i :: 0 <= i < |raw| && SanitizeKeyword(raw[i]) == k {
        var i :| 0 <= i < |raw| && SanitizeKeyword(raw[i]) == k;
        if i > 0 {
          assert raw[1..][i - 1] == raw[i];
        }
      }
    }
  }

  /** `raw.filter(k => typeof k === 'string')`. */
  function StringItems(raw: seq<Js>): (r: seq<string>)
    ensures |r| <= |raw|
  {
    if raw == [] then []
    else (if raw[0].JStr? then [raw[0].s] else []) + StringItems(raw[1..])
  }

  // ---------------------------------------------------------------------------
  // checkRateLimit

  const RateLimit: int := 30
  const RateWindow: int := 60 * 1000

  datatype RateRecord = RateRecord(count: int, timestamp: int)

  /**
   * The decision for one request from `ip` at `now` and the table after it:
   * a new or stale record restarts the window with count 1; a full window
   * refuses without change; otherwise the count goes up by one.
   */
  function RateStep(counts: map<string, RateRecord>, ip: string, now: int): (r: (map<string, RateRecord>, bool))
    ensures forall k :: k != ip ==> (k in r.0 <==> k in counts) && (k in counts ==> r.0[k] == counts[k])
    ensures !r.1 ==> r.0 == counts
    ensures r.1 <==> ip !in counts || now - counts[ip].timestamp > RateWindow || counts[ip].count < RateLimit
    ensures r.1 ==> ip in r.0 && r.0[ip].count <= RateLimit
  {
    if ip !in counts || now - counts[ip].timestamp > RateWindow then (counts[ip := RateRecord(1, now)], true)
    else if counts[ip].count >= RateLimit then (counts, false)
    else (counts[ip := RateRecord(counts[ip].count + 1, counts[ip].timestamp)], true)
  }

  /** The module-level `requestCounts` map. */
  class RateLimiter {
    var requestCounts: map<string, RateRecord>

    /** Every record counts between 1 and the limit. */
    ghost predicate Valid()
      reads this
    {
      forall ip :: ip in requestCounts ==> 1 <= requestCounts[ip].count <= RateLimit
    }

    constructor()
      ensures requestCounts == map[] && Valid()
    {
      requestCounts := map[];
    }

    /** `checkRateLimit(ip)` at time `now`. */
    method CheckRateLimit(ip: string, now: int) returns (allowed: bool)
      requires Valid()
      modifies this
      ensures Valid()
      ensures (requestCounts, allowed) == RateStep(old(requestCounts), ip, now)
    {
      if ip !in requestCounts || now - requestCounts[ip].timestamp > RateWindow {
        requestCounts := requestCounts[ip := RateRecord(1, now)];
        return true;
      }
      var rec := requestCounts[ip];
      if rec.count >= RateLimit {
        return false;
      }
      requestCounts := requestCounts[ip := rec.(count := rec.count + 1)];
      allowed := true;
    }
  }

  /** How many of the requests from `ip` at `times` are allowed, in order. */
  function AllowedCount(counts: map<string, RateRecord>, ip: string, times: seq<int>): nat
    decreases |times|
  {
    if times == [] then 0
    else
      var (next, ok) := RateStep(counts, ip, times[0]);
      (if ok then 1 else 0) + AllowedCount(next, ip, times[1..])
  }

  /** Inside the current window no more requests get through than the count leaves room for. */
  lemma {:induction false} WithinWindow(counts: map<string, RateRecord>, ip: string, times: seq<int>)
    requires ip in counts && 0 <= counts[ip].count <= RateLimit
    requires forall i :: 0 <= i < |times| ==> times[i] - counts[ip].timestamp <= RateWindow
    ensures AllowedCount(counts, ip, times) <= RateLimit - counts[ip].count
    decreases |times|
  {
    if times != [] {
      var (next, ok) := RateStep(counts, ip, times[0]);
      assert next[ip].timestamp == counts[ip].timestamp;
      WithinWindow(next, ip, times[1..]);
    }
  }

  /** A window opened at `t0` lets at most 30 requests through, however many arrive within a minute. */
  lemma AtMostThirtyPerWindow(counts: map<string, RateRecord>, ip: string, t0: int, times: seq<int>)
    requires ip !in counts || t0 - counts[ip].timestamp > RateWindow
    requires forall i :: 0 <= i < |times| ==> times[i] - t0 <= RateWindow
    ensures AllowedCount(counts, ip, [t0] + times) <= RateLimit
  {
    var (next, ok) := RateStep(counts, ip, t0);
    assert ([t0] + times)[1..] == times;
    WithinWindow(next, ip, times);
  }

  // ---------------------------------------------------------------------------
  // The handlers

  /** The URL query, as `searchParams` holds it, in order. */
  type Query = seq<(string, string)>

  /** `searchParams.getAll(name)`. */
  function GetAll(q: Query, name: string): (r: seq<string>)
    ensures |r| <= |q|
  {
    if q == [] then [] else (if q[0].0 == name then [q[0].1] else []) + GetAll(q[1..], name)
  }

  /** `searchParams.get(name)` as a JavaScript value: the first value, or `null`. */
  function Param(q: Query, name: string): Js {
    match Get(q, name)
    case Some(v) => JStr(v)
    case None => JNull
  }

  /** One search of a batch, as the route hands it to the library (limit 5). */
  datatype BatchCall = BatchKeyword(keywords: seq<string>) | BatchTitle(keywords: seq<string>) | BatchNothing

  /** The validated user context of a smart search. */
  datatype UserContext = UserContext(employmentType: Option<string>, age: Option<int>, plannedEvents: Option<seq<string>>)

  /** The answer of a handler: an error, or the library call it makes and its arguments. */
  datatype Response =
    | Failure(status: int, error: string)
    | KeywordSearch(keywords: seq<string>, limit: Num, offset: Num, lawTypes: Js)
    | TitleSearch(titleKeywords: seq<string>, limit: Num, includeRepealed: bool)
    | Recommend(employment: Option<string>, events: Option<seq<string>>, residence: Option<string>)
    | Guidance
    | TranslateTerm(term: string)
    | Personalized(employment: Option<string>, residence: Option<string>, household: Option<string>,
                   plannedEvents: seq<string>, givenAge: Option<Num>)
    | AgeLaws(age: int)
    | BatchSearch(searches: seq<BatchCall>)
    | SmartSearch(query: string, context: Option<UserContext>)

  const RateLimited: string := "Rate limit exceeded. Please try again later."
  const InternalError: string := "Internal server error"
  const InvalidGetAction: string :=
    "Invalid action. Supported actions: search_keyword, search_title, recommendations, guidance, translate_term, personalized_keywords, age_laws"

  /** `request.headers.get('x-forwarded-for') || 'unknown'`. */
  function ClientIp(forwardedFor: Option<string>): (r: string)
    ensures r != ""
  {
    if forwardedFor.Some? && forwardedFor.value != "" then forwardedFor.value else "unknown"
  }

  /** `x || 'd'` on a query value. */
  function OrText(v: Js, d: string): string {
    if Truthy(v) && v.JStr? then v.s else d
  }

  /** The `Some(list)` the library gets for a non-empty list, `None` for an empty one. */
  function NonEmpty(xs: seq<string>): Option<seq<string>> {
    if xs == [] then None else Some(xs)
  }

  /** The GET `switch (action)`, after the rate limit. */
  function GetAction(q: Query): Response {
    var action := Param(q, "action");
    if action == JStr("search_keyword") then GetKeywordSearch(q)
    else if action == JStr("search_title") then GetTitleSearch(q)
    else if action == JStr("recommendations") then GetRecommendations(q)
    else if action == JStr("guidance") then Guidance
    else if action == JStr("translate_term") then GetTranslateTerm(q)
    else if action == JStr("personalized_keywords") then GetPersonalized(q)
    else if action == JStr("age_laws") then GetAgeLaws(q)
    else Failure(400, InvalidGetAction)
  }

  /** `case 'search_keyword'`. */
  function GetKeywordSearch(q: Query): Response {
    var raw := GetAll(q, "keyword");
    if raw == [] then Failure(400, "At least one keyword is required")
    else if CleanKeywords(raw) == [] then Failure(400, "Valid keywords are required")
    else
      var limit := ParseInt(OrText(Param(q, "limit"), "10"));
      var offset := ParseInt(OrText(Param(q, "offset"), "0"));
      var lawTypes := GetAll(q, "lawType");
      KeywordSearch(CleanKeywords(raw), MinNum(limit, 50), MaxNum(offset, 0),
                    if lawTypes != [] then JArr(Strings(lawTypes)) else JUndefined)
  }

  /** `case 'search_title'`. */
  function GetTitleSearch(q: Query): Response {
    var raw := GetAll(q, "title");
    if raw == [] then Failure(400, "At least one title keyword is required")
    else if CleanKeywords(raw) == [] then Failure(400, "Valid title keywords are required")
    else
      var limit := ParseInt(OrText(Param(q, "limit"), "10"));
      TitleSearch(CleanKeywords(raw), MinNum(limit, 50), Param(q, "includeRepealed") == JStr("true"))
  }

  /** `case 'recommendations'`. */
  function GetRecommendations(q: Query): Response {
    var events := FilterMembers(Strings(GetAll(q, "plannedEvent")), ValidPlannedEvents);
    Recommend(ValidOrAbsent(Param(q, "employmentType"), ValidEmploymentTypes), NonEmpty(events),
              ValidOrAbsent(Param(q, "residenceType"), ValidResidenceTypes))
  }

  /** `case 'translate_term'`. */
  function GetTranslateTerm(q: Query): Response {
    var term := Param(q, "term");
    if !Truthy(term) || !term.JStr? then Failure(400, "Term is required") else TranslateTerm(SanitizeKeyword(term.s))
  }

  /** `case 'personalized_keywords'`. */
  function GetPersonalized(q: Query): Response {
    var household := Param(q, "householdType");
    var age := Param(q, "age");
    Personalized(ValidOrAbsent(Param(q, "employmentType"), ValidEmploymentTypes),
                 ValidOrAbsent(Param(q, "residenceType"), ValidResidenceTypes),
                 if Truthy(household) && household.JStr? then Some(household.s) else None,
                 FilterMembers(Strings(GetAll(q, "plannedEvent")), ValidPlannedEvents),
                 if Truthy(age) && age.JStr? then Some(ParseInt(age.s)) else None)
  }

  /** `case 'age_laws'`. */
  function GetAgeLaws(q: Query): Response {
    var age := Param(q, "age");
    if !Truthy(age) || !age.JStr? || ParseInt(age.s) == NaN then Failure(400, "Valid age is required")
    else AgeLaws(ParseInt(age.s).i)
  }

  /** `GET`: the rate limit, then the action. */
  method HandleGet(limiter: RateLimiter, forwardedFor: Option<string>, now: int, q: Query) returns (r: Response)
    requires limiter.Valid()
    modifies limiter
    ensures limiter.Valid()
    ensures limiter.requestCounts == RateStep(old(limiter.requestCounts), ClientIp(forwardedFor), now).0
    ensures r == if RateStep(old(limiter.requestCounts), ClientIp(forwardedFor), now).1 then GetAction(q)
                 else Failure(429, RateLimited)
  {
    var allowed := limiter.CheckRateLimit(ClientIp(forwardedFor), now);
    if !allowed {
      return Failure(429, RateLimited);
    }
    r := GetAction(q);
  }

  /** The keyword list a batch entry or a POST search carries: the string items, sanitised, empty ones dropped. */
  function BodyKeywords(v: Js): (r: seq<string>)
    ensures forall i :: 0 <= i < |r| ==> r[i] != "" && |r[i]| <= 100 && '<' !in r[i] && '>' !in r[i]
  {
    if v.JArr? then CleanKeywords(StringItems(v.items)) else []
  }

  /** One entry of `searches.map(...)`: a `null` or missing entry throws. */
  function BatchEntry(search: Js): Result<BatchCall> {
    if search == JNull || search == JUndefined then Err(NullAccessMessage(search, "keywords"))
    else
      var keywords := BodyKeywords(Prop(search, "keywords"));
      if keywords == [] then Ok(BatchNothing)
      else if Prop(search, "type") == JStr("keyword") then Ok(BatchKeyword(keywords))
      else if Prop(search, "type") == JStr("title") then Ok(BatchTitle(keywords))
      else Ok(BatchNothing)
  }

  /** `Promise.all(searches.map(...))`: every entry, or the first failure. */
  function BatchEntries(searches: seq<Js>): (r: Result<seq<BatchCall>>)
    ensures r.Ok? ==> |r.value| == |searches|
  {
    if searches == [] then Ok([])
    else
      match BatchEntry(searches[0])
      case Err(m) => Err(m)
      case Ok(c) =>
        match BatchEntries(searches[1..])
        case Err(m) => Err(m)
        case Ok(cs) => Ok([c] + cs)
  }

  /** The POST `switch (action)` on a parsed body. */
  function PostAction(body: Js): Response
    requires body != JUndefined
  {
    if body == JNull then Failure(500, InternalError)
    else
      var action := Prop(body, "action");
      if action == JStr("search_keyword") then PostKeywordSearch(body)
      else if action == JStr("recommendations") then PostRecommendations(body)
      else if action == JStr("batch_search") then PostBatchSearch(body)
      else if action == JStr("smart_search") then PostSmartSearch(body)
      else Failure(400, "Invalid action")
  }

  /** `case 'search_keyword'`, with the destructuring defaults `limit = 10, offset = 0`. */
  function PostKeywordSearch(body: Js): Response {
    var raw := Prop(body, "keywords");
    if !Truthy(raw) || !raw.JArr? || raw.items == [] then Failure(400, "Keywords array is required")
    else if BodyKeywords(raw) == [] then Failure(400, "Valid keywords are required")
    else
      var limit := if Prop(body, "limit") == JUndefined then JNum(10) else Prop(body, "limit");
      var offset := if Prop(body, "offset") == JUndefined then JNum(0) else Prop(body, "offset");
      KeywordSearch(BodyKeywords(raw), Int(Min(OrDefault(ToNumber(limit), 10), 50)),
                    Int(Max(OrDefault(ToNumber(offset), 0), 0)), Prop(body, "lawTypes"))
  }

  /** `case 'recommendations'`. */
  function PostRecommendations(body: Js): Response {
    var events := Prop(body, "plannedEvents");
    var valid := if events.JArr? then FilterMembers(events.items, ValidPlannedEvents) else [];
    Recommend(ValidOrAbsent(Prop(body, "employmentType"), ValidEmploymentTypes), NonEmpty(valid),
              ValidOrAbsent(Prop(body, "residenceType"), ValidResidenceTypes))
  }

  /** `case 'batch_search'`. */
  function PostBatchSearch(body: Js): Response {
    var searches := Prop(body, "searches");
    if !Truthy(searches) || !searches.JArr? then Failure(400, "Searches array is required")
    else if |searches.items| > 5 then Failure(400, "Maximum 5 searches per batch")
    else
      match BatchEntries(searches.items)
      case Err(_) => Failure(500, InternalError)
      case Ok(calls) => BatchSearch(calls)
  }

  /** `case 'smart_search'`. */
  function PostSmartSearch(body: Js): Response {
    var query := Prop(body, "query");
    if !Truthy(query) || !query.JStr? then Failure(400, "Query string is required")
    else if SanitizeKeyword(query.s) == "" then Failure(400, "Valid query is required")
    else
      var ctx := Prop(body, "userContext");
      SmartSearch(SanitizeKeyword(query.s),
        if !Truthy(ctx) then None
        else
          var events := Prop(ctx, "plannedEvents");
          var age := Prop(ctx, "age");
          Some(UserContext(ValidOrAbsent(Prop(ctx, "employmentType"), ValidEmploymentTypes),
                           if age.JNum? then Some(age.n) else None,
                           if events.JArr? then Some(FilterMembers(events.items, ValidPlannedEvents)) else None)))
  }

  /** `POST`: the rate limit, then the body (`None` when it is not valid JSON, which throws), then the action. */
  method HandlePost(limiter: RateLimiter, forwardedFor: Option<string>, now: int, body: Option<Js>) returns (r: Response)
    requires limiter.Valid()
    requires body.Some? ==> body.value != JUndefined
    modifies limiter
    ensures limiter.Valid()
    ensures limiter.requestCounts == RateStep(old(limiter.requestCounts), ClientIp(forwardedFor), now).0
    ensures r == if !RateStep(old(limiter.requestCounts), ClientIp(forwardedFor), now).1 then Failure(429, RateLimited)
                 else if body.None? then Failure(500, InternalError)
                 else PostAction(body.value)
  {
    var allowed := limiter.CheckRateLimit(ClientIp(forwardedFor), now);
    if !allowed {
      return Failure(429, RateLimited);
    }
    if body.None? {
      return Failure(500, InternalError);
    }
    r := PostAction(body.value);
  }

  // ---------------------------------------------------------------------------
  // What the handlers promise

  /**
   * A GET keyword search reaches the library only with at least one clean
   * keyword, a limit that is at most 50 and an offset that is at least 0;
   * a limit or offset that does not parse stays `NaN`.
   */
  lemma GetKeywordSearchBounds(q: Query)
    requires GetKeywordSearch(q).KeywordSearch?
    ensures var r := GetKeywordSearch(q);
      && r.keywords != []
      && (forall i :: 0 <= i < |r.keywords| ==> |r.keywords[i]| <= 100 && '<' !in r.keywords[i] && '>' !in r.keywords[i])
      && (r.limit == NaN || r.limit.i <= 50)
      && (r.offset == NaN || r.offset.i >= 0)
  {
  }

  /** A GET keyword search with no usable keyword is refused with 400. */
  lemma GetKeywordsRequired(q: Query)
    ensures GetKeywordSearch(q).KeywordSearch? <==> CleanKeywords(GetAll(q, "keyword")) != []
    ensures !GetKeywordSearch(q).KeywordSearch? ==> GetKeywordSearch(q).Failure? && GetKeywordSearch(q).status == 400
  {
  }

  /** A POST keyword search always has a numeric limit of at most 50 and a numeric offset of at least 0. */
  lemma PostKeywordSearchBounds(body: Js)
    requires PostKeywordSearch(body).KeywordSearch?
    ensures var r := PostKeywordSearch(body);
      r.keywords != [] && r.limit.Int? && r.limit.i <= 50 && r.offset.Int? && r.offset.i >= 0
  {
  }

  /** A batch of more than five searches is refused; an accepted batch has one call per entry. */
  lemma BatchSizeBound(body: Js)
    ensures var s := Prop(body, "searches");
      s.JArr? && |s.items| > 5 ==> PostBatchSearch(body) == Failure(400, "Maximum 5 searches per batch")
    ensures PostBatchSearch(body).BatchSearch? ==>
      Prop(body, "searches").JArr? && |PostBatchSearch(body).searches| == |Prop(body, "searches").items| <= 5
  {
  }

  predicate ValidRecommendation(r: Response)
    requires r.Recommend?
  {
    && (r.employment.Some? ==> r.employment.value in ValidEmploymentTypes)
    && (r.residence.Some? ==> r.residence.value in ValidResidenceTypes)
    && (r.events.Some? ==> r.events.value != [] && forall i :: 0 <= i < |r.events.value| ==> r.events.value[i] in ValidPlannedEvents)
  }

  /** GET recommendations only ever receive values from the enumerations, and no empty event list. */
  lemma GetRecommendationsValidated(q: Query)
    ensures ValidRecommendation(GetRecommendations(q))
  {
  }

  /** POST recommendations only ever receive values from the enumerations, and no empty event list. */
  lemma PostRecommendationsValidated(body: Js)
    ensures ValidRecommendation(PostRecommendations(body))
  {
  }
}
