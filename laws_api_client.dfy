/**
 * The application's e-Gov Laws API v2 client (`LawsAPIClient`): URL building
 * from a parameter record, the HTTP outcome mapping of `makeRequest` (the
 * 404001 "no results" marker, other failures thrown), and the mapping of a
 * reply or a failure into the keyword-search and title-search envelopes. The
 * HTTP exchange is an input (`HttpReply`); JSON bodies are `Js` values.
 */
module LawsApiClient {
  import opened Common

  const BaseUrl: string := "https://laws.e-gov.go.jp/api/2"

  // ---------------------------------------------------------------------------
  // buildUrl

  type Params = seq<(string, Js)>

  /** The entries `buildUrl` copies into `cleanParams`: defined, non-null values, stringified. */
  function Cleaned(params: Params): seq<(string, string)> {
    if params == [] then []
    else
      var rest := Cleaned(params[..|params| - 1]);
      var (k, v) := params[|params| - 1];
      if v == JUndefined || v == JNull then rest else rest + [(k, JsString(v))]
  }

  /** Characters `URLSearchParams` leaves as they are: ASCII letters, digits and `*-._`. */
  predicate FormSafe(c: char) {
    ('A' <= c <= 'Z') || ('a' <= c <= 'z') || ('0' <= c <= '9') || c == '*' || c == '-' || c == '.' || c == '_'
  }

  /** Characters `encodeURIComponent` leaves as they are: ASCII letters, digits and `-_.!~*'()`. */
  predicate ComponentSafe(c: char) {
    ('A' <= c <= 'Z') || ('a' <= c <= 'z') || ('0' <= c <= '9')
    || c == '-' || c == '_' || c == '.' || c == '!' || c == '~' || c == '*' || c == '\'' || c == '(' || c == ')'
  }

  /** The `application/x-www-form-urlencoded` serialiser: space becomes `+`, the rest is UTF-8 percent-encoded. */
  function FormEncode(s: string): (r: string)
    ensures forall i :: 0 <= i < |r| ==> FormSafe(r[i]) || r[i] == '+' || r[i] == '%'
  {
    if s == [] then ""
    else (if FormSafe(s[0]) then [s[0]] else if s[0] == ' ' then "+" else PercentBytes(Utf8(s[0]))) + FormEncode(s[1..])
  }

  /** `encodeURIComponent`. */
  function EncodeComponent(s: string): (r: string)
    ensures forall i :: 0 <= i < |r| ==> ComponentSafe(r[i]) || r[i] == '%'
  {
    if s == [] then ""
    else (if ComponentSafe(s[0]) then [s[0]] else PercentBytes(Utf8(s[0]))) + EncodeComponent(s[1..])
  }

  /** `new URLSearchParams(clean).toString()`. */
  function QueryString(clean: seq<(string, string)>): string {
    if clean == [] then ""
    else
      var pair := FormEncode(clean[0].0) + "=" + FormEncode(clean[0].1);
      if |clean| == 1 then pair else pair + "&" + QueryString(clean[1..])
  }

  /** The URL for an endpoint, the cleaned parameters and an optional path parameter. */
  function UrlOf(endpoint: string, clean: seq<(string, string)>, pathParam: Option<string>): string {
    var withPath := PathOf(endpoint, pathParam);
    var qs := QueryString(clean);
    if qs != "" then withPath + "?" + qs else withPath
  }

  /** `buildUrl`: the cleaning loop, then the path segment and the query string. */
  method BuildUrl(endpoint: string, params: Params, pathParam: Option<string>) returns (url: string)
    ensures url == UrlOf(endpoint, Cleaned(params), pathParam)
  {
    var cleanParams: seq<(string, string)> := [];
    var i := 0;
    while i < |params|
      invariant 0 <= i <= |params|
      invariant cleanParams == Cleaned(params[..i])
    {
      assert params[..i + 1][..i] == params[..i];
      var (key, value) := params[i];
      if value != JUndefined && value != JNull {
        cleanParams := cleanParams + [(key, JsString(value))];
      }
      i := i + 1;
    }
    assert params[..|params|] == params;
    var queryString := QueryString(cleanParams);
    url := BaseUrl + "/" + endpoint;
    if pathParam.Some? && pathParam.value != "" {
      url := url + "/" + EncodeComponent(pathParam.value);
    }
    if queryString != "" {
      url := url + "?" + queryString;
    }
  }

  /** A key survives cleaning exactly when its value is neither `undefined` nor `null`, with its `String` form. */
  lemma {:induction false} CleanedSpec(params: Params)
    ensures forall e :: e in Cleaned(params) <==>
      exists i :: 0 <= i < |params| && params[i].1 != JUndefined && params[i].1 != JNull
                  && e == (params[i].0, JsString(params[i].1))
  {
    if params != [] {
      var p := params[..|params| - 1];
      CleanedSpec(p);
      assert forall i :: 0 <= i < |p| ==> p[i] == params[i];
    }
  }

  lemma {:induction false} CleanedEmpty(params: Params)
    ensures Cleaned(params) == [] <==> forall i :: 0 <= i < |params| ==> params[i].1 == JUndefined || params[i].1 == JNull
  {
    if params != [] {
      var p := params[..|params| - 1];
      CleanedEmpty(p);
      assert forall i :: 0 <= i < |p| ==> p[i] == params[i];
    }
  }

  lemma {:induction false} QueryStringShape(clean: seq<(string, string)>)
    ensures QueryString(clean) == "" <==> clean == []
    ensures '?' !in QueryString(clean)
  {
    if clean != [] {
      var pair := FormEncode(clean[0].0) + "=" + FormEncode(clean[0].1);
      assert pair[|FormEncode(clean[0].0)|] == '=';
      QueryStringShape(clean[1..]);
      assert '?' !in FormEncode(clean[0].0) && '?' !in FormEncode(clean[0].1);
    }
  }

  /** An encoded path parameter contains no `/` and no `?`: it is exactly one path segment. */
  lemma EncodedSegment(p: string)
    ensures '/' !in EncodeComponent(p) && '?' !in EncodeComponent(p)
  {
  }

  /** The URL without its query: the endpoint, then the encoded path parameter as its own segment when one is given. */
  function PathOf(endpoint: string, pathParam: Option<string>): string {
    if pathParam.Some? && pathParam.value != "" then BaseUrl + "/" + endpoint + "/" + EncodeComponent(pathParam.value)
    else BaseUrl + "/" + endpoint
  }

  lemma PathOfNoQuery(endpoint: string, pathParam: Option<string>)
    requires '?' !in endpoint
    ensures '?' !in PathOf(endpoint, pathParam)
  {
    if pathParam.Some? && pathParam.value != "" {
      EncodedSegment(pathParam.value);
    }
  }

  /** The URL carries `?` exactly when some parameter is defined and not null. */
  lemma BuildUrlSpec(endpoint: string, params: Params, pathParam: Option<string>)
    requires '?' !in endpoint
    ensures '?' in UrlOf(endpoint, Cleaned(params), pathParam) <==>
      exists i :: 0 <= i < |params| && params[i].1 != JUndefined && params[i].1 != JNull
  {
    var clean := Cleaned(params);
    CleanedEmpty(params);
    QueryStringShape(clean);
    PathOfNoQuery(endpoint, pathParam);
    var withPath := PathOf(endpoint, pathParam);
    if clean != [] {
      var url := withPath + "?" + QueryString(clean);
      assert url[|withPath|] == '?';
    } else {
      assert UrlOf(endpoint, clean, pathParam) == withPath;
    }
  }

  /** The URL starts with its path; the query, if any, only follows it. */
  lemma UrlStartsWithPath(endpoint: string, clean: seq<(string, string)>, pathParam: Option<string>)
    ensures var path := PathOf(endpoint, pathParam);
      UrlOf(endpoint, clean, pathParam)[..|path|] == path
  {
  }

  // ---------------------------------------------------------------------------
  // Search parameters

  datatype SearchOptions = SearchOptions(lawType: Option<seq<string>>, category: Option<seq<string>>, asOf: Option<string>,
                                         offset: Option<int>, limit: Option<int>)
  /** An optional parameter: present only when `sent`. */
  function Optional(key: string, sent: bool, v: Js): Params {
    if sent then [(key, v)] else []
  }

  /** The parameter record of `searchByKeyword` (`first` is `keyword`) or `searchByTitle` (`first` is `law_title`). */
  function SearchParams(first: string, value: string, o: SearchOptions): Params {
    [(first, JStr(value)), ("offset", JNum(o.offset.GetOr(0))), ("limit", JNum(o.limit.GetOr(10)))]
    + Optional("law_type", o.lawType.Some? && o.lawType.value != [], JStr(Join(o.lawType.GetOr([]), ",")))
    + Optional("category", o.category.Some? && o.category.value != [], JStr(Join(o.category.GetOr([]), ",")))
    + Optional("asof", o.asOf.Some? && o.asOf.value != "", JStr(o.asOf.GetOr("")))
  }

  /** An optional entry contributes its key exactly when it is sent. */
  lemma OptionalKeysOf(key: string, sent: bool, v: Js)
    ensures KeysOf(Optional(key, sent, v)) == if sent then [key] else []
  {
  }

  /** The keys of a search record: the first three always, the optional ones when sent. */
  lemma SearchParamsKeys(first: string, value: string, o: SearchOptions)
    ensures KeysOf(SearchParams(first, value, o)) ==
      [first, "offset", "limit"]
      + (if o.lawType.Some? && o.lawType.value != [] then ["law_type"] else [])
      + (if o.category.Some? && o.category.value != [] then ["category"] else [])
      + (if o.asOf.Some? && o.asOf.value != "" then ["asof"] else [])
  {
    var base: Params := [(first, JStr(value)), ("offset", JNum(o.offset.GetOr(0))), ("limit", JNum(o.limit.GetOr(10)))];
    var x := Optional("law_type", o.lawType.Some? && o.lawType.value != [], JStr(Join(o.lawType.GetOr([]), ",")));
    var y := Optional("category", o.category.Some? && o.category.value != [], JStr(Join(o.category.GetOr([]), ",")));
    var z := Optional("asof", o.asOf.Some? && o.asOf.value != "", JStr(o.asOf.GetOr("")));
    assert SearchParams(first, value, o) == base + x + y + z;
    assert KeysOf(base) == [first, "offset", "limit"];
    OptionalKeysOf("law_type", o.lawType.Some? && o.lawType.value != [], JStr(Join(o.lawType.GetOr([]), ",")));
    OptionalKeysOf("category", o.category.Some? && o.category.value != [], JStr(Join(o.category.GetOr([]), ",")));
    OptionalKeysOf("asof", o.asOf.Some? && o.asOf.value != "", JStr(o.asOf.GetOr("")));
    KeysOfAppend(base, x);
    KeysOfAppend(base + x, y);
    KeysOfAppend(base + x + y, z);
  }

  /** The optional keys differ from each other and from the fixed ones. */
  lemma OptionalKeys()
    ensures "law_type" !in ["keyword", "law_title", "offset", "limit", "category", "asof"]
    ensures "category" !in ["keyword", "law_title", "offset", "limit", "law_type", "asof"]
    ensures "asof" !in ["keyword", "law_title", "offset", "limit", "law_type", "category"]
  {
    assert "law_type"[0] == 'l' && "law_type"[1] == 'a' && "law_type"[3] == '_';
    assert "law_title"[4] == 't';
  }

  /**
   * Offset and limit default to 0 and 10, and nothing sent is undefined or
   * null, so cleaning keeps every entry.
   */
  lemma SearchParamsDefaults(first: string, value: string, o: SearchOptions)
    ensures var p := SearchParams(first, value, o);
      && p[..3] == [(first, JStr(value)), ("offset", JNum(o.offset.GetOr(0))), ("limit", JNum(o.limit.GetOr(10)))]
      && forall i :: 0 <= i < |p| ==> p[i].1 != JUndefined && p[i].1 != JNull
  {
  }

  /** `law_type` is sent, comma-joined, exactly for a non-empty list of law types. */
  lemma SearchParamsLawType(first: string, value: string, o: SearchOptions)
    requires first == "keyword" || first == "law_title"
    ensures var p := SearchParams(first, value, o);
      && ("law_type" in KeysOf(p) <==> o.lawType.Some? && o.lawType.value != [])
      && (o.lawType.Some? && o.lawType.value != [] ==> ("law_type", JStr(Join(o.lawType.value, ","))) in p)
  {
    SearchParamsKeys(first, value, o);
    OptionalKeys();
  }

  /** `category` is sent, comma-joined, exactly for a non-empty list of categories. */
  lemma SearchParamsCategory(first: string, value: string, o: SearchOptions)
    requires first == "keyword" || first == "law_title"
    ensures var p := SearchParams(first, value, o);
      && ("category" in KeysOf(p) <==> o.category.Some? && o.category.value != [])
      && (o.category.Some? && o.category.value != [] ==> ("category", JStr(Join(o.category.value, ","))) in p)
  {
    SearchParamsKeys(first, value, o);
    OptionalKeys();
  }

  /** `asof` is sent exactly when a non-empty date is given. */
  lemma SearchParamsAsOf(first: string, value: string, o: SearchOptions)
    requires first == "keyword" || first == "law_title"
    ensures var p := SearchParams(first, value, o);
      && ("asof" in KeysOf(p) <==> o.asOf.Some? && o.asOf.value != "")
      && (o.asOf.Some? && o.asOf.value != "" ==> ("asof", JStr(o.asOf.value)) in p)
  {
    SearchParamsKeys(first, value, o);
    OptionalKeys();
  }

  // ---------------------------------------------------------------------------
  // makeRequest

  /** What the server answered for a URL: a status and a JSON body, or a failure before any answer. */
  datatype HttpReply = Reply(status: int, body: Js) | NetworkError(message: string)

  /** The marker `makeRequest` returns for a 404 whose body code is 404001. */
  const NoResults: Js := JObj([("results", JArr([])), ("total_count", JNum(0)), ("error", JStr("no_results"))])

  /**
   * `makeRequest`: a 2xx body is returned; a 404 with code "404001" becomes
   * the no-results marker; any other failure is thrown (`Err`).
   */
  function MakeRequest(reply: HttpReply): (r: Result<Js>)
    ensures reply.Reply? && 200 <= reply.status <= 299 ==> r == Ok(reply.body)
    ensures reply.Reply? && reply.status == 404 && Prop(reply.body, "code") == JStr("404001") ==> r == Ok(NoResults)
    ensures r.Ok? ==> reply.Reply? && (200 <= reply.status <= 299 || (reply.status == 404 && r.value == NoResults))
  {
    match reply
    case NetworkError(m) => Err(m)
    case Reply(status, body) =>
      if 200 <= status <= 299 then Ok(body)
      else if status == 404 then
        match StrictProp(body, "code")
        case Err(m) => Err(m)
        case Ok(code) =>
          if code == JStr("404001") then Ok(NoResults)
          else
            var message := Prop(body, "message");
            Err(if Truthy(message) then JsString(message) else "HTTP 404")
      else Err("HTTP " + IntToString(status))
  }

  // ---------------------------------------------------------------------------
  // Envelopes

  datatype MatchedSentence = MatchedSentence(articleNum: Js, articleTitle: Js, sentence: Js, highlightedSentence: Js)

  datatype Item = Item(lawId: Js, lawNum: Js, lawTitle: Js, lawType: Js, category: Js, promulgationDate: Js,
                       matchedSentences: Option<seq<MatchedSentence>>)

  datatype KeywordResponse = KeywordResponse(totalCount: Js, sentenceCount: Js, items: seq<Item>, hasError: bool,
                                             errorMessage: Js)

  datatype TitleResponse = TitleResponse(totalCount: Js, items: seq<Item>, hasError: bool, errorMessage: Js)

  const NoResultsMessage: string := "検索結果が見つかりませんでした"

  /** `x.a?.b`. */
  function Chain(x: Js, a: string, b: string): Js {
    Prop(Prop(x, a), b)
  }

  /** `(xs || []).map(f)` needs an array: a truthy non-array has no `map`. */
  function ListOr(v: Js, what: string): Result<seq<Js>> {
    if !Truthy(v) then Ok([]) else if v.JArr? then Ok(v.items) else Err(what + ".map is not a function")
  }

  function SentenceOf(s: Js): Result<MatchedSentence> {
    if s == JNull || s == JUndefined then Err(NullAccessMessage(s, "article_info"))
    else Ok(MatchedSentence(Or(Chain(s, "article_info", "article_num"), JStr("")), Chain(s, "article_info", "article_title"),
                            Or(Prop(s, "sentence"), JStr("")), Prop(s, "highlighted_sentence")))
  }

  function SentencesOf(ss: seq<Js>): (r: Result<seq<MatchedSentence>>)
    ensures r.Ok? ==> |r.value| == |ss|
  {
    if ss == [] then Ok([])
    else
      match SentenceOf(ss[0])
      case Err(m) => Err(m)
      case Ok(s) =>
        match SentencesOf(ss[1..])
        case Err(m) => Err(m)
        case Ok(rest) => Ok([s] + rest)
  }

  /** One keyword-search item. */
  function KeywordItem(item: Js): Result<Item> {
    if item == JNull || item == JUndefined then Err(NullAccessMessage(item, "law_info"))
    else
      match ListOr(Prop(item, "sentences"), "(item.sentences || [])")
      case Err(m) => Err(m)
      case Ok(ss) =>
        match SentencesOf(ss)
        case Err(m) => Err(m)
        case Ok(sentences) =>
          Ok(Item(Or(Chain(item, "law_info", "law_id"), JStr("")), Or(Chain(item, "law_info", "law_num"), JStr("")),
                  Or(Chain(item, "law_info", "law_title"), JStr("")), Or(Chain(item, "law_info", "law_type"), JStr("Misc")),
                  Or(Chain(item, "law_info", "category"), JStr("")),
                  Or(Chain(item, "revision_info", "promulgation_date"), JStr("")), Some(sentences)))
  }

  /** `item.x || item.law_info?.x || d`. */
  function Either(item: Js, x: string, info: string, d: string): Js {
    Or(Or(Prop(item, x), Chain(item, info, x)), JStr(d))
  }

  /** One title-search item: the flat field first, then the nested one. */
  function TitleItem(item: Js): Result<Item> {
    if item == JNull || item == JUndefined then Err(NullAccessMessage(item, "law_id"))
    else Ok(Item(Either(item, "law_id", "law_info", ""), Either(item, "law_num", "law_info", ""),
                 Either(item, "law_title", "law_info", ""), Either(item, "law_type", "law_info", "Misc"),
                 Either(item, "category", "law_info", ""), Either(item, "promulgation_date", "revision_info", ""), None))
  }

  /** `xs.map(f)` where `f` may throw: the first exception wins. */
  function MapItems(xs: seq<Js>, title: bool): (r: Result<seq<Item>>)
    ensures r.Ok? ==> |r.value| == |xs|
  {
    if xs == [] then Ok([])
    else
      match (if title then TitleItem(xs[0]) else KeywordItem(xs[0]))
      case Err(m) => Err(m)
      case Ok(x) =>
        match MapItems(xs[1..], title)
        case Err(m) => Err(m)
        case Ok(rest) => Ok([x] + rest)
  }

  function KeywordFailure(message: Js): KeywordResponse {
    KeywordResponse(JNum(0), JNum(0), [], true, message)
  }

  /** The envelope for the data `makeRequest` produced (or the exception it raised). */
  function KeywordEnvelope(fetched: Result<Js>): KeywordResponse {
    match fetched
    case Err(m) => KeywordFailure(JStr(m))
    case Ok(data) =>
      match StrictProp(data, "error")
      case Err(m) => KeywordFailure(JStr(m))
      case Ok(error) =>
        if Truthy(error) then
          KeywordFailure(if error == JStr("no_results") then JStr(NoResultsMessage) else Prop(data, "message"))
        else
          match ListOr(Prop(data, "items"), "(data.items || [])")
          case Err(m) => KeywordFailure(JStr(m))
          case Ok(raw) =>
            match MapItems(raw, false)
            case Err(m) => KeywordFailure(JStr(m))
            case Ok(items) =>
              KeywordResponse(Or(Prop(data, "total_count"), JNum(0)), Or(Prop(data, "sentence_count"), JNum(0)), items, false, JUndefined)
  }

  /** `searchByKeyword`: the URL it requests and the envelope it returns for the server's reply. */
  method SearchByKeyword(keyword: string, o: SearchOptions, reply: HttpReply) returns (url: string, r: KeywordResponse)
    ensures url == UrlOf("laws", Cleaned(SearchParams("keyword", keyword, o)), None)
    ensures r == KeywordEnvelope(MakeRequest(reply))
  {
    url := BuildUrl("laws", SearchParams("keyword", keyword, o), None);
    r := KeywordEnvelope(MakeRequest(reply));
  }

  function TitleFailure(message: Js): TitleResponse {
    TitleResponse(JNum(0), [], true, message)
  }

  function TitleEnvelope(fetched: Result<Js>): TitleResponse {
    match fetched
    case Err(m) => TitleFailure(JStr(m))
    case Ok(data) =>
      match StrictProp(data, "error")
      case Err(m) => TitleFailure(JStr(m))
      case Ok(error) =>
        if Truthy(error) then
          TitleFailure(if error == JStr("no_results") then JStr(NoResultsMessage) else Prop(data, "message"))
        else
          match ListOr(Or(Prop(data, "laws"), Prop(data, "items")), "(data.laws || data.items || [])")
          case Err(m) => TitleFailure(JStr(m))
          case Ok(raw) =>
            match MapItems(raw, true)
            case Err(m) => TitleFailure(JStr(m))
            case Ok(items) => TitleResponse(Or(Prop(data, "total_count"), JNum(|items|)), items, false, JUndefined)
  }

  /** `searchByTitle`: the URL it requests and the envelope it returns for the server's reply. */
  method SearchByTitle(title: string, o: SearchOptions, reply: HttpReply) returns (url: string, r: TitleResponse)
    ensures url == UrlOf("laws", Cleaned(SearchParams("law_title", title, o)), None)
    ensures r == TitleEnvelope(MakeRequest(reply))
  {
    url := BuildUrl("laws", SearchParams("law_title", title, o), None);
    r := TitleEnvelope(MakeRequest(reply));
  }

  /**
   * Every failure — a thrown request, a reply carrying `error` — gives
   * `hasError` with zero counts and no items; the 404001 reply gives the fixed
   * "no results" message; a success has no error.
   */
  lemma EnvelopeErrors(reply: HttpReply)
    ensures var k := KeywordEnvelope(MakeRequest(reply));
      && (k.hasError ==> k.items == [] && k.totalCount == JNum(0) && k.sentenceCount == JNum(0))
      && (MakeRequest(reply).Err? ==> k.hasError && k.errorMessage == JStr(MakeRequest(reply).error))
      && (MakeRequest(reply).Ok? && Truthy(Prop(MakeRequest(reply).value, "error")) ==> k.hasError)
    ensures var t := TitleEnvelope(MakeRequest(reply));
      && (t.hasError ==> t.items == [] && t.totalCount == JNum(0))
      && (MakeRequest(reply).Err? ==> t.hasError && t.errorMessage == JStr(MakeRequest(reply).error))
      && (MakeRequest(reply).Ok? && Truthy(Prop(MakeRequest(reply).value, "error")) ==> t.hasError)
  {
  }

  /** A 404 with body code 404001 is reported as an error envelope with the fixed Japanese message. */
  lemma NoResultsEnvelope(body: Js)
    requires Prop(body, "code") == JStr("404001")
    ensures KeywordEnvelope(MakeRequest(Reply(404, body))) == KeywordFailure(JStr(NoResultsMessage))
    ensures TitleEnvelope(MakeRequest(Reply(404, body))) == TitleFailure(JStr(NoResultsMessage))
  {
  }

  /** Any other non-2xx status is thrown, so the envelope is an error carrying its message. */
  lemma OtherStatusThrows(status: int, body: Js)
    requires !(200 <= status <= 299) && status != 404
    ensures MakeRequest(Reply(status, body)) == Err("HTTP " + IntToString(status))
    ensures KeywordEnvelope(MakeRequest(Reply(status, body))) == KeywordFailure(JStr("HTTP " + IntToString(status)))
  {
  }

  /** A title search whose `total_count` is absent or 0 reports the number of items instead. */
  lemma TitleTotalFallback(data: Js)
    requires data.JObj? && !Truthy(Prop(data, "error")) && !Truthy(Prop(data, "total_count"))
    requires TitleEnvelope(Ok(data)).hasError == false
    ensures TitleEnvelope(Ok(data)).totalCount == JNum(|TitleEnvelope(Ok(data)).items|)
  {
  }
}
