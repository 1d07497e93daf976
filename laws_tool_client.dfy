/**
 * The request side of the e-Gov law-search tool: `LawsAPIClient.call_api`
 * (parameter cleaning, query-string encoding, URL building) and the
 * outcome mapping of `LawsAPIClient._make_request` (the 404001 "no results"
 * reply, other HTTP errors, transport failures). The network call itself is
 * an input: the gateway's answer is given as an `HttpOutcome`.
 */
module LawsToolClient {
  import opened Common

  const BaseUrl: string := "https://laws.e-gov.go.jp/api/2"

  /** A non-list parameter value, as Python's `str()` renders it. */
  datatype Scalar = SText(text: string) | SInt(n: int) | SBool(b: bool)

  /** A parameter value: `None`, a scalar, or a list of scalars. */
  datatype ParamValue = PNone | PScalar(v: Scalar) | PList(items: seq<Scalar>)

  type Params = seq<(string, ParamValue)>

  function Str(v: Scalar): string {
    match v
    case SText(t) => t
    case SInt(n) => IntToString(n)
    case SBool(b) => if b then "True" else "False"
  }

  function StrAll(vs: seq<Scalar>): (r: seq<string>)
    ensures |r| == |vs| && forall i :: 0 <= i < |vs| ==> r[i] == Str(vs[i])
  {
    seq(|vs|, i requires 0 <= i < |vs| => Str(vs[i]))
  }

  /** The cleaned value of a non-`None` parameter: lists are comma-joined, the rest stringified. */
  function CleanValue(v: ParamValue): string
    requires v != PNone
  {
    match v
    case PList(items) => Join(StrAll(items), ",")
    case PScalar(s) => Str(s)
  }

  /** Specification of the cleaning loop: drop `None`, clean the rest, keep the order. */
  function Cleaned(params: Params): seq<(string, string)> {
    if params == [] then []
    else
      var rest := Cleaned(params[..|params| - 1]);
      var (k, v) := params[|params| - 1];
      if v == PNone then rest else rest + [(k, CleanValue(v))]
  }

  /** The source's parameter mapping is a dict: no key occurs twice. */
  predicate UniqueKeys(params: Params) {
    forall i, j :: 0 <= i < j < |params| ==> params[i].0 != params[j].0
  }

  /**
   * Every non-`None` parameter survives with its cleaned value, everything
   * that survives comes from a non-`None` parameter, and a key whose value is
   * `None` does not appear at all.
   */
  lemma {:induction false} CleanedSpec(params: Params)
    ensures forall i :: 0 <= i < |params| && params[i].1 != PNone ==>
      (params[i].0, CleanValue(params[i].1)) in Cleaned(params)
    ensures forall e :: e in Cleaned(params) ==>
      exists i :: 0 <= i < |params| && params[i].1 != PNone && e == (params[i].0, CleanValue(params[i].1))
    ensures UniqueKeys(params) ==> forall i, e :: 0 <= i < |params| && params[i].1 == PNone && e in Cleaned(params) ==>
      e.0 != params[i].0
  {
    if params != [] {
      var p := params[..|params| - 1];
      CleanedSpec(p);
      assert forall i :: 0 <= i < |p| ==> p[i] == params[i];
    }
  }

  /** An entry-by-entry copy loop, as `call_api` writes into `clean_params`. */
  method CleanParams(params: Params) returns (clean: seq<(string, string)>)
    ensures clean == Cleaned(params)
  {
    clean := [];
    var i := 0;
    while i < |params|
      invariant 0 <= i <= |params|
      invariant clean == Cleaned(params[..i])
    {
      assert params[..i + 1][..i] == params[..i];
      var (k, v) := params[i];
      if v != PNone {
        clean := clean + [(k, CleanValue(v))];
      }
      i := i + 1;
    }
    assert params[..|params|] == params;
  }

  // ---------------------------------------------------------------------------
  // Percent-encoding (`urllib.parse.quote` with no safe characters, `quote_plus`)

  /** Characters `quote` never encodes: ASCII letters, digits and `_.-~`. */
  predicate AlwaysSafe(c: char) {
    ('A' <= c <= 'Z') || ('a' <= c <= 'z') || ('0' <= c <= '9') || c == '_' || c == '.' || c == '-' || c == '~'
  }

  function QuoteChar(c: char, plus: bool): (r: string)
    ensures forall i :: 0 <= i < |r| ==> r[i] == '%' || AlwaysSafe(r[i]) || (plus && r[i] == '+')
    ensures |r| >= 1
  {
    if AlwaysSafe(c) then [c]
    else if plus && c == ' ' then "+"
    else PercentBytes(Utf8(c))
  }

  /** `quote(s, safe='')` when `plus` is false, `quote_plus(s)` when it is true. */
  function Quote(s: string, plus: bool): (r: string)
    ensures forall i :: 0 <= i < |r| ==> r[i] == '%' || AlwaysSafe(r[i]) || (plus && r[i] == '+')
    ensures |r| >= |s|
  {
    if s == [] then "" else QuoteChar(s[0], plus) + Quote(s[1..], plus)
  }

  /** `urllib.parse.urlencode(clean)`: `k=v` pairs, `quote_plus`-encoded, joined by `&`. */
  function UrlEncode(clean: seq<(string, string)>): string {
    if clean == [] then ""
    else
      var pair := Quote(clean[0].0, true) + "=" + Quote(clean[0].1, true);
      if |clean| == 1 then pair else pair + "&" + UrlEncode(clean[1..])
  }

  lemma {:induction false} UrlEncodeEmpty(clean: seq<(string, string)>)
    ensures UrlEncode(clean) == "" <==> clean == []
  {
    if clean != [] {
      var pair := Quote(clean[0].0, true) + "=" + Quote(clean[0].1, true);
      assert pair[|Quote(clean[0].0, true)|] == '=';
    }
  }

  /** No encoded key or value carries `/`, `?`, `&`, `=` or `#`. */
  lemma QuoteIsInert(s: string, plus: bool)
    ensures '/' !in Quote(s, plus) && '?' !in Quote(s, plus) && '&' !in Quote(s, plus)
    ensures '=' !in Quote(s, plus) && '#' !in Quote(s, plus)
  {
    var q := Quote(s, plus);
    forall i | 0 <= i < |q| ensures q[i] !in {'/', '?', '&', '=', '#'} {
      assert q[i] == '%' || q[i] == '+' || AlwaysSafe(q[i]);
    }
  }

  lemma {:induction false} UrlEncodeNoQuestionMark(clean: seq<(string, string)>)
    ensures '?' !in UrlEncode(clean)
  {
    if clean != [] {
      QuoteIsInert(clean[0].0, true);
      QuoteIsInert(clean[0].1, true);
      UrlEncodeNoQuestionMark(clean[1..]);
    }
  }

  /** The URL `call_api` requests: the path parameter (when truthy) as its own encoded segment, `?query` only when non-empty. */
  function BuildUrl(endpoint: string, clean: seq<(string, string)>, pathParam: Option<string>): string {
    var qs := UrlEncode(clean);
    var base := if pathParam.Some? && pathParam.value != "" then BaseUrl + "/" + endpoint + "/" + Quote(pathParam.value, false)
                else BaseUrl + "/" + endpoint;
    if qs != "" then base + "?" + qs else base
  }

  /**
   * With a non-empty path parameter the URL is the endpoint, one extra path
   * segment containing no `/`, and then either nothing or `?` and the query.
   */
  lemma PathParamIsOneSegment(endpoint: string, clean: seq<(string, string)>, p: string)
    requires p != ""
    ensures var seg := Quote(p, false);
      '/' !in seg && '?' !in seg &&
      BuildUrl(endpoint, clean, Some(p)) ==
        BaseUrl + "/" + endpoint + "/" + seg + (if clean == [] then "" else "?" + UrlEncode(clean))
  {
    QuoteIsInert(p, false);
    UrlEncodeEmpty(clean);
  }

  lemma {:induction false} CleanedEmpty(params: Params)
    ensures Cleaned(params) == [] <==> forall i :: 0 <= i < |params| ==> params[i].1 == PNone
  {
    if params != [] {
      var p := params[..|params| - 1];
      CleanedEmpty(p);
      assert forall i :: 0 <= i < |p| ==> p[i] == params[i];
    }
  }

  lemma BaseUrlHasNoQuery()
    ensures '?' !in BaseUrl
  {
  }

  lemma UrlQuestionMarkIffQuery(endpoint: string, clean: seq<(string, string)>, pathParam: Option<string>)
    requires '?' !in endpoint
    ensures '?' in BuildUrl(endpoint, clean, pathParam) <==> clean != []
  {
    UrlEncodeEmpty(clean);
    UrlEncodeNoQuestionMark(clean);
    BaseUrlHasNoQuery();
    var base := if pathParam.Some? && pathParam.value != "" then BaseUrl + "/" + endpoint + "/" + Quote(pathParam.value, false)
                else BaseUrl + "/" + endpoint;
    assert '?' !in BaseUrl + "/" + endpoint;
    if pathParam.Some? && pathParam.value != "" {
      QuoteIsInert(pathParam.value, false);
      assert '?' !in Quote(pathParam.value, false);
    }
    assert '?' !in base;
    if clean != [] {
      var url := base + "?" + UrlEncode(clean);
      assert url[|base|] == '?';
    }
  }

  /** A `?` is appended exactly when some parameter is not `None`. */
  lemma QuestionMarkIffParams(endpoint: string, params: Params, pathParam: Option<string>)
    requires '?' !in endpoint
    ensures '?' in BuildUrl(endpoint, Cleaned(params), pathParam) <==>
      exists i :: 0 <= i < |params| && params[i].1 != PNone
  {
    CleanedEmpty(params);
    UrlQuestionMarkIffQuery(endpoint, Cleaned(params), pathParam);
  }

  // ---------------------------------------------------------------------------
  // The gateway's answer and `_make_request`

  /** The fields of a raw JSON reply the tool reads; `None` is an absent key. */
  datatype LawInfo = LawInfo(lawId: Option<string>, lawNum: Option<string>, lawType: Option<string>,
                             promulgationDate: Option<string>)
  datatype RevisionInfo = RevisionInfo(lawTitle: Option<string>, amendmentPromulgateDate: Option<string>,
                                       category: Option<string>)
  datatype Sentence = Sentence(position: Option<int>, text: Option<string>)
  datatype RawHit = RawHit(lawInfo: LawInfo, revisionInfo: RevisionInfo, sentences: seq<Sentence>)
  datatype RawLaw = RawLaw(lawInfo: LawInfo, revisionInfo: RevisionInfo)

  /** A law document tree: tagged elements, text leaves, and any other JSON value. */
  datatype Node = Element(tag: string, attrs: map<string, string>, children: seq<Node>) | Text(s: string) | Opaque

  datatype RawResponse = RawResponse(
    error: Option<string>, message: Option<string>,
    totalCount: Option<int>, sentenceCount: Option<int>, count: Option<int>, nextOffset: Option<int>,
    items: seq<RawHit>, laws: seq<RawLaw>,
    lawInfo: LawInfo, revisionInfo: RevisionInfo,
    lawFullText: Option<Node>, attachedFilesInfo: Option<seq<string>>)

  const NoInfo := LawInfo(None, None, None, None)
  const NoRevision := RevisionInfo(None, None, None)

  function ErrorReply(error: string, message: Option<string>): RawResponse {
    RawResponse(Some(error), message, None, None, None, None, [], [], NoInfo, NoRevision, None, None)
  }

  /** `{"results": [], "total_count": 0, "error": "no_results"}` */
  const NoResultsReply := RawResponse(Some("no_results"), None, Some(0), None, None, None, [], [], NoInfo, NoRevision, None, None)

  /** The JSON body of an HTTP error reply (`None` when it does not parse). */
  datatype ErrorBody = ErrorBody(code: Option<string>, message: Option<string>)

  datatype HttpOutcome =
    | Reply(body: Option<RawResponse>)                  // 2xx; `None`: the body is not JSON
    | HttpError(status: int, errorBody: Option<ErrorBody>)
    | TransportFailure(reason: string)

  /** What `_make_request` yields: a reply mapping, or an exception that escapes it. */
  datatype Fetched = Fetched(raw: RawResponse) | Raised(reason: string)

  function MakeRequest(o: HttpOutcome): (r: Fetched)
    ensures o.HttpError? && o.status == 404 && o.errorBody.Some? && o.errorBody.value.code == Some("404001") ==>
      r == Fetched(NoResultsReply)
    ensures o.HttpError? && o.status == 404 && o.errorBody.Some? && o.errorBody.value.code != Some("404001") ==>
      r == Fetched(ErrorReply("http_error_404", Some(o.errorBody.value.message.GetOr(""))))
    ensures o.HttpError? && (o.status != 404 || o.errorBody.None?) ==> r.Raised?
    ensures o.Reply? && o.body.Some? ==> r == Fetched(o.body.value)
    ensures o.Reply? && o.body.None? ==> r.Fetched? && r.raw.error == Some("request_failed")
    ensures o.TransportFailure? ==> r == Fetched(ErrorReply("request_failed", Some(o.reason)))
    ensures r.Fetched? && !o.Reply? ==> r.raw.error.Some?
  {
    match o
    case Reply(Some(body)) => Fetched(body)
    case Reply(None) => Fetched(ErrorReply("request_failed", Some("invalid JSON")))
    case HttpError(status, eb) =>
      if status == 404 then
        match eb
        case Some(b) =>
          if b.code == Some("404001") then Fetched(NoResultsReply)
          else Fetched(ErrorReply("http_error_404", Some(b.message.GetOr(""))))
        case None => Raised("invalid JSON in 404 body")
      else Raised("HTTP Error " + IntToString(status))
    case TransportFailure(reason) => Fetched(ErrorReply("request_failed", Some(reason)))
  }

  /** `call_api`: clean, build the URL, and hand the gateway's answer to `_make_request`. */
  method CallApi(endpoint: string, params: Params, pathParam: Option<string>, answer: HttpOutcome)
    returns (url: string, result: Fetched)
    ensures url == BuildUrl(endpoint, Cleaned(params), pathParam)
    ensures result == MakeRequest(answer)
  {
    var clean := CleanParams(params);
    var qs := UrlEncode(clean);
    if pathParam.Some? && pathParam.value != "" {
      url := BaseUrl + "/" + endpoint + "/" + Quote(pathParam.value, false);
    } else {
      url := BaseUrl + "/" + endpoint;
    }
    if qs != "" {
      url := url + "?" + qs;
    }
    result := MakeRequest(answer);
  }
}
