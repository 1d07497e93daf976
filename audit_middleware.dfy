/**
 * The audit middleware of the API routes: it reads the actor and the request
 * from the incoming request, describes the response, decides whether a call
 * is logged, and dispatches the log call on its event type.
 */
module AuditMiddleware {
  import opened Common
  import opened JsNumber
  import opened AuditService

  /**
   * What the middleware reads of an incoming request. Header names are lower
   * case, as `Headers` keeps them, so `headers.get(name)` is a lookup.
   */
  datatype HttpRequest = HttpRequest(httpMethod: string, pathname: string, searchParams: StringRecord, headers: StringRecord)

  function Header(req: HttpRequest, name: string): Option<string> {
    Get(req.headers, name)
  }

  /** `value || undefined`. */
  function NonEmpty(s: Option<string>): (r: Option<string>)
    ensures r.Some? <==> s.Some? && s.value != ""
    ensures r.Some? ==> r == s
  {
    if s.Some? && s.value != "" then s else None
  }

  /** `forwardedFor?.split(',')[0].trim() || realIp || '0.0.0.0'`. */
  function ClientIp(forwardedFor: Option<string>, realIp: Option<string>): string {
    var first := if forwardedFor.Some? then Trim(Split(forwardedFor.value, ',')[0]) else "";
    if first != "" then first else OrElse(realIp, "0.0.0.0")
  }

  lemma NoCharInPiece(s: string, piece: string, c: char)
    requires Contains(s, piece) && c !in s
    ensures c !in piece
  {
    var i := ContainsWitness(s, piece);
    assert piece == s[i..i + |piece|];
  }

  /**
   * The client address is never empty. It is the first hop of
   * `x-forwarded-for`, trimmed, when that is not blank: then it is a single
   * hop without a comma or surrounding white space. Otherwise it is
   * `x-real-ip`, or 0.0.0.0 when that is missing or empty.
   */
  lemma ClientIpSpec(forwardedFor: Option<string>, realIp: Option<string>)
    ensures ClientIp(forwardedFor, realIp) != ""
    ensures var first := if forwardedFor.Some? then Trim(Split(forwardedFor.value, ',')[0]) else "";
      && (first != "" ==> ClientIp(forwardedFor, realIp) == first && ',' !in first
                          && !IsSpace(first[0]) && !IsSpace(first[|first| - 1]))
      && (first == "" ==> ClientIp(forwardedFor, realIp) == OrElse(realIp, "0.0.0.0"))
  {
    if forwardedFor.Some? {
      var piece := Split(forwardedFor.value, ',')[0];
      NoCharInPiece(piece, Trim(piece), ',');
    }
  }

  /** `extractActorFromRequest`. */
  function ExtractActor(req: HttpRequest): (r: PartialActor)
    ensures r.kind == Some("user") <==> r.userId.Some?
    ensures r.kind == Some("user") || r.kind == Some("anonymous")
    ensures r.userId.Some? <==> Header(req, "x-user-id").Some? && Header(req, "x-user-id").value != ""
    ensures r.ipAddress.Some? && r.ipAddress.value != "" && r.userAgent.Some? && r.userAgent.value != ""
    ensures r.email.None? && r.roles.None?
  {
    var userId := NonEmpty(Header(req, "x-user-id"));
    ClientIpSpec(Header(req, "x-forwarded-for"), Header(req, "x-real-ip"));
    PartialActor(
      Some(if userId.Some? then "user" else "anonymous"), userId, NonEmpty(Header(req, "x-username")), None, None,
      NonEmpty(Header(req, "x-session-id")), Some(ClientIp(Header(req, "x-forwarded-for"), Header(req, "x-real-ip"))),
      Some(OrElse(Header(req, "user-agent"), "unknown")), None)
  }

  /** `obj[key] = value` for each entry in turn, as the `forEach` callbacks do. */
  function AssignAll(entries: StringRecord): StringRecord
    decreases |entries|
  {
    if entries == [] then []
    else
      var last := entries[|entries| - 1];
      Put(AssignAll(entries[..|entries| - 1]), last.0, last.1)
  }

  /** The value of the last entry with the key. */
  function LastValue(entries: StringRecord, key: string): Option<string>
    decreases |entries|
  {
    if entries == [] then None
    else if entries[|entries| - 1].0 == key then Some(entries[|entries| - 1].1)
    else LastValue(entries[..|entries| - 1], key)
  }

  /**
   * Assigning the entries in turn leaves each key once, in the order it was
   * first seen, holding the value it was given last.
   */
  lemma {:induction false} AssignAllSpec(entries: StringRecord)
    ensures KeysOf(AssignAll(entries)) == Dedup(KeysOf(entries))
    ensures forall k :: Get(AssignAll(entries), k) == LastValue(entries, k)
    decreases |entries|
  {
    if entries != [] {
      var init := entries[..|entries| - 1];
      AssignAllSpec(init);
      assert KeysOf(init) == KeysOf(entries)[..|entries| - 1];
      DedupMembers(KeysOf(init), entries[|entries| - 1].0);
    }
  }

  /** `parseInt(header || '0', 10) || undefined`. */
  function ContentLength(header: Option<string>): (r: Option<int>)
    ensures r.Some? ==> r.value != 0
  {
    match ParseDecimal(OrElse(header, "0"))
    case Int(n) => if n != 0 then Some(n) else None
    case NaN => None
  }

  /** A missing, empty, zero or unparsable `content-length` gives no length. */
  lemma ContentLengthAbsent()
    ensures ContentLength(None) == None && ContentLength(Some("0")) == None
    ensures ContentLength(Some("")) == None && ContentLength(Some("abc")) == None
  {
    assert TrimStart("0") == "0";
    assert DigitRun("0", 10) == 1;
    assert "0"[..1] == "0";
    assert TrimStart("abc") == "abc";
    assert DigitValue('a') == 10;
  }

  /** The decimal text of a positive length gives that length. */
  lemma ContentLengthOfDecimal(n: nat)
    requires n > 0
    ensures ContentLength(Some(NatToString(n))) == Some(n)
  {
    ParseDecimalOfNat(n);
  }

  /** `extractRequestInfo`; `uuid` is the fresh id used when the caller gives none. */
  function RequestInfo(req: HttpRequest, requestId: Option<string>, uuid: string): PartialRequest {
    var query := AssignAll(req.searchParams);
    PartialRequest(
      Some(OrElse(requestId, uuid)), Some(req.httpMethod), Some(req.pathname),
      if |query| > 0 then Some(query) else None, Some(AssignAll(req.headers)), None,
      NonEmpty(Header(req, "content-type")), ContentLength(Header(req, "content-length")))
  }

  method ExtractRequestInfo(req: HttpRequest, requestId: Option<string>, uuid: string) returns (r: PartialRequest)
    ensures r == RequestInfo(req, requestId, uuid)
  {
    var query: StringRecord := [];
    for i := 0 to |req.searchParams|
      invariant query == AssignAll(req.searchParams[..i])
    {
      assert req.searchParams[..i + 1][..i] == req.searchParams[..i];
      query := Put(query, req.searchParams[i].0, req.searchParams[i].1);
    }
    assert req.searchParams[..|req.searchParams|] == req.searchParams;
    var headersObj: StringRecord := [];
    for i := 0 to |req.headers|
      invariant headersObj == AssignAll(req.headers[..i])
    {
      assert req.headers[..i + 1][..i] == req.headers[..i];
      headersObj := Put(headersObj, req.headers[i].0, req.headers[i].1);
    }
    assert req.headers[..|req.headers|] == req.headers;
    r := PartialRequest(
      Some(OrElse(requestId, uuid)), Some(req.httpMethod), Some(req.pathname),
      if |query| > 0 then Some(query) else None, Some(headersObj), None,
      NonEmpty(Header(req, "content-type")), ContentLength(Header(req, "content-length")));
  }

  /**
   * The query is missing exactly when the URL has no search parameters; the
   * id is the caller's when it gives a non-empty one.
   */
  lemma RequestInfoSpec(req: HttpRequest, requestId: Option<string>, uuid: string)
    ensures RequestInfo(req, requestId, uuid).query.None? <==> req.searchParams == []
    ensures requestId.Some? && requestId.value != "" ==> RequestInfo(req, requestId, uuid).id == requestId
    ensures RequestInfo(req, requestId, uuid).body.None?
  {
    AssignAllSpec(req.searchParams);
    if req.searchParams != [] {
      assert KeysOf(req.searchParams)[0] in Dedup(KeysOf(req.searchParams));
    }
  }

  /** `createResponseInfo`: success is any status from 200 to 399; the duration is the time since the start. */
  function CreateResponseInfo(statusCode: int, startTime: int, now: int, errorCode: Option<string>,
                              errorMessage: Option<string>, dataSize: Option<int>): (r: PartialResponse)
    ensures r.statusCode == Some(statusCode)
    ensures r.success == Some(200 <= statusCode < 400)
    ensures r.duration == Some(now - startTime)
    ensures r.errorCode == errorCode && r.errorMessage == errorMessage && r.dataSize == dataSize
  {
    PartialResponse(Some(statusCode), Some(200 <= statusCode && statusCode < 400), errorCode, errorMessage,
                    Some(now - startTime), dataSize)
  }

  // ---------------------------------------------------------------------------
  // withAuditLog and logByEventType

  datatype MiddlewareOptions = MiddlewareOptions(
    eventCode: string, eventType: Option<EventType>, skipOnSuccess: bool, skipOnFailure: bool)

  /** What the wrapped handler did: answered with a status, or threw (an `Error` with its message, or something else). */
  datatype HandlerOutcome = Responded(status: int) | Threw(message: Option<string>)

  /** The arguments of one `logByEventType` call. */
  datatype LogCall = LogCall(
    eventType: EventType, eventCode: string, actor: PartialActor, target: PartialTarget,
    request: PartialRequest, response: PartialResponse, metadata: Option<Record>)

  /** `Response.ok`: a status from 200 to 299. */
  predicate ResponseOk(status: int) {
    200 <= status < 300
  }

  /**
   * The log call `withAuditLog` makes after the handler, if any. `body`,
   * `target` and `metadata` are the parsed body and what the option
   * callbacks extracted.
   */
  function AuditCall(options: MiddlewareOptions, actor: PartialActor, request: PartialRequest, body: Option<Record>,
                     target: Option<PartialTarget>, metadata: Option<Record>, outcome: HandlerOutcome,
                     startTime: int, now: int): Option<LogCall>
  {
    var eventType := options.eventType.GetOr(Data);
    var withBody := request.(body := body);
    match outcome
    case Responded(status) =>
      if options.skipOnSuccess && ResponseOk(status) then None
      else Some(LogCall(eventType, options.eventCode, actor, target.GetOr(NoTarget), withBody,
                        CreateResponseInfo(status, startTime, now, None, None, None), metadata))
    case Threw(message) =>
      var errorMessage := message.GetOr("Unknown error");
      if options.skipOnFailure then None
      else Some(LogCall(eventType, options.eventCode, actor, target.GetOr(NoTarget), withBody,
                        CreateResponseInfo(500, startTime, now, Some("INTERNAL_ERROR"), Some(errorMessage), None),
                        Some(Put(metadata.GetOr([]), "error", JStr(errorMessage)))))
  }

  /**
   * Nothing is logged exactly when an ok response meets `skipOnSuccess` or a
   * thrown error meets `skipOnFailure`. A thrown error is logged as a failed
   * 500 INTERNAL_ERROR with its message in the metadata, and a response in
   * the 300s counts as a success although `skipOnSuccess` does not skip it.
   * The event type defaults to DATA.
   */
  lemma AuditCallSpec(options: MiddlewareOptions, actor: PartialActor, request: PartialRequest, body: Option<Record>,
                      target: Option<PartialTarget>, metadata: Option<Record>, outcome: HandlerOutcome,
                      startTime: int, now: int)
    ensures var call := AuditCall(options, actor, request, body, target, metadata, outcome, startTime, now);
      && (call.None? <==> (outcome.Responded? && options.skipOnSuccess && ResponseOk(outcome.status))
                          || (outcome.Threw? && options.skipOnFailure))
      && (call.Some? ==> call.value.eventType == options.eventType.GetOr(Data) && call.value.request.body == body)
      && (call.Some? && outcome.Threw? ==>
            call.value.response.statusCode == Some(500) && call.value.response.success == Some(false)
            && call.value.response.errorCode == Some("INTERNAL_ERROR")
            && call.value.metadata.Some?
            && ValueAt(call.value.metadata.value, "error") == JStr(outcome.message.GetOr("Unknown error")))
      && (outcome.Responded? && 300 <= outcome.status < 400 ==>
            call.Some? && call.value.response.success == Some(true))
  {
  }

  /** The record `logByEventType` has the service build; SEC and DATA both go to `logDataAccess`. */
  function LoggedRecord(config: AuditConfig, call: LogCall, env: Env, sha256: string -> string): (r: AuditLog)
    ensures r.eventType == if call.eventType == Sec then Data else call.eventType
    ensures r.riskLevel.None? && r.eventCode == call.eventCode
  {
    match call.eventType
    case Auth => CreateAuditLog(config, Auth, call.eventCode, call.actor, None, call.request, call.response, call.metadata, env, sha256)
    case Admin => CreateAuditLog(config, Admin, call.eventCode, call.actor, Some(call.target), call.request, call.response, call.metadata, env, sha256)
    case Sys => CreateAuditLog(config, Sys, call.eventCode, SystemActor, None, call.request, call.response, call.metadata, env, sha256)
    case _ => CreateAuditLog(config, Data, call.eventCode, call.actor, Some(call.target), call.request, call.response, call.metadata, env, sha256)
  }

  /** The service after one call: admin actions are written at once, every other record goes through the buffer. */
  function AfterLogCall(s: ServiceState, call: LogCall, env: Env, sha256: string -> string): ServiceState {
    var log := LoggedRecord(s.config, call, env, sha256);
    if call.eventType == Admin then AfterImmediate(s, log) else AfterPersist(s, log)
  }

  method LogByEventType(service: AuditLogService, call: LogCall, env: Env, sha256: string -> string)
    modifies service
    ensures service.State() == AfterLogCall(old(service.State()), call, env, sha256)
  {
    match call.eventType
    case Auth =>
      service.LogAuthentication(call.eventCode, call.actor, call.request, call.response, call.metadata, env, sha256);
    case Data =>
      service.LogDataAccess(call.eventCode, call.actor, call.target, call.request, call.response, call.metadata, env, sha256);
    case Admin =>
      service.LogAdminAction(call.eventCode, call.actor, call.target, call.request, call.response, call.metadata, env, sha256);
    case Sys =>
      service.LogSystemEvent(call.eventCode, call.request, call.response, call.metadata, env, sha256);
    case Sec =>
      service.LogDataAccess(call.eventCode, call.actor, call.target, call.request, call.response, call.metadata, env, sha256);
  }

  /**
   * `withAuditLog(options, handler)` applied to one request: `requestId` is
   * the fresh UUID, `startTime` and `now` the clock before and after the
   * handler, and `outcome` what the handler did. The handler's response is
   * returned and its error rethrown either way.
   */
  method WithAuditLog(service: AuditLogService, options: MiddlewareOptions, req: HttpRequest, requestId: string,
                      startTime: int, now: int, body: Option<Record>, target: Option<PartialTarget>,
                      metadata: Option<Record>, outcome: HandlerOutcome, env: Env, sha256: string -> string)
    returns (result: HandlerOutcome)
    modifies service
    ensures result == outcome
    ensures var call := AuditCall(options, ExtractActor(req), RequestInfo(req, Some(requestId), requestId), body,
                                  target, metadata, outcome, startTime, now);
      service.State() == if call.None? then old(service.State()) else AfterLogCall(old(service.State()), call.value, env, sha256)
  {
    var actor := ExtractActor(req);
    var request := ExtractRequestInfo(req, Some(requestId), requestId);
    var call := AuditCall(options, actor, request, body, target, metadata, outcome, startTime, now);
    if call.Some? {
      LogByEventType(service, call.value, env, sha256);
    }
    result := outcome;
  }
}
