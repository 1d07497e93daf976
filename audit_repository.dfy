/**
 * The audit log repository: the statements that store audit records in the
 * `audit_logs` table and read them back by filters, by resource and by
 * minimum severity. What matters is that every `$k` placeholder in a
 * statement is bound to the parameter meant for it.
 */
module AuditRepository {
  import opened Common
  import opened JsNumber
  import opened Pool
  import AuditService

  type AuditLog = AuditService.AuditLog

  // ---------------------------------------------------------------------------
  // Storing a record

  /** The columns of `audit_logs` that an insert fills. */
  datatype Column =
    | Id | Timestamp
    | EventType | EventCode | EventName | EventDescription
    | ActorType | ActorUserId | ActorUsername | ActorEmailHash
    | ActorRoles | ActorSessionId | ActorIpAddress | ActorUserAgent | ActorGeoLocation
    | TargetType | TargetId | TargetName | TargetOwnerId
    | TargetPreviousState | TargetNewState | TargetAffectedFields
    | RequestId | RequestMethod | RequestPath | RequestQuery
    | RequestHeaders | RequestBodySanitized | RequestContentType | RequestContentLength
    | ResponseStatusCode | ResponseSuccess | ResponseErrorCode | ResponseErrorMessage
    | ResponseDurationMs | ResponseDataSize
    | ContextService | ContextVersion | ContextEnvironment | ContextHostname
    | ContextTraceId | ContextSpanId | ContextParentSpanId | ContextCorrelationId
    | Severity | RiskLevel | Metadata

  function ColumnName(c: Column): string {
    match c
    case Id => "id"
    case Timestamp => "timestamp"
    case EventType => "event_type"
    case EventCode => "event_code"
    case EventName => "event_name"
    case EventDescription => "event_description"
    case ActorType => "actor_type"
    case ActorUserId => "actor_user_id"
    case ActorUsername => "actor_username"
    case ActorEmailHash => "actor_email_hash"
    case ActorRoles => "actor_roles"
    case ActorSessionId => "actor_session_id"
    case ActorIpAddress => "actor_ip_address"
    case ActorUserAgent => "actor_user_agent"
    case ActorGeoLocation => "actor_geo_location"
    case TargetType => "target_type"
    case TargetId => "target_id"
    case TargetName => "target_name"
    case TargetOwnerId => "target_owner_id"
    case TargetPreviousState => "target_previous_state"
    case TargetNewState => "target_new_state"
    case TargetAffectedFields => "target_affected_fields"
    case RequestId => "request_id"
    case RequestMethod => "request_method"
    case RequestPath => "request_path"
    case RequestQuery => "request_query"
    case RequestHeaders => "request_headers"
    case RequestBodySanitized => "request_body_sanitized"
    case RequestContentType => "request_content_type"
    case RequestContentLength => "request_content_length"
    case ResponseStatusCode => "response_status_code"
    case ResponseSuccess => "response_success"
    case ResponseErrorCode => "response_error_code"
    case ResponseErrorMessage => "response_error_message"
    case ResponseDurationMs => "response_duration_ms"
    case ResponseDataSize => "response_data_size"
    case ContextService => "context_service"
    case ContextVersion => "context_version"
    case ContextEnvironment => "context_environment"
    case ContextHostname => "context_hostname"
    case ContextTraceId => "context_trace_id"
    case ContextSpanId => "context_span_id"
    case ContextParentSpanId => "context_parent_span_id"
    case ContextCorrelationId => "context_correlation_id"
    case Severity => "severity"
    case RiskLevel => "risk_level"
    case Metadata => "metadata"
  }

  // The insert lists its columns in thirteen lines, and the parameter list
  // follows the same order; each line is one group below.

  const RecordColumns: seq<Column> := [Id, Timestamp]
  const EventColumns: seq<Column> := [EventType, EventCode, EventName, EventDescription]
  const ActorColumns: seq<Column> := [ActorType, ActorUserId, ActorUsername, ActorEmailHash]
  const SessionColumns: seq<Column> := [ActorRoles, ActorSessionId, ActorIpAddress, ActorUserAgent, ActorGeoLocation]
  const TargetColumns: seq<Column> := [TargetType, TargetId, TargetName, TargetOwnerId]
  const ChangeColumns: seq<Column> := [TargetPreviousState, TargetNewState, TargetAffectedFields]
  const RequestColumns: seq<Column> := [RequestId, RequestMethod, RequestPath, RequestQuery]
  const PayloadColumns: seq<Column> := [RequestHeaders, RequestBodySanitized, RequestContentType, RequestContentLength]
  const ResponseColumns: seq<Column> := [ResponseStatusCode, ResponseSuccess, ResponseErrorCode, ResponseErrorMessage]
  const TimingColumns: seq<Column> := [ResponseDurationMs, ResponseDataSize]
  const ContextColumns: seq<Column> := [ContextService, ContextVersion, ContextEnvironment, ContextHostname]
  const TraceColumns: seq<Column> := [ContextTraceId, ContextSpanId, ContextParentSpanId, ContextCorrelationId]
  const ClassificationColumns: seq<Column> := [Severity, RiskLevel, Metadata]

  /** The column list of the insert, in the order written. */
  const InsertColumns: seq<Column> :=
    RecordColumns + EventColumns + ActorColumns + SessionColumns + TargetColumns + ChangeColumns
    + RequestColumns + PayloadColumns + ResponseColumns + TimingColumns + ContextColumns + TraceColumns
    + ClassificationColumns

  /** The names of the listed columns, in order. */
  function ColumnNames(cs: seq<Column>): (r: seq<string>)
    ensures |r| == |cs| && forall i :: 0 <= i < |cs| ==> r[i] == ColumnName(cs[i])
  {
    seq(|cs|, i requires 0 <= i < |cs| => ColumnName(cs[i]))
  }

  /** `$1` to `$n` in order. */
  function NumberedPlaceholders(n: nat): (r: seq<string>)
    ensures |r| == n && forall i :: 0 <= i < n ==> r[i] == Placeholder(i + 1)
  {
    seq(n, i requires 0 <= i => Placeholder(i + 1))
  }

  /** The `VALUES` list of the insert. */
  const InsertPlaceholders: seq<string> := NumberedPlaceholders(47)

  /** The insert statement's text (white space normalised). */
  function InsertSql(): string {
    "INSERT INTO audit_logs (" + Join(ColumnNames(InsertColumns), ", ") + ") VALUES (" + Join(InsertPlaceholders, ", ") + ")"
  }

  function OptText(v: Option<string>): SqlValue {
    if v.Some? then SqlText(v.value) else SqlNull
  }

  function OptInt(v: Option<int>): SqlValue {
    if v.Some? then SqlInt(v.value) else SqlNull
  }

  function OptArray(v: Option<seq<string>>): SqlValue {
    if v.Some? then SqlTextArray(v.value) else SqlNull
  }

  /** `v ? JSON.stringify(v) : null` on an object, which is truthy whenever present. */
  function OptJson(v: Option<AuditService.Record>): SqlValue {
    if v.Some? then SqlJson(JObj(v.value)) else SqlNull
  }

  /** An object of strings as a JSON value. */
  function StringsJs(rec: AuditService.StringRecord): Js {
    JObj(seq(|rec|, i requires 0 <= i < |rec| => (rec[i].0, JStr(rec[i].1))))
  }

  function OptStringsJson(v: Option<AuditService.StringRecord>): SqlValue {
    if v.Some? then SqlJson(StringsJs(v.value)) else SqlNull
  }

  /** `log.actor.geoLocation ? JSON.stringify(...) : null`. */
  function GeoJson(v: Option<Js>): SqlValue {
    if v.Some? && Truthy(v.value) then SqlJson(v.value) else SqlNull
  }

  // The parameter list of `insertAuditLog`, cut where the column list breaks its lines.

  function RecordParams(log: AuditLog): seq<SqlValue> {
    [SqlText(log.id), SqlText(log.timestamp)]
  }

  function EventParams(log: AuditLog): seq<SqlValue> {
    [SqlText(AuditService.EventTypeName(log.eventType)), SqlText(log.eventCode),
     SqlText(log.eventName), SqlText(log.eventDescription)]
  }

  function ActorParams(log: AuditLog): seq<SqlValue> {
    [SqlText(log.actor.kind), OptText(log.actor.userId), OptText(log.actor.username), OptText(log.actor.emailHash)]
  }

  function SessionParams(log: AuditLog): seq<SqlValue> {
    [OptArray(log.actor.roles), OptText(log.actor.sessionId), SqlText(log.actor.ipAddress),
     SqlText(log.actor.userAgent), GeoJson(log.actor.geoLocation)]
  }

  function TargetParams(log: AuditLog): seq<SqlValue> {
    [if log.target.Some? then SqlText(log.target.value.kind) else SqlNull,
     if log.target.Some? then SqlText(log.target.value.id) else SqlNull,
     if log.target.Some? then OptText(log.target.value.name) else SqlNull,
     if log.target.Some? then OptText(log.target.value.ownerId) else SqlNull]
  }

  function ChangeParams(log: AuditLog): seq<SqlValue> {
    [if log.target.Some? then OptJson(log.target.value.previousState) else SqlNull,
     if log.target.Some? then OptJson(log.target.value.newState) else SqlNull,
     if log.target.Some? then OptArray(log.target.value.affectedFields) else SqlNull]
  }

  function RequestParams(log: AuditLog): seq<SqlValue> {
    [SqlText(log.request.id), SqlText(log.request.httpMethod), SqlText(log.request.path),
     OptStringsJson(log.request.query)]
  }

  function PayloadParams(log: AuditLog): seq<SqlValue> {
    [OptStringsJson(log.request.headers), OptJson(log.request.body), OptText(log.request.contentType),
     OptInt(log.request.contentLength)]
  }

  function ResponseParams(log: AuditLog): seq<SqlValue> {
    [SqlInt(log.response.statusCode), SqlBool(log.response.success), OptText(log.response.errorCode),
     OptText(log.response.errorMessage)]
  }

  function TimingParams(log: AuditLog): seq<SqlValue> {
    [SqlInt(log.response.duration), OptInt(log.response.dataSize)]
  }

  function ContextParams(log: AuditLog): seq<SqlValue> {
    [SqlText(log.context.service), SqlText(log.context.version), SqlText(log.context.environment),
     SqlText(log.context.hostname)]
  }

  function TraceParams(log: AuditLog): seq<SqlValue> {
    [SqlText(log.context.traceId), SqlText(log.context.spanId), OptText(log.context.parentSpanId),
     OptText(log.context.correlationId)]
  }

  function ClassificationParams(log: AuditLog): seq<SqlValue> {
    [SqlText(AuditService.SeverityName(log.severity)),
     if log.riskLevel.Some? then SqlText(AuditService.RiskLevelName(log.riskLevel.value)) else SqlNull,
     OptJson(log.metadata)]
  }

  /** The parameter list of `insertAuditLog`, in the order written there. */
  function InsertParams(log: AuditLog): seq<SqlValue> {
    RecordParams(log) + EventParams(log) + ActorParams(log)
    + SessionParams(log) + TargetParams(log) + ChangeParams(log)
    + RequestParams(log) + PayloadParams(log) + ResponseParams(log)
    + TimingParams(log) + ContextParams(log) + TraceParams(log)
    + ClassificationParams(log)
  }

  /** What each column should receive from a record, column by column: the reference the parameter list is checked against. */
  function ColumnValue(log: AuditLog, c: Column): SqlValue {
    match c
    case Id => SqlText(log.id)
    case Timestamp => SqlText(log.timestamp)
    case EventType => SqlText(AuditService.EventTypeName(log.eventType))
    case EventCode => SqlText(log.eventCode)
    case EventName => SqlText(log.eventName)
    case EventDescription => SqlText(log.eventDescription)
    case ActorType => SqlText(log.actor.kind)
    case ActorUserId => OptText(log.actor.userId)
    case ActorUsername => OptText(log.actor.username)
    case ActorEmailHash => OptText(log.actor.emailHash)
    case ActorRoles => OptArray(log.actor.roles)
    case ActorSessionId => OptText(log.actor.sessionId)
    case ActorIpAddress => SqlText(log.actor.ipAddress)
    case ActorUserAgent => SqlText(log.actor.userAgent)
    case ActorGeoLocation => GeoJson(log.actor.geoLocation)
    case TargetType => if log.target.None? then SqlNull else SqlText(log.target.value.kind)
    case TargetId => if log.target.None? then SqlNull else SqlText(log.target.value.id)
    case TargetName => if log.target.None? then SqlNull else OptText(log.target.value.name)
    case TargetOwnerId => if log.target.None? then SqlNull else OptText(log.target.value.ownerId)
    case TargetPreviousState => if log.target.None? then SqlNull else OptJson(log.target.value.previousState)
    case TargetNewState => if log.target.None? then SqlNull else OptJson(log.target.value.newState)
    case TargetAffectedFields => if log.target.None? then SqlNull else OptArray(log.target.value.affectedFields)
    case RequestId => SqlText(log.request.id)
    case RequestMethod => SqlText(log.request.httpMethod)
    case RequestPath => SqlText(log.request.path)
    case RequestQuery => OptStringsJson(log.request.query)
    case RequestHeaders => OptStringsJson(log.request.headers)
    case RequestBodySanitized => OptJson(log.request.body)
    case RequestContentType => OptText(log.request.contentType)
    case RequestContentLength => OptInt(log.request.contentLength)
    case ResponseStatusCode => SqlInt(log.response.statusCode)
    case ResponseSuccess => SqlBool(log.response.success)
    case ResponseErrorCode => OptText(log.response.errorCode)
    case ResponseErrorMessage => OptText(log.response.errorMessage)
    case ResponseDurationMs => SqlInt(log.response.duration)
    case ResponseDataSize => OptInt(log.response.dataSize)
    case ContextService => SqlText(log.context.service)
    case ContextVersion => SqlText(log.context.version)
    case ContextEnvironment => SqlText(log.context.environment)
    case ContextHostname => SqlText(log.context.hostname)
    case ContextTraceId => SqlText(log.context.traceId)
    case ContextSpanId => SqlText(log.context.spanId)
    case ContextParentSpanId => OptText(log.context.parentSpanId)
    case ContextCorrelationId => OptText(log.context.correlationId)
    case Severity => SqlText(AuditService.SeverityName(log.severity))
    case RiskLevel =>
      (match log.riskLevel
       case Some(r) => SqlText(AuditService.RiskLevelName(r))
       case None => SqlNull)
    case Metadata => OptJson(log.metadata)
  }

  /** What the listed columns should receive, column by column. */
  function ColumnValues(log: AuditLog, cs: seq<Column>): (r: seq<SqlValue>)
    ensures |r| == |cs| && forall i :: 0 <= i < |cs| ==> r[i] == ColumnValue(log, cs[i])
  {
    seq(|cs|, i requires 0 <= i < |cs| => ColumnValue(log, cs[i]))
  }

  lemma ColumnValuesAppend(log: AuditLog, a: seq<Column>, b: seq<Column>)
    ensures ColumnValues(log, a + b) == ColumnValues(log, a) + ColumnValues(log, b)
  {
  }

  lemma RecordAgrees(log: AuditLog)
    ensures RecordParams(log) == ColumnValues(log, RecordColumns)
  {
  }

  lemma EventAgrees(log: AuditLog)
    ensures EventParams(log) == ColumnValues(log, EventColumns)
  {
  }

  lemma ActorAgrees(log: AuditLog)
    ensures ActorParams(log) == ColumnValues(log, ActorColumns)
  {
  }

  lemma SessionAgrees(log: AuditLog)
    ensures SessionParams(log) == ColumnValues(log, SessionColumns)
  {
  }

  lemma TargetAgrees(log: AuditLog)
    ensures TargetParams(log) == ColumnValues(log, TargetColumns)
  {
  }

  lemma ChangeAgrees(log: AuditLog)
    ensures ChangeParams(log) == ColumnValues(log, ChangeColumns)
  {
  }

  lemma RequestAgrees(log: AuditLog)
    ensures RequestParams(log) == ColumnValues(log, RequestColumns)
  {
  }

  lemma PayloadAgrees(log: AuditLog)
    ensures PayloadParams(log) == ColumnValues(log, PayloadColumns)
  {
  }

  lemma ResponseAgrees(log: AuditLog)
    ensures ResponseParams(log) == ColumnValues(log, ResponseColumns)
  {
  }

  lemma TimingAgrees(log: AuditLog)
    ensures TimingParams(log) == ColumnValues(log, TimingColumns)
  {
  }

  lemma ContextAgrees(log: AuditLog)
    ensures ContextParams(log) == ColumnValues(log, ContextColumns)
  {
  }

  lemma TraceAgrees(log: AuditLog)
    ensures TraceParams(log) == ColumnValues(log, TraceColumns)
  {
  }

  lemma ClassificationAgrees(log: AuditLog)
    ensures ClassificationParams(log) == ColumnValues(log, ClassificationColumns)
  {
  }

  /** Group by group, the parameter list is what the column list should receive. */
  lemma InsertByColumn(log: AuditLog)
    ensures InsertParams(log) == ColumnValues(log, InsertColumns)
  {
    RecordAgrees(log);
    EventAgrees(log);
    ActorAgrees(log);
    SessionAgrees(log);
    TargetAgrees(log);
    ChangeAgrees(log);
    RequestAgrees(log);
    PayloadAgrees(log);
    ResponseAgrees(log);
    TimingAgrees(log);
    ContextAgrees(log);
    TraceAgrees(log);
    ClassificationAgrees(log);
    ColumnValuesAppend(log, RecordColumns, EventColumns);
    ColumnValuesAppend(log, RecordColumns + EventColumns, ActorColumns);
    ColumnValuesAppend(log, RecordColumns + EventColumns + ActorColumns, SessionColumns);
    ColumnValuesAppend(log, RecordColumns + EventColumns + ActorColumns + SessionColumns, TargetColumns);
    ColumnValuesAppend(log, RecordColumns + EventColumns + ActorColumns + SessionColumns + TargetColumns, ChangeColumns);
    ColumnValuesAppend(log, RecordColumns + EventColumns + ActorColumns + SessionColumns + TargetColumns + ChangeColumns, RequestColumns);
    ColumnValuesAppend(log, RecordColumns + EventColumns + ActorColumns + SessionColumns + TargetColumns + ChangeColumns + RequestColumns, PayloadColumns);
    ColumnValuesAppend(log, RecordColumns + EventColumns + ActorColumns + SessionColumns + TargetColumns + ChangeColumns + RequestColumns + PayloadColumns, ResponseColumns);
    ColumnValuesAppend(log, RecordColumns + EventColumns + ActorColumns + SessionColumns + TargetColumns + ChangeColumns + RequestColumns + PayloadColumns + ResponseColumns, TimingColumns);
    ColumnValuesAppend(log, RecordColumns + EventColumns + ActorColumns + SessionColumns + TargetColumns + ChangeColumns + RequestColumns + PayloadColumns + ResponseColumns + TimingColumns, ContextColumns);
    ColumnValuesAppend(log, RecordColumns + EventColumns + ActorColumns + SessionColumns + TargetColumns + ChangeColumns + RequestColumns + PayloadColumns + ResponseColumns + TimingColumns + ContextColumns, TraceColumns);
    ColumnValuesAppend(log, RecordColumns + EventColumns + ActorColumns + SessionColumns + TargetColumns + ChangeColumns + RequestColumns + PayloadColumns + ResponseColumns + TimingColumns + ContextColumns + TraceColumns, ClassificationColumns);
  }

  /**
   * The insert's column list, its placeholders and its parameters line up:
   * 47 of each, the `i`-th placeholder is `$(i + 1)`, and the parameter it
   * binds is the value the `i`-th column should receive.
   */
  lemma InsertAligned(log: AuditLog)
    ensures |InsertColumns| == |InsertPlaceholders| == |InsertParams(log)| == 47
    ensures forall i :: 0 <= i < 47 ==> InsertPlaceholders[i] == Placeholder(i + 1)
    ensures forall i :: 0 <= i < 47 ==> InsertParams(log)[i] == ColumnValue(log, InsertColumns[i])
  {
    InsertByColumn(log);
    assert |InsertColumns| == 47;
  }

  /** The statement `insertAuditLog` hands over for one record: the insert text and each column's value in column order. */
  function InsertStatement(log: AuditLog): Statement {
    Statement(InsertSql(), ColumnValues(log, InsertColumns))
  }

  /** The insert statements of a batch, one per record, in order. */
  function InsertStatements(logs: seq<AuditLog>): (r: seq<Statement>)
    ensures |r| == |logs|
  {
    if logs == [] then [] else InsertStatements(logs[..|logs| - 1]) + [InsertStatement(logs[|logs| - 1])]
  }

  lemma InsertStatementsStep(logs: seq<AuditLog>, i: nat)
    requires i < |logs|
    ensures InsertStatements(logs[..i + 1]) == InsertStatements(logs[..i]) + [InsertStatement(logs[i])]
  {
    assert logs[..i + 1][..i] == logs[..i];
  }

  /** `insertAuditLog`. */
  method InsertAuditLog(db: DatabasePool, log: AuditLog)
    modifies db
    ensures db.executed == old(db.executed) + [InsertStatement(log)]
    ensures db.config == old(db.config) && db.isConnected == old(db.isConnected)
  {
    InsertByColumn(log);
    var _ := db.Query(InsertSql(), InsertParams(log));
  }

  /**
   * `insertAuditLogBatch`: the records are inserted one at a time, in order,
   * and counted; 0 for none.
   */
  method InsertAuditLogBatch(db: DatabasePool, logs: seq<AuditLog>) returns (insertedCount: int)
    modifies db
    ensures insertedCount == |logs|
    ensures db.executed == old(db.executed) + InsertStatements(logs)
    ensures db.config == old(db.config) && db.isConnected == old(db.isConnected)
  {
    if |logs| == 0 {
      return 0;
    }
    insertedCount := 0;
    var i := 0;
    while i < |logs|
      invariant 0 <= i <= |logs| && insertedCount == i
      invariant db.executed == old(db.executed) + InsertStatements(logs[..i])
      invariant db.config == old(db.config) && db.isConnected == old(db.isConnected)
    {
      InsertAuditLog(db, logs[i]);
      InsertStatementsStep(logs, i);
      insertedCount := insertedCount + 1;
      i := i + 1;
    }
    assert logs[..i] == logs;
  }

  // ---------------------------------------------------------------------------
  // Reading records back by filters

  /** `AuditLogQuery`; the dates are given as their ISO text. */
  datatype AuditLogQuery = AuditLogQuery(
    userId: Option<string>, eventType: Option<string>, eventCode: Option<string>,
    startDate: Option<string>, endDate: Option<string>, severity: Option<string>,
    riskLevel: Option<string>, limit: Option<int>, offset: Option<int>)

  const UserIdFilter := "actor_user_id = "
  const EventTypeFilter := "event_type = "
  const EventCodeFilter := "event_code = "
  const StartDateFilter := "timestamp >= "
  const EndDateFilter := "timestamp <= "
  const SeverityFilter := "severity = "
  const RiskLevelFilter := "risk_level = "

  /** A filter in force: the comparison it adds and the value it binds. */
  datatype Filter = Filter(comparison: string, value: SqlValue)

  /** A string filter is in force when it is set and not empty. */
  predicate Given(v: Option<string>) {
    v.Some? && v.value != ""
  }

  function FilterIf(present: bool, comparison: string, value: string): seq<Filter> {
    if present then [Filter(comparison, SqlText(value))] else []
  }

  /** The filters in force, in the order the code tests them; a date is always in force once given. */
  function Filters(q: AuditLogQuery): seq<Filter> {
    FilterIf(Given(q.userId), UserIdFilter, q.userId.GetOr(""))
    + FilterIf(Given(q.eventType), EventTypeFilter, q.eventType.GetOr(""))
    + FilterIf(Given(q.eventCode), EventCodeFilter, q.eventCode.GetOr(""))
    + FilterIf(q.startDate.Some?, StartDateFilter, q.startDate.GetOr(""))
    + FilterIf(q.endDate.Some?, EndDateFilter, q.endDate.GetOr(""))
    + FilterIf(Given(q.severity), SeverityFilter, q.severity.GetOr(""))
    + FilterIf(Given(q.riskLevel), RiskLevelFilter, q.riskLevel.GetOr(""))
  }

  /** No filter is in force. */
  predicate Unfiltered(q: AuditLogQuery) {
    !Given(q.userId) && !Given(q.eventType) && !Given(q.eventCode) && q.startDate.None?
    && q.endDate.None? && !Given(q.severity) && !Given(q.riskLevel)
  }

  /** The `k`-th condition: the comparison against `$k`. */
  function Condition(f: Filter, k: nat): string {
    f.comparison + Placeholder(k)
  }

  /** The conditions of the filters, numbered from `$1`. */
  function Conditions(fs: seq<Filter>): (r: seq<string>)
    ensures |r| == |fs| && forall i :: 0 <= i < |fs| ==> r[i] == Condition(fs[i], i + 1)
  {
    seq(|fs|, i requires 0 <= i < |fs| => Condition(fs[i], i + 1))
  }

  /** The values the filters bind, in order. */
  function FilterParams(fs: seq<Filter>): (r: seq<SqlValue>)
    ensures |r| == |fs| && forall i :: 0 <= i < |fs| ==> r[i] == fs[i].value
  {
    seq(|fs|, i requires 0 <= i < |fs| => fs[i].value)
  }

  /** `conditions.length > 0 ? 'WHERE ' + conditions.join(' AND ') : ''`. */
  function WhereOf(conditions: seq<string>): string {
    if |conditions| > 0 then "WHERE " + Join(conditions, " AND ") else ""
  }

  /** The count statement's text. */
  function CountSql(whereClause: string): string {
    "SELECT COUNT(*) as count FROM audit_logs " + whereClause
  }

  /** The page statement's text, the limit at `$limitIndex` and the offset right after it (white space normalised). */
  function PageSql(whereClause: string, limitIndex: nat): string {
    "SELECT * FROM audit_logs " + whereClause + " ORDER BY timestamp DESC LIMIT "
      + Placeholder(limitIndex) + " OFFSET " + Placeholder(limitIndex + 1)
  }

  /** `query.limit || 100`. */
  function LimitOf(q: AuditLogQuery): int {
    if q.limit.Some? && q.limit.value != 0 then q.limit.value else 100
  }

  /** `query.offset || 0`. */
  function OffsetOf(q: AuditLogQuery): int {
    if q.offset.Some? && q.offset.value != 0 then q.offset.value else 0
  }

  /** The count statement: the filters' conditions and their parameters. */
  function CountStatement(q: AuditLogQuery): Statement {
    var fs := Filters(q);
    Statement(CountSql(WhereOf(Conditions(fs))), FilterParams(fs))
  }

  /** The page statement: the same conditions, then the limit and the offset as the next two placeholders. */
  function SelectStatement(q: AuditLogQuery): Statement {
    var fs := Filters(q);
    Statement(PageSql(WhereOf(Conditions(fs)), |fs| + 1), FilterParams(fs) + [SqlInt(LimitOf(q)), SqlInt(OffsetOf(q))])
  }

  function Flag(b: bool): nat {
    if b then 1 else 0
  }

  /**
   * Each filter in force adds exactly one condition and one parameter, so
   * there are as many as filters set, at most seven.
   */
  lemma FiltersCount(q: AuditLogQuery)
    ensures |Filters(q)| == Flag(Given(q.userId)) + Flag(Given(q.eventType)) + Flag(Given(q.eventCode))
      + Flag(q.startDate.Some?) + Flag(q.endDate.Some?) + Flag(Given(q.severity)) + Flag(Given(q.riskLevel))
    ensures |Filters(q)| <= 7
    ensures |Conditions(Filters(q))| == |FilterParams(Filters(q))| == |Filters(q)|
  {
  }

  /** The `WHERE` clause appears exactly when some filter is in force. */
  lemma WhereIffFiltered(q: AuditLogQuery)
    ensures Filters(q) == [] <==> Unfiltered(q)
    ensures WhereOf(Conditions(Filters(q))) == "" <==> Unfiltered(q)
  {
    FiltersCount(q);
    var cs := Conditions(Filters(q));
    if cs != [] {
      assert WhereOf(cs)[0] == 'W';
    }
  }

  /**
   * The page statement binds the count statement's parameters first and then
   * the limit at `$(n + 1)` and the offset at `$(n + 2)`, its last two
   * placeholders; an unset or zero limit is 100 and an unset or zero offset 0.
   */
  lemma SelectStatementSpec(q: AuditLogQuery)
    ensures var n := |Filters(q)|; var p := SelectStatement(q).params;
      |p| == n + 2 && p[..n] == CountStatement(q).params
      && p[n] == SqlInt(LimitOf(q)) && p[n + 1] == SqlInt(OffsetOf(q))
    ensures q.limit.None? || q.limit == Some(0) ==> LimitOf(q) == 100
    ensures q.offset.None? || q.offset == Some(0) ==> OffsetOf(q) == 0
    ensures forall i :: 0 <= i < |Filters(q)| ==>
      Conditions(Filters(q))[i] == Condition(Filters(q)[i], i + 1) && SelectStatement(q).params[i] == Filters(q)[i].value
  {
    var n := |Filters(q)|;
    var p := SelectStatement(q).params;
    assert p[..n] == FilterParams(Filters(q));
  }

  /** The conditions and parameters built so far agree with the filters `fs` found so far. */
  ghost predicate Aligned(conditions: seq<string>, params: seq<SqlValue>, paramIndex: int, fs: seq<Filter>) {
    conditions == Conditions(fs) && params == FilterParams(fs) && paramIndex == |fs| + 1
  }

  /**
   * One `if (value) { conditions.push(...$${paramIndex++}); params.push(value); }`
   * step: a filter in force is numbered with the current index, which then
   * moves on; one not in force changes nothing.
   */
  method AddFilter(conditions: seq<string>, params: seq<SqlValue>, paramIndex: nat, ghost fs: seq<Filter>,
                   present: bool, comparison: string, value: string)
    returns (conditions': seq<string>, params': seq<SqlValue>, paramIndex': nat)
    requires Aligned(conditions, params, paramIndex, fs)
    ensures Aligned(conditions', params', paramIndex', fs + FilterIf(present, comparison, value))
  {
    conditions', params', paramIndex' := conditions, params, paramIndex;
    if present {
      conditions' := conditions + [comparison + Placeholder(paramIndex)];
      paramIndex' := paramIndex + 1;
      params' := params + [SqlText(value)];
      assert Conditions(fs + [Filter(comparison, SqlText(value))]) == conditions';
      assert FilterParams(fs + [Filter(comparison, SqlText(value))]) == params';
    } else {
      assert fs + [] == fs;
    }
  }

  /**
   * The first part of `queryAuditLogs`: the conditions and parameters are
   * built side by side with a running placeholder index.
   */
  method BuildConditions(q: AuditLogQuery) returns (conditions: seq<string>, params: seq<SqlValue>, paramIndex: nat)
    ensures conditions == Conditions(Filters(q)) && params == FilterParams(Filters(q))
    ensures paramIndex == |Filters(q)| + 1
  {
    conditions, params, paramIndex := [], [], 1;
    ghost var fs: seq<Filter> := [];
    assert Aligned(conditions, params, paramIndex, fs);
    conditions, params, paramIndex :=
      AddFilter(conditions, params, paramIndex, fs, Given(q.userId), UserIdFilter, q.userId.GetOr(""));
    fs := fs + FilterIf(Given(q.userId), UserIdFilter, q.userId.GetOr(""));
    assert fs == FilterIf(Given(q.userId), UserIdFilter, q.userId.GetOr(""));
    conditions, params, paramIndex :=
      AddFilter(conditions, params, paramIndex, fs, Given(q.eventType), EventTypeFilter, q.eventType.GetOr(""));
    fs := fs + FilterIf(Given(q.eventType), EventTypeFilter, q.eventType.GetOr(""));
    conditions, params, paramIndex :=
      AddFilter(conditions, params, paramIndex, fs, Given(q.eventCode), EventCodeFilter, q.eventCode.GetOr(""));
    fs := fs + FilterIf(Given(q.eventCode), EventCodeFilter, q.eventCode.GetOr(""));
    conditions, params, paramIndex :=
      AddFilter(conditions, params, paramIndex, fs, q.startDate.Some?, StartDateFilter, q.startDate.GetOr(""));
    fs := fs + FilterIf(q.startDate.Some?, StartDateFilter, q.startDate.GetOr(""));
    conditions, params, paramIndex :=
      AddFilter(conditions, params, paramIndex, fs, q.endDate.Some?, EndDateFilter, q.endDate.GetOr(""));
    fs := fs + FilterIf(q.endDate.Some?, EndDateFilter, q.endDate.GetOr(""));
    conditions, params, paramIndex :=
      AddFilter(conditions, params, paramIndex, fs, Given(q.severity), SeverityFilter, q.severity.GetOr(""));
    fs := fs + FilterIf(Given(q.severity), SeverityFilter, q.severity.GetOr(""));
    conditions, params, paramIndex :=
      AddFilter(conditions, params, paramIndex, fs, Given(q.riskLevel), RiskLevelFilter, q.riskLevel.GetOr(""));
    fs := fs + FilterIf(Given(q.riskLevel), RiskLevelFilter, q.riskLevel.GetOr(""));
    assert fs == Filters(q);
  }

  /** `row?.count || '0'` on a row of the count statement. */
  function CountField(row: seq<(string, SqlValue)>): string {
    var v := Get(row, "count");
    if v.Some? && v.value.SqlText? && v.value.text != "" then v.value.text else "0"
  }

  /** `countResult.rows[0]?.count || '0'`. */
  function CountText(rows: seq<seq<(string, SqlValue)>>): string {
    if |rows| > 0 then CountField(rows[0]) else "0"
  }

  /**
   * With no rows, or a first row whose `count` is missing, not text or empty,
   * the count reads as 0; a non-empty text count is taken as it is.
   */
  lemma NoRowsCountZero(rows: seq<seq<(string, SqlValue)>>)
    ensures rows == [] ==> ParseDecimal(CountText(rows)) == Int(0)
    ensures rows != [] && Get(rows[0], "count").None? ==> ParseDecimal(CountText(rows)) == Int(0)
    ensures rows != [] && Get(rows[0], "count").Some? && !Get(rows[0], "count").value.SqlText? ==>
      ParseDecimal(CountText(rows)) == Int(0)
    ensures rows != [] && Get(rows[0], "count") == Some(SqlText("")) ==> ParseDecimal(CountText(rows)) == Int(0)
    ensures (rows != [] && Get(rows[0], "count").Some? && Get(rows[0], "count").value.SqlText?
             && Get(rows[0], "count").value.text != "") ==> CountText(rows) == Get(rows[0], "count").value.text
  {
    ParseDecimalOfNat(0);
    assert NatToString(0) == "0";
  }

  /**
   * `queryAuditLogs`: the count and the page statements go to the database
   * with the filters' conditions. The pool answers with no rows, so the
   * total is 0 and the page empty.
   */
  method QueryAuditLogs(db: DatabasePool, q: AuditLogQuery) returns (logs: seq<AuditLog>, total: Num)
    modifies db
    ensures db.executed == old(db.executed) + [CountStatement(q), SelectStatement(q)]
    ensures logs == [] && total == Int(0)
    ensures db.config == old(db.config) && db.isConnected == old(db.isConnected)
  {
    var conditions, params, paramIndex := BuildConditions(q);
    var whereClause := WhereOf(conditions);
    var limit := LimitOf(q);
    var offset := OffsetOf(q);

    var countResult := db.Query(CountSql(whereClause), params);
    total := ParseDecimal(CountText(countResult.rows));
    NoRowsCountZero(countResult.rows);

    var sql := PageSql(whereClause, paramIndex);
    params := params + [SqlInt(limit), SqlInt(offset)];
    var result := db.Query(sql, params);
    logs := [];
  }

  // ---------------------------------------------------------------------------
  // Reading records back by resource and by severity

  /** The statement for one resource's records (white space normalised). */
  const ResourceTrailSql := "SELECT * FROM audit_logs WHERE target_type = $1 AND target_id = $2 ORDER BY timestamp DESC LIMIT $3"

  /** `getResourceAuditTrail`: the statement for one resource's records, newest first; the limit defaults to 50. */
  method GetResourceAuditTrail(db: DatabasePool, targetType: string, targetId: string, limit: Option<int>)
    returns (logs: seq<AuditLog>)
    modifies db
    ensures db.executed == old(db.executed) + [Statement(ResourceTrailSql,
      [SqlText(targetType), SqlText(targetId), SqlInt(limit.GetOr(50))])]
    ensures logs == []
    ensures db.config == old(db.config) && db.isConnected == old(db.isConnected)
  {
    var sql := ResourceTrailSql;
    var result := db.Query(sql, [SqlText(targetType), SqlText(targetId), SqlInt(limit.GetOr(50))]);
    logs := [];
  }

  const SeverityOrder: seq<string> := ["DEBUG", "INFO", "WARN", "ERROR", "CRITICAL"]

  /** `s.slice(start)`: a negative start counts from the end. */
  function SliceFrom<T>(s: seq<T>, start: int): (r: seq<T>)
    ensures 0 <= start <= |s| ==> r == s[start..]
    ensures -|s| <= start < 0 ==> r == s[|s| + start..]
  {
    if start < 0 then s[Max(0, |s| + start)..] else if start > |s| then [] else s[start..]
  }

  /** `severityOrder.slice(severityOrder.indexOf(minSeverity))`. */
  function ValidSeverities(minSeverity: string): seq<string> {
    SliceFrom(SeverityOrder, IndexOf(SeverityOrder, minSeverity))
  }

  /**
   * For a known severity the list holds exactly the severities at least as
   * severe; an unknown one (a lower-case "warn", say) finds index -1, and
   * `slice(-1)` keeps only CRITICAL.
   */
  lemma ValidSeveritiesSpec(min: AuditService.Severity, s: AuditService.Severity, unknown: string)
    requires unknown !in SeverityOrder
    ensures AuditService.SeverityName(s) in ValidSeverities(AuditService.SeverityName(min))
      <==> AuditService.SeverityRank(s) >= AuditService.SeverityRank(min)
    ensures ValidSeverities(AuditService.SeverityName(min))[0] == AuditService.SeverityName(min)
    ensures ValidSeverities(unknown) == ["CRITICAL"]
  {
    NamesInOrder(min);
    NamesInOrder(s);
    var k := AuditService.SeverityRank(min);
    assert IndexOf(SeverityOrder, AuditService.SeverityName(min)) == k;
    var v := ValidSeverities(AuditService.SeverityName(min));
    assert v == SeverityOrder[k..];
    if AuditService.SeverityRank(s) >= k {
      assert v[AuditService.SeverityRank(s) - k] == AuditService.SeverityName(s);
    }
  }

  /** A severity's name sits in the order at its rank, once. */
  lemma NamesInOrder(s: AuditService.Severity)
    ensures AuditService.SeverityRank(s) < 5
    ensures SeverityOrder[AuditService.SeverityRank(s)] == AuditService.SeverityName(s)
    ensures IndexOf(SeverityOrder, AuditService.SeverityName(s)) == AuditService.SeverityRank(s)
    ensures forall i :: 0 <= i < 5 && SeverityOrder[i] == AuditService.SeverityName(s) ==> i == AuditService.SeverityRank(s)
  {
  }

  /** The statement for security events (white space normalised). */
  const SecurityEventsSql := "SELECT * FROM audit_logs WHERE timestamp >= $1 AND timestamp <= $2 AND severity = ANY($3) ORDER BY timestamp DESC"

  /** `getSecurityEvents`: records in the time range whose severity is in `ValidSeverities(minSeverity)`; WARN by default. */
  method GetSecurityEvents(db: DatabasePool, startDate: string, endDate: string, minSeverity: Option<string>)
    returns (logs: seq<AuditLog>)
    modifies db
    ensures db.executed == old(db.executed) + [Statement(SecurityEventsSql,
      [SqlText(startDate), SqlText(endDate), SqlTextArray(ValidSeverities(minSeverity.GetOr("WARN")))])]
    ensures logs == []
    ensures db.config == old(db.config) && db.isConnected == old(db.isConnected)
  {
    var severityOrder := ["DEBUG", "INFO", "WARN", "ERROR", "CRITICAL"];
    var minSeverityIndex := IndexOf(severityOrder, minSeverity.GetOr("WARN"));
    var validSeverities := SliceFrom(severityOrder, minSeverityIndex);
    var sql := SecurityEventsSql;
    var result := db.Query(sql, [SqlText(startDate), SqlText(endDate), SqlTextArray(validSeverities)]);
    logs := [];
  }
}
