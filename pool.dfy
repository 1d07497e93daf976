/**
 * The database access layer of the LifePlan Navigator: the connection
 * settings read from the environment, and a pool object that runs in mock
 * mode when no connection string is set and otherwise stands for a
 * PostgreSQL pool. Statement execution is itself a placeholder that answers
 * every statement with no rows, so what the model can say is which
 * statements are handed over, with which parameters, and what the callers
 * are told back.
 */
module Pool {
  import opened Common
  import opened JsNumber

  /**
   * A value passed as a statement parameter (`undefined` and `null` both
   * travel as SQL NULL). `SqlJson(v)` is the text `JSON.stringify(v)`, kept
   * as the value it is written from.
   */
  datatype SqlValue =
    | SqlNull | SqlText(text: string) | SqlInt(n: int) | SqlBool(b: bool)
    | SqlTextArray(items: seq<string>) | SqlJson(json: Js)

  /** A statement handed to the database and its positional parameters (`$1` is `params[0]`). */
  datatype Statement = Statement(sql: string, params: seq<SqlValue>)

  datatype QueryResult = QueryResult(rows: seq<seq<(string, SqlValue)>>, rowCount: int)

  datatype Health = Healthy(latency: int) | Unhealthy(error: string)

  datatype DatabaseConfig = DatabaseConfig(
    connectionString: string, maxConnections: Num, idleTimeout: Num, connectionTimeout: Num, ssl: bool)

  /** The variables read: DATABASE_URL, DB_MAX_CONNECTIONS, DB_IDLE_TIMEOUT, DB_CONNECTION_TIMEOUT and NODE_ENV. */
  datatype DbEnv = DbEnv(
    databaseUrl: Option<string>, maxConnections: Option<string>, idleTimeout: Option<string>,
    connectionTimeout: Option<string>, nodeEnv: Option<string>)

  const NoDbEnv := DbEnv(None, None, None, None, None)

  /** `process.env.X || fallback`: an unset and an empty variable both fall back. */
  function EnvOr(v: Option<string>, fallback: string): string {
    if v.Some? && v.value != "" then v.value else fallback
  }

  /** `getDatabaseConfig`: the three sizes parsed as decimal integers (possibly `NaN`), TLS only in production. */
  function GetDatabaseConfig(env: DbEnv): (r: DatabaseConfig)
    ensures r.ssl <==> env.nodeEnv == Some("production")
    ensures r.connectionString == "" <==> env.databaseUrl.None? || env.databaseUrl.value == ""
    ensures env.databaseUrl.Some? ==> r.connectionString == env.databaseUrl.value
    ensures r.maxConnections == ParseDecimal(EnvOr(env.maxConnections, "10"))
  {
    DatabaseConfig(
      EnvOr(env.databaseUrl, ""),
      ParseDecimal(EnvOr(env.maxConnections, "10")),
      ParseDecimal(EnvOr(env.idleTimeout, "10000")),
      ParseDecimal(EnvOr(env.connectionTimeout, "5000")),
      env.nodeEnv == Some("production"))
  }

  /**
   * With nothing set the pool is in mock mode with ten connections, a ten
   * second idle timeout, a five second connection timeout and no TLS.
   */
  lemma DatabaseConfigDefaults()
    ensures GetDatabaseConfig(NoDbEnv) == DatabaseConfig("", Int(10), Int(10000), Int(5000), false)
  {
    assert NatToString(1) == "1" && NatToString(5) == "5";
    assert NatToString(10) == "10" && NatToString(50) == "50";
    assert NatToString(100) == "100" && NatToString(500) == "500";
    assert NatToString(1000) == "1000" && NatToString(5000) == "5000";
    assert NatToString(10000) == "10000";
    DecimalDefault("10", 10);
    DecimalDefault("10000", 10000);
    DecimalDefault("5000", 5000);
  }

  lemma DecimalDefault(text: string, n: nat)
    requires text == NatToString(n)
    ensures ParseDecimal(EnvOr(None, text)) == Int(n)
  {
    ParseDecimalOfNat(n);
  }

  /** A pool size given as a decimal number is taken as it is. */
  lemma DatabaseConfigOfDecimal(n: nat)
    ensures GetDatabaseConfig(NoDbEnv.(maxConnections := Some(NatToString(n)))).maxConnections == Int(n)
  {
    ParseDecimalOfNat(n);
  }

  // ---------------------------------------------------------------------------
  // Batch insert statements

  /** `rows.flat()`: the rows' values one after another. */
  function Flatten<T>(rows: seq<seq<T>>): (r: seq<T>)
    ensures rows == [] ==> r == []
  {
    if rows == [] then [] else rows[0] + Flatten(rows[1..])
  }

  /** In rows of equal width the flat list holds one width per row. */
  lemma {:induction false} FlattenLength<T>(rows: seq<seq<T>>, width: nat)
    requires forall r :: 0 <= r < |rows| ==> |rows[r]| == width
    ensures |Flatten(rows)| == |rows| * width
  {
    if rows != [] {
      FlattenLength(rows[1..], width);
      assert |rows| * width == width + (|rows| - 1) * width;
    }
  }

  /** In rows of equal width, value `c` of row `r` lands at `r * width + c` of the flat list. */
  lemma {:induction false} FlattenAt<T>(rows: seq<seq<T>>, width: nat, r: nat, c: nat)
    requires forall i :: 0 <= i < |rows| ==> |rows[i]| == width
    requires r < |rows| && c < width
    ensures r * width + c < |Flatten(rows)| && Flatten(rows)[r * width + c] == rows[r][c]
    decreases r
  {
    FlattenLength(rows, width);
    if r > 0 {
      FlattenAt(rows[1..], width, r - 1, c);
      assert r * width + c == |rows[0]| + ((r - 1) * width + c);
    }
  }

  /** The placeholder numbers of row `row`: `rowIndex * columns.length + colIndex + 1`. */
  function RowNumbers(row: nat, width: nat): seq<nat> {
    seq(width, c requires 0 <= c => row * width + c + 1)
  }

  function Placeholder(k: nat): string {
    "$" + NatToString(k)
  }

  /** `(${...join(', ')})` for one row. */
  function RowPlaceholders(row: nat, width: nat): string {
    var ns := RowNumbers(row, width);
    "(" + Join(seq(width, c requires 0 <= c < width => Placeholder(ns[c])), ", ") + ")"
  }

  /** The `VALUES` part of a batch insert of `rows` rows of `width` columns. */
  function Placeholders(rows: nat, width: nat): string {
    Join(seq(rows, r requires 0 <= r => RowPlaceholders(r, width)), ", ")
  }

  /** The placeholder numbers, one row per row of values. */
  function NumberRows(rows: nat, width: nat): (r: seq<seq<nat>>)
    ensures |r| == rows && forall i :: 0 <= i < rows ==> r[i] == RowNumbers(i, width)
  {
    seq(rows, r requires 0 <= r => RowNumbers(r, width))
  }

  /** The placeholder numbers in the order written, row after row. */
  function PlaceholderNumbers(rows: nat, width: nat): seq<nat> {
    Flatten(NumberRows(rows, width))
  }

  /**
   * The placeholders of a batch insert are numbered 1 to rows × width in
   * order, and when every row holds one value per column the placeholder
   * written for row `r`, column `c` refers to exactly that value in the flat
   * parameter list (`$k` is parameter `k - 1`).
   */
  lemma PlaceholderAligned<T>(rows: seq<seq<T>>, width: nat, r: nat, c: nat)
    requires forall i :: 0 <= i < |rows| ==> |rows[i]| == width
    requires r < |rows| && c < width
    ensures |PlaceholderNumbers(|rows|, width)| == |Flatten(rows)| == |rows| * width
    ensures r * width + c < |Flatten(rows)|
    ensures PlaceholderNumbers(|rows|, width)[r * width + c] == r * width + c + 1
    ensures Flatten(rows)[PlaceholderNumbers(|rows|, width)[r * width + c] - 1] == rows[r][c]
  {
    var numbers := NumberRows(|rows|, width);
    FlattenLength(numbers, width);
    FlattenLength(rows, width);
    FlattenAt(numbers, width, r, c);
    FlattenAt(rows, width, r, c);
  }

  /** The statement `batchInsert` hands over: one placeholder per value, the values flattened. */
  function BatchStatement(table: string, columns: seq<string>, rows: seq<seq<SqlValue>>): Statement {
    Statement(
      "INSERT INTO " + table + " (" + Join(columns, ", ") + ") VALUES " + Placeholders(|rows|, |columns|),
      Flatten(rows))
  }

  // ---------------------------------------------------------------------------
  // The pool

  class DatabasePool {
    var config: DatabaseConfig
    var isConnected: bool
    /** The statements handed to the database so far, in order; the log lines show them. */
    var executed: seq<Statement>

    /** No connection string: every call is answered locally. */
    predicate MockMode()
      reads this
    {
      config.connectionString == ""
    }

    constructor(env: DbEnv)
      ensures config == GetDatabaseConfig(env) && !isConnected && executed == []
    {
      config := GetDatabaseConfig(env);
      isConnected := false;
      executed := [];
    }

    /** `isHealthy`: connected, or in mock mode. */
    function IsHealthy(): (r: bool)
      reads this
      ensures MockMode() ==> r
      ensures !isConnected && !MockMode() ==> !r
    {
      isConnected || config.connectionString == ""
    }

    /** `connect`: in mock mode nothing happens; otherwise the pool counts as connected. */
    method Connect()
      modifies this
      ensures isConnected == (old(isConnected) || !MockMode())
      ensures IsHealthy()
      ensures config == old(config) && executed == old(executed)
    {
      if config.connectionString == "" {
        return;
      }
      isConnected := true;
    }

    /** `close`. */
    method Close()
      modifies this
      ensures !isConnected
      ensures IsHealthy() <==> MockMode()
      ensures config == old(config) && executed == old(executed)
    {
      isConnected := false;
    }

    /** `query`: in both modes the statement is logged and answered with no rows. */
    method Query(sql: string, params: seq<SqlValue>) returns (r: QueryResult)
      modifies this
      ensures r == QueryResult([], 0)
      ensures executed == old(executed) + [Statement(sql, params)]
      ensures config == old(config) && isConnected == old(isConnected)
    {
      executed := executed + [Statement(sql, params)];
      r := QueryResult([], 0);
    }

    /**
     * `batchInsert`: nothing for no rows; in mock mode the row count without
     * touching the database; otherwise the single multi-row `INSERT` is handed
     * over and its (placeholder) row count, 0, returned.
     */
    method BatchInsert(table: string, columns: seq<string>, rows: seq<seq<SqlValue>>) returns (n: int)
      modifies this
      ensures rows == [] ==> n == 0 && executed == old(executed)
      ensures rows != [] && MockMode() ==> n == |rows| && executed == old(executed)
      ensures rows != [] && !MockMode() ==>
        n == 0 && executed == old(executed) + [BatchStatement(table, columns, rows)]
      ensures config == old(config) && isConnected == old(isConnected)
    {
      if |rows| == 0 {
        return 0;
      }
      if config.connectionString == "" {
        return |rows|;
      }
      var placeholders := Placeholders(|rows|, |columns|);
      var sql := "INSERT INTO " + table + " (" + Join(columns, ", ") + ") VALUES " + placeholders;
      var flatValues := Flatten(rows);
      var result := Query(sql, flatValues);
      n := result.rowCount;
    }

    /**
     * `healthCheck`, with the two clock readings as inputs: healthy with no
     * latency in mock mode, otherwise after a `SELECT 1` healthy with the
     * time it took (the placeholder query never fails).
     */
    method HealthCheck(start: int, end: int) returns (h: Health)
      modifies this
      ensures MockMode() ==> h == Healthy(0) && executed == old(executed)
      ensures !MockMode() ==> h == Healthy(end - start) && executed == old(executed) + [Statement("SELECT 1", [])]
      ensures config == old(config) && isConnected == old(isConnected)
    {
      if config.connectionString == "" {
        return Healthy(0);
      }
      var _ := Query("SELECT 1", []);
      h := Healthy(end - start);
    }
  }
}
