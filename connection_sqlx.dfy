/** The asynchronous sqlx backend: classifying a client-declared column type
    name, shaping fetched rows into a list of tuples, and the connection object
    with its shared pool reference count and its never-evicting query cache. */
module ConnectionSqlx {
  import opened Wrappers
  import opened Columns

  /** The lowercase spellings the backend accepts; each is also accepted in
      all-uppercase form. */
  const SqlxTypeNames: seq<string> :=
    ["bool", "int2", "int4", "int8", "float4", "float8",
     "text", "unknown", "bpchar", "varchar", "name", "oid",
     "json", "jsonb", "uuid"]

  function UpperChar(c: char): char {
    if 'a' <= c <= 'z' then (c as int - 'a' as int + 'A' as int) as char else c
  }

  /** ASCII uppercase of a name. */
  function AsciiUpper(s: string): (u: string)
    ensures |u| == |s|
  {
    seq(|s|, i requires 0 <= i < |s| => UpperChar(s[i]))
  }

  /** The uppercase spellings, position by position. */
  const SqlxUpperTypeNames: seq<string> :=
    ["BOOL", "INT2", "INT4", "INT8", "FLOAT4", "FLOAT8",
     "TEXT", "UNKNOWN", "BPCHAR", "VARCHAR", "NAME", "OID",
     "JSON", "JSONB", "UUID"]

  /** The kind a declared column type name decodes to (the `match` of
      `deserialize_column`). Note that only the exact name "json" keeps the
      whole payload: "JSON" is decoded like jsonb. */
  function SqlxKind(colTy: string): (r: Result<ColumnKind, Fault>)
    ensures r.Err? ==> r.error == UnknownTypeName(colTy)
  {
    match colTy
    case "bool" | "BOOL" => Ok(Boolean)
    case "int2" | "INT2" => Ok(Int16)
    case "int4" | "INT4" => Ok(Int32)
    case "int8" | "INT8" => Ok(Int64)
    case "float4" | "FLOAT4" => Ok(Float32)
    case "float8" | "FLOAT8" => Ok(Float64)
    case "text" | "unknown" | "bpchar" | "varchar" | "TEXT" | "UNKNOWN" | "BPCHAR" | "VARCHAR" => Ok(Text)
    case "name" | "NAME" => Ok(Text)
    case "oid" | "OID" => Ok(Int32)
    case "json" | "jsonb" | "JSON" | "JSONB" => Ok(if colTy == "json" then Json else Jsonb)
    case "uuid" | "UUID" => Ok(Uuid)
    case _ => Err(UnknownTypeName(colTy))
  }

  /** Column `colIdx` of `row`, decoded as the declared type `colTy`. */
  function DeserializeColumn(row: Row, colTy: string, colIdx: nat): (r: Result<Cell, Fault>)
    ensures SqlxKind(colTy).Err? ==> r == Err(UnknownTypeName(colTy))
    ensures r.Ok? ==> Ok(r.value.kind) == SqlxKind(colTy) && colIdx < |row| && row[colIdx].Some?
  {
    DecodeColumn(SqlxKind(colTy), row, colIdx)
  }

  /** The declared types of a query, each resolved to its kind. */
  function SqlxColumnKinds(columns: seq<string>): (ks: seq<Result<ColumnKind, Fault>>)
    ensures |ks| == |columns|
    ensures forall j :: 0 <= j < |columns| ==> ks[j] == SqlxKind(columns[j])
  {
    seq(|columns|, j requires 0 <= j < |columns| => SqlxKind(columns[j]))
  }

  /** `SlonikRows::to_object`: one tuple per fetched row, in fetch order, whose
      value `j` is column `j` decoded with the declared type `columns[j]`. */
  function ToObject(rows: seq<Row>, columns: seq<string>): (r: Result<Tuples, Fault>)
    ensures r.Ok? <==> forall i, j :: 0 <= i < |rows| && 0 <= j < |columns| ==> DeserializeColumn(rows[i], columns[j], j).Ok?
    ensures r.Ok? ==> |r.value| == |rows| && forall i :: 0 <= i < |rows| ==> |r.value[i]| == |columns|
    ensures r.Ok? ==> forall i, j :: 0 <= i < |rows| && 0 <= j < |columns| ==>
                        r.value[i][j] == DeserializeColumn(rows[i], columns[j], j).value
  {
    DecodeRows(rows, SqlxColumnKinds(columns))
  }

  /** The uppercase table holds the ASCII uppercase of each lowercase name. */
  lemma UpperTypeName(k: nat)
    requires k < |SqlxTypeNames|
    ensures |SqlxUpperTypeNames| == |SqlxTypeNames|
    ensures AsciiUpper(SqlxTypeNames[k]) == SqlxUpperTypeNames[k]
  {
    if k == 0 {} else if k == 1 {} else if k == 2 {} else if k == 3 {} else if k == 4 {}
    else if k == 5 {} else if k == 6 {} else if k == 7 {} else if k == 8 {} else if k == 9 {}
    else if k == 10 {} else if k == 11 {} else if k == 12 {} else if k == 13 {} else {}
  }

  /** The position of an accepted name in the spelling tables. */
  function SpellingIndex(colTy: string): (k: nat)
    requires SqlxKind(colTy).Ok?
    ensures k < |SqlxTypeNames| && (colTy == SqlxTypeNames[k] || colTy == SqlxUpperTypeNames[k])
  {
    match colTy
    case "bool" | "BOOL" => 0
    case "int2" | "INT2" => 1
    case "int4" | "INT4" => 2
    case "int8" | "INT8" => 3
    case "float4" | "FLOAT4" => 4
    case "float8" | "FLOAT8" => 5
    case "text" | "TEXT" => 6
    case "unknown" | "UNKNOWN" => 7
    case "bpchar" | "BPCHAR" => 8
    case "varchar" | "VARCHAR" => 9
    case "name" | "NAME" => 10
    case "oid" | "OID" => 11
    case "json" | "JSON" => 12
    case "jsonb" | "JSONB" => 13
    case _ => 14
  }

  /** Exactly the listed spellings are accepted, each in all-lowercase or
      all-uppercase form; any other name (a mixed-case "Int4", say) fails. */
  lemma SqlxAcceptedSpellings(colTy: string)
    ensures SqlxKind(colTy).Ok? <==>
      exists k :: 0 <= k < |SqlxTypeNames| && (colTy == SqlxTypeNames[k] || colTy == AsciiUpper(SqlxTypeNames[k]))
  {
    if SqlxKind(colTy).Ok? {
      var k := SpellingIndex(colTy);
      UpperTypeName(k);
    } else {
      forall k | 0 <= k < |SqlxTypeNames|
        ensures colTy != SqlxTypeNames[k] && colTy != AsciiUpper(SqlxTypeNames[k])
      {
        UpperTypeName(k);
      }
    }
  }

  /** Both spellings of a name decode alike, except "json", whose uppercase
      spelling drops the first payload byte. */
  lemma SqlxUpperSpelling(k: nat)
    requires k < |SqlxTypeNames|
    ensures SqlxKind(SqlxTypeNames[k]).Ok?
    ensures SqlxTypeNames[k] != "json" ==> SqlxKind(AsciiUpper(SqlxTypeNames[k])) == SqlxKind(SqlxTypeNames[k])
    ensures SqlxTypeNames[k] == "json" ==> SqlxKind(AsciiUpper(SqlxTypeNames[k])) == Ok(Jsonb)
  {
    UpperTypeName(k);
  }

  /** Only the exact name "json" hands the whole payload to the JSON decoder;
      "jsonb", "JSONB" and also "JSON" drop its first byte. */
  lemma OnlyLowercaseJsonKeepsPayload(colTy: string)
    ensures SqlxKind(colTy) == Ok(Json) <==> colTy == "json"
    ensures SqlxKind(colTy) == Ok(Jsonb) <==> colTy in {"jsonb", "JSON", "JSONB"}
  {
  }

  /** The payload each JSON or UUID spelling hands to its decoder: "json"
      the whole payload, "jsonb", "JSONB" and "JSON" the payload without its
      first byte (failing on an empty payload), "uuid" and "UUID" the raw bytes. */
  lemma SqlxBytePayloads(row: Row, colTy: string, colIdx: nat)
    requires colTy in {"json", "jsonb", "JSON", "JSONB", "uuid", "UUID"}
    requires colIdx < |row| && row[colIdx].Some?
    ensures colTy == "json" ==> DeserializeColumn(row, colTy, colIdx) == Ok(Cell(Json, row[colIdx].value))
    ensures colTy in {"uuid", "UUID"} ==> DeserializeColumn(row, colTy, colIdx) == Ok(Cell(Uuid, row[colIdx].value))
    ensures colTy in {"jsonb", "JSON", "JSONB"} && |row[colIdx].value| == 0 ==>
              DeserializeColumn(row, colTy, colIdx) == Err(EmptyJsonbPayload)
    ensures colTy in {"jsonb", "JSON", "JSONB"} && |row[colIdx].value| > 0 ==>
              var r := DeserializeColumn(row, colTy, colIdx);
              r.Ok? && r.value.kind == Jsonb && row[colIdx].value == [row[colIdx].value[0]] + r.value.input
  {
    OnlyLowercaseJsonKeepsPayload(colTy);
  }

  lemma MixedCaseRejected()
    ensures SqlxKind("Int4") == Err(UnknownTypeName("Int4"))
    ensures SqlxKind("Json") == Err(UnknownTypeName("Json"))
  {
  }

  /** The pool behind an `Arc`: `strong` is the strong count. The connection
      owns one reference (`ownerHeld`) and every spawned query task holds one
      (`borrowers`). */
  class Pool {
    var strong: nat
    ghost var ownerHeld: bool
    ghost var borrowers: set<object>

    ghost predicate Valid()
      reads this
    {
      strong == |borrowers| + (if ownerHeld then 1 else 0)
    }

    /** `Arc::new`: one strong reference, owned by the caller. */
    constructor ()
      ensures Valid() && ownerHeld && borrowers == {} && strong == 1
    {
      strong := 1;
      ownerHeld := true;
      borrowers := {};
    }

    /** `Arc::clone` on behalf of `holder`. */
    method Acquire(holder: object)
      requires Valid() && holder !in borrowers
      modifies this
      ensures Valid() && ownerHeld == old(ownerHeld)
      ensures borrowers == old(borrowers) + {holder} && strong == old(strong) + 1
    {
      strong := strong + 1;
      borrowers := borrowers + {holder};
    }

    /** Dropping the `Arc` that `holder` held. */
    method Release(holder: object)
      requires Valid() && holder in borrowers
      modifies this
      ensures Valid() && ownerHeld == old(ownerHeld)
      ensures borrowers == old(borrowers) - {holder} && strong == old(strong) - 1
    {
      strong := strong - 1;
      borrowers := borrowers - {holder};
    }

    /** Dropping the owner's reference (`Arc::from_raw` whose result is dropped). */
    method ReleaseOwner()
      requires Valid() && ownerHeld
      modifies this
      ensures Valid() && !ownerHeld && borrowers == old(borrowers) && strong == old(strong) - 1
    {
      strong := strong - 1;
      ownerHeld := false;
    }
  }

  /** The pool is freed exactly when nobody holds a reference any more. */
  lemma PoolFreedOnlyWhenUnreferenced(p: Pool)
    requires p.Valid()
    ensures p.strong == 0 <==> !p.ownerHeld && p.borrowers == {}
  {
    if p.borrowers != {} {
      var b :| b in p.borrowers;
      assert |p.borrowers| >= |{b}|;
    }
  }

  /** The query-text-keyed cache of the "cheating" build; it only ever grows. */
  class QueryCache {
    var entries: map<string, Tuples>

    constructor ()
      ensures entries == map[]
    {
      entries := map[];
    }

    method Get(query: string) returns (r: Option<Tuples>)
      ensures query in entries <==> r.Some?
      ensures r.Some? ==> r.value == entries[query]
    {
      r := if query in entries then Some(entries[query]) else None;
    }

    method Insert(query: string, rows: Tuples)
      modifies this
      ensures entries == old(entries)[query := rows]
      ensures old(entries).Keys <= entries.Keys
    {
      entries := entries[query := rows];
    }
  }

  /** What the driver's `fetch_all` produced for a task: the rows, or an error. */
  datatype Fetched = Rows(rows: seq<Row>) | DriverError

  /** The result delivered to the completion callback once a query task has
      fetched: its rows shaped into tuples, or the panic that aborts it. */
  function QueryResult(fetched: Fetched, columns: seq<string>): (r: Result<Tuples, Fault>)
    ensures fetched.DriverError? ==> r == Err(FetchFailed)
    ensures fetched.Rows? ==> r == ToObject(fetched.rows, columns)
  {
    match fetched
    case DriverError => Err(FetchFailed)
    case Rows(rows) => ToObject(rows, columns)
  }

  /** A spawned query: the `async` block holding the pool clone, the query
      text, the declared column types and (when caching) the shared cache. */
  class QueryTask {
    const pool: Pool
    const cache: QueryCache?
    const query: string
    const columns: seq<string>
    var finished: bool

    constructor (pool: Pool, cache: QueryCache?, query: string, columns: seq<string>)
      ensures this.pool == pool && this.cache == cache && this.query == query && this.columns == columns
      ensures !finished
    {
      this.pool := pool;
      this.cache := cache;
      this.query := query;
      this.columns := columns;
      finished := false;
    }

    /** The task runs to completion: `do_query` fetches and then drops its pool
        reference, the rows are shaped, stored in the cache under the query
        text, and the same rows are what the completion callback receives. */
    method Complete(fetched: Fetched) returns (delivered: Result<Tuples, Fault>)
      requires !finished && pool.Valid() && this in pool.borrowers
      modifies this, pool, cache
      ensures finished && pool.Valid() && pool.ownerHeld == old(pool.ownerHeld)
      ensures pool.borrowers == old(pool.borrowers) - {this} && pool.strong == old(pool.strong) - 1
      ensures delivered == QueryResult(fetched, columns)
      ensures cache != null && delivered.Ok? ==> cache.entries == old(cache.entries)[query := delivered.value]
      ensures cache != null && delivered.Err? ==> cache.entries == old(cache.entries)
    {
      pool.Release(this);
      delivered := QueryResult(fetched, columns);
      if cache != null && delivered.Ok? {
        cache.Insert(query, delivered.value);
      }
      finished := true;
    }
  }

  /** `SqlxConnection`: the owner's pool reference and, in the caching build,
      the cache. */
  class SqlxConnection {
    const pool: Pool
    const cache: QueryCache?

    /** `SqlxConnection::new`: a fresh pool owned by this connection, and an
        empty cache when the caching build is selected. */
    constructor (caching: bool)
      ensures fresh(pool) && pool.Valid() && pool.ownerHeld && pool.borrowers == {} && pool.strong == 1
      ensures caching <==> cache != null
      ensures cache != null ==> fresh(cache) && cache.entries == map[]
    {
      pool := new Pool();
      if caching {
        cache := new QueryCache();
      } else {
        cache := null;
      }
    }

    /** `SqlxConnection::query`. On a cache hit the cached rows go straight to
        the callback and nothing is spawned; otherwise the pool gains one strong
        reference, held by the new task, and the connection keeps its own. */
    method Query(query: string, columns: seq<string>) returns (cached: Option<Tuples>, task: QueryTask?)
      requires pool.Valid() && pool.ownerHeld
      modifies pool
      ensures pool.Valid() && pool.ownerHeld
      ensures cached.Some? <==> task == null
      ensures cache != null && query in cache.entries ==>
                cached == Some(cache.entries[query]) && pool.strong == old(pool.strong) && pool.borrowers == old(pool.borrowers)
      ensures cache == null || query !in cache.entries ==>
                task != null && fresh(task) && !task.finished
                && task.pool == pool && task.cache == cache && task.query == query && task.columns == columns
                && pool.borrowers == old(pool.borrowers) + {task} && pool.strong == old(pool.strong) + 1
    {
      if cache != null {
        var hit := cache.Get(query);
        if hit.Some? {
          return hit, null;
        }
      }
      task := new QueryTask(pool, cache, query, columns);
      pool.Acquire(task);
      cached := None;
    }

    /** `Drop for SqlxConnection`: the owner's reference is released once. */
    method Drop()
      requires pool.Valid() && pool.ownerHeld
      modifies pool
      ensures pool.Valid() && !pool.ownerHeld && pool.borrowers == old(pool.borrowers)
      ensures pool.strong == old(pool.strong) - 1
    {
      pool.ReleaseOwner();
    }
  }

  /** Two tasks share the pool. Once the first has completed, its query text
      is answered from the cache without a task; dropping the connection while
      the second is in flight leaves the pool referenced until it completes. */
  method PoolAndCacheScenario()
  {
    var conn := new SqlxConnection(true);
    var cached1, t1 := conn.Query("SELECT 1", ["int2"]);
    var cached2, t2 := conn.Query("SELECT 1::int4", ["int4"]);
    assert t1 != null && t2 != null && t1 != t2;
    assert conn.pool.strong == 3;
    var r1 := t1.Complete(Rows([]));
    assert r1 == Ok([]);
    assert conn.pool.strong == 2;
    assert conn.cache.entries == map["SELECT 1" := []];
    var cached3, t3 := conn.Query("SELECT 1", ["int2"]);
    assert cached3 == Some([]) && t3 == null;
    assert conn.pool.strong == 2;
    conn.Drop();
    assert conn.pool.strong == 1;
    var r2 := t2.Complete(DriverError);
    assert r2 == Err(FetchFailed);
    PoolFreedOnlyWhenUnreferenced(conn.pool);
    assert conn.pool.strong == 0 && conn.pool.borrowers == {};
    assert conn.cache.entries == map["SELECT 1" := []];
  }
}
