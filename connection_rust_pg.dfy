/** The synchronous rust-postgres backend: the result set carries its own
    column types, each a Postgres type identified here by its OID, and every
    row is decoded column by column with the type the server reported. */
module ConnectionRustPg {
  import opened Wrappers
  import opened Columns
  import ConnectionSqlx

  /** A Postgres type OID (an unsigned 32-bit number). */
  type Oid = x: int | 0 <= x < 0x1_0000_0000

  const BOOL: Oid := 16
  const CHAR: Oid := 18
  const NAME: Oid := 19
  const INT8: Oid := 20
  const INT2: Oid := 21
  const INT4: Oid := 23
  const TEXT: Oid := 25
  const OID: Oid := 26
  const JSON: Oid := 114
  const FLOAT4: Oid := 700
  const FLOAT8: Oid := 701
  const UNKNOWN: Oid := 705
  const BPCHAR: Oid := 1042
  const VARCHAR: Oid := 1043
  const UUID: Oid := 2950
  const JSONB: Oid := 3802

  /** The type tags `deserialize_column` handles. */
  const KnownTypes: set<Oid> :=
    {BOOL, CHAR, NAME, INT8, INT2, INT4, TEXT, OID, JSON, FLOAT4, FLOAT8, UNKNOWN, BPCHAR, VARCHAR, UUID, JSONB}

  /** The kind a column's type tag decodes to (the `match` of
      `deserialize_column`). */
  function PgKind(colTy: Oid): (r: Result<ColumnKind, Fault>)
    ensures r.Err? ==> r.error == UnknownTypeTag(colTy)
  {
    if colTy == BOOL then Ok(Boolean)
    else if colTy == CHAR then Ok(Int8)
    else if colTy == INT2 then Ok(Int16)
    else if colTy == INT4 then Ok(Int32)
    else if colTy == INT8 then Ok(Int64)
    else if colTy == FLOAT4 then Ok(Float32)
    else if colTy == FLOAT8 then Ok(Float64)
    else if colTy == TEXT || colTy == UNKNOWN || colTy == BPCHAR || colTy == VARCHAR then Ok(Text)
    else if colTy == OID then Ok(UInt32)
    else if colTy == NAME then Ok(Text)
    else if colTy == JSON || colTy == JSONB then Ok(if colTy == JSON then Json else Jsonb)
    else if colTy == UUID then Ok(Uuid)
    else Err(UnknownTypeTag(colTy))
  }

  /** Column `colIdx` of `row`, decoded with the type tag `colTy`. */
  function DeserializeColumn(row: Row, colTy: Oid, colIdx: nat): (r: Result<Cell, Fault>)
    ensures PgKind(colTy).Err? ==> r == Err(UnknownTypeTag(colTy))
    ensures r.Ok? ==> Ok(r.value.kind) == PgKind(colTy) && colIdx < |row| && row[colIdx].Some?
  {
    DecodeColumn(PgKind(colTy), row, colIdx)
  }

  /** A query's result: the columns' type tags and the rows. */
  datatype ResultSet = ResultSet(columns: seq<Oid>, rows: seq<Row>)

  function PgColumnKinds(columns: seq<Oid>): (ks: seq<Result<ColumnKind, Fault>>)
    ensures |ks| == |columns|
    ensures forall j :: 0 <= j < |columns| ==> ks[j] == PgKind(columns[j])
  {
    seq(|columns|, j requires 0 <= j < |columns| => PgKind(columns[j]))
  }

  /** `deserialize_rows`: one tuple per row, with exactly as many values as
      the result has columns, value `j` decoded with column `j`'s type. */
  function DeserializeRows(rs: ResultSet): (r: Result<Tuples, Fault>)
    ensures r.Ok? <==> forall i, j :: 0 <= i < |rs.rows| && 0 <= j < |rs.columns| ==>
                         DeserializeColumn(rs.rows[i], rs.columns[j], j).Ok?
    ensures r.Ok? ==> |r.value| == |rs.rows| && forall i :: 0 <= i < |rs.rows| ==> |r.value[i]| == |rs.columns|
    ensures r.Ok? ==> forall i, j :: 0 <= i < |rs.rows| && 0 <= j < |rs.columns| ==>
                        r.value[i][j] == DeserializeColumn(rs.rows[i], rs.columns[j], j).value
  {
    DecodeRows(rs.rows, PgColumnKinds(rs.columns))
  }

  /** What the driver returned for a query or a prepared statement. */
  datatype Executed = Returned(result: ResultSet) | ExecutionError

  /** `RustPgConnection::query`: an execution error aborts ("Couldn't execute
      query"); it is never returned to the caller as a value. */
  function Query(executed: Executed): (r: Result<Tuples, Fault>)
    ensures executed.ExecutionError? ==> r == Err(QueryFailed)
    ensures executed.Returned? ==> r == DeserializeRows(executed.result)
  {
    match executed
    case ExecutionError => Err(QueryFailed)
    case Returned(rs) => DeserializeRows(rs)
  }

  /** `Statement::query`: the same, with "Couldn't execute prepared statement". */
  function StatementQuery(executed: Executed): (r: Result<Tuples, Fault>)
    ensures executed.ExecutionError? ==> r == Err(PreparedStatementFailed)
    ensures executed.Returned? ==> r == DeserializeRows(executed.result)
  {
    match executed
    case ExecutionError => Err(PreparedStatementFailed)
    case Returned(rs) => DeserializeRows(rs)
  }

  /** Every tag outside the handled set is a fatal failure, and every tag in
      it is accepted. */
  lemma PgAcceptedTypes(colTy: Oid)
    ensures PgKind(colTy).Ok? <==> colTy in KnownTypes
  {
  }

  /** JSON hands the whole payload to the JSON decoder, JSONB the payload
      without its first byte (failing on an empty payload), and UUID the raw
      bytes to the identifier constructor. */
  lemma PgBytePayloads(row: Row, colTy: Oid, colIdx: nat)
    requires colTy in {JSON, JSONB, UUID}
    requires colIdx < |row| && row[colIdx].Some?
    ensures colTy == JSON ==> DeserializeColumn(row, colTy, colIdx) == Ok(Cell(Json, row[colIdx].value))
    ensures colTy == UUID ==> DeserializeColumn(row, colTy, colIdx) == Ok(Cell(Uuid, row[colIdx].value))
    ensures colTy == JSONB && |row[colIdx].value| == 0 ==> DeserializeColumn(row, colTy, colIdx) == Err(EmptyJsonbPayload)
    ensures colTy == JSONB && |row[colIdx].value| > 0 ==>
              var r := DeserializeColumn(row, colTy, colIdx);
              r.Ok? && r.value.kind == Jsonb && row[colIdx].value == [row[colIdx].value[0]] + r.value.input
  {
  }

  /** A result set whose rows are as wide as its columns, with known types, no
      NULL and no empty jsonb payload, always decodes. */
  lemma WellFormedResultDecodes(rs: ResultSet)
    requires forall j :: 0 <= j < |rs.columns| ==> rs.columns[j] in KnownTypes
    requires forall i :: 0 <= i < |rs.rows| ==> |rs.rows[i]| == |rs.columns|
    requires forall i, j :: 0 <= i < |rs.rows| && 0 <= j < |rs.columns| ==> rs.rows[i][j].Some?
    requires forall i, j :: 0 <= i < |rs.rows| && 0 <= j < |rs.columns| && rs.columns[j] == JSONB ==>
               |rs.rows[i][j].value| > 0
    ensures DeserializeRows(rs).Ok?
  {
    var ks := PgColumnKinds(rs.columns);
    forall j | 0 <= j < |ks| ensures ks[j].Ok? {
      PgAcceptedTypes(rs.columns[j]);
    }
    assert Decodable(rs.rows, ks);
    DecodableRowsSucceed(rs.rows, ks);
  }

  /** The catalog name (`pg_type.typname`) of each handled type: the name the
      sqlx backend is given for the same type. */
  function TypName(colTy: Oid): (n: string)
    requires colTy in KnownTypes
    ensures n in ConnectionSqlx.SqlxTypeNames || n == "char"
  {
    if colTy == BOOL then "bool"
    else if colTy == CHAR then "char"
    else if colTy == NAME then "name"
    else if colTy == INT8 then "int8"
    else if colTy == INT2 then "int2"
    else if colTy == INT4 then "int4"
    else if colTy == TEXT then "text"
    else if colTy == OID then "oid"
    else if colTy == JSON then "json"
    else if colTy == FLOAT4 then "float4"
    else if colTy == FLOAT8 then "float8"
    else if colTy == UNKNOWN then "unknown"
    else if colTy == BPCHAR then "bpchar"
    else if colTy == VARCHAR then "varchar"
    else if colTy == UUID then "uuid"
    else "jsonb"
  }

  /** The case analysis of `BackendsAgree`, one group of types at a time. */
  lemma NumericBackendsAgree(colTy: Oid)
    requires colTy in {BOOL, INT2, INT4, INT8, FLOAT4, FLOAT8}
    ensures ConnectionSqlx.SqlxKind(TypName(colTy)) == PgKind(colTy)
  {
  }

  lemma TextBackendsAgree(colTy: Oid)
    requires colTy in {TEXT, UNKNOWN, BPCHAR, VARCHAR, NAME}
    ensures ConnectionSqlx.SqlxKind(TypName(colTy)) == PgKind(colTy)
  {
  }

  lemma BytesBackendsAgree(colTy: Oid)
    requires colTy in {JSON, JSONB, UUID}
    ensures ConnectionSqlx.SqlxKind(TypName(colTy)) == PgKind(colTy)
  {
  }

  /** The two backends agree on every type they both handle, under its
      catalog name, except `oid`, which rust-postgres decodes as unsigned and
      sqlx as signed 32-bit; `char` is handled by rust-postgres only. */
  lemma BackendsAgree(colTy: Oid)
    requires colTy in KnownTypes
    ensures colTy != OID && colTy != CHAR ==> ConnectionSqlx.SqlxKind(TypName(colTy)) == PgKind(colTy)
    ensures colTy == OID ==> PgKind(colTy) == Ok(UInt32) && ConnectionSqlx.SqlxKind(TypName(colTy)) == Ok(Int32)
    ensures colTy == CHAR ==> PgKind(colTy) == Ok(Int8) && ConnectionSqlx.SqlxKind(TypName(colTy)).Err?
  {
    if colTy in {BOOL, INT2, INT4, INT8, FLOAT4, FLOAT8} {
      NumericBackendsAgree(colTy);
    } else if colTy in {TEXT, UNKNOWN, BPCHAR, VARCHAR, NAME} {
      TextBackendsAgree(colTy);
    } else if colTy in {JSON, JSONB, UUID} {
      BytesBackendsAgree(colTy);
    }
  }
}
