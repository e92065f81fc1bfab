/** Column decoding shared by both database backends: the closed set of value
    kinds a declared column type resolves to, the decoding of one column of a
    fetched row, and the shaping of fetched rows into a list of tuples. The
    conversions themselves (a bool or an integer read from the wire, `json.loads`,
    `uuid.UUID(bytes=...)`) are foreign calls and stay abstract: a decoded cell
    records which conversion is applied and to exactly which bytes. */
module Columns {
  import opened Wrappers

  type byte = x: int | 0 <= x < 256
  type Bytes = seq<byte>

  /** The columns of one fetched row as the driver hands them over: the wire
      payload of each column, or `None` for SQL NULL. */
  type Row = seq<Option<Bytes>>

  /** The host value kind a column decodes to. */
  datatype ColumnKind =
    | Boolean
    | Int8 | Int16 | Int32 | Int64
    | UInt32
    | Float32 | Float64
    | Text
    | Json   // the JSON decoder receives the whole payload
    | Jsonb  // the JSON decoder receives the payload without its first (format version) byte
    | Uuid   // the identifier is built from the raw payload bytes

  /** One decoded value: the conversion `kind` applied to `input`. */
  datatype Cell = Cell(kind: ColumnKind, input: Bytes)

  type Tuple = seq<Cell>
  type Tuples = seq<Tuple>

  /** Every way decoding or querying aborts the process in the source. */
  datatype Fault =
    | UnknownTypeName(name: string)         // sqlx backend: `panic!("unknown type ...")`
    | UnknownTypeTag(oid: int)              // rust-postgres backend: the same panic on a type tag
    | ColumnIndexOutOfRange(index: nat)     // `row.get(i)` past the row's last column
    | UnexpectedNull(index: nat)            // `row.get` / `get_bytes(..).expect(..)` on SQL NULL
    | EmptyJsonbPayload                     // `&value[1..]` of an empty payload
    | FetchFailed                           // sqlx `fetch_all(..).await.unwrap()`
    | QueryFailed                           // "Couldn't execute query"
    | PreparedStatementFailed               // "Couldn't execute prepared statement"

  /** The bytes the JSON decoder (or any other conversion) receives for a
      payload of the given kind. */
  function DecoderInput(kind: ColumnKind, payload: Bytes): (r: Result<Bytes, Fault>)
    ensures kind != Jsonb ==> r == Ok(payload)
    ensures kind == Jsonb ==> (r.Ok? <==> |payload| > 0)
    ensures kind == Jsonb && r.Ok? ==> payload == [payload[0]] + r.value
    ensures r.Err? ==> r.error == EmptyJsonbPayload
  {
    if kind != Jsonb then Ok(payload)
    else if |payload| == 0 then Err(EmptyJsonbPayload)
    else Ok(payload[1..])
  }

  /** Decodes column `index` of `row` with the kind its declared type resolved
      to. The declared type is examined first: an unknown type fails before
      the row is touched. */
  function DecodeColumn(kind: Result<ColumnKind, Fault>, row: Row, index: nat): (r: Result<Cell, Fault>)
    ensures kind.Err? ==> r == Err(kind.error)
    ensures r.Ok? <==> kind.Ok? && index < |row| && row[index].Some? && DecoderInput(kind.value, row[index].value).Ok?
    ensures r.Ok? ==> r.value == Cell(kind.value, DecoderInput(kind.value, row[index].value).value)
  {
    match kind
    case Err(e) => Err(e)
    case Ok(k) =>
      if index >= |row| then Err(ColumnIndexOutOfRange(index))
      else match row[index]
        case None => Err(UnexpectedNull(index))
        case Some(payload) =>
          match DecoderInput(k, payload)
          case Err(e) => Err(e)
          case Ok(input) => Ok(Cell(k, input))
  }

  /** One tuple: column `j` of `row` decoded with `kinds[j]`, columns left to
      right, stopping at the first failure. */
  function DecodeTuple(row: Row, kinds: seq<Result<ColumnKind, Fault>>): (r: Result<Tuple, Fault>)
    decreases |kinds|
    ensures r.Ok? <==> forall j :: 0 <= j < |kinds| ==> DecodeColumn(kinds[j], row, j).Ok?
    ensures r.Ok? ==> |r.value| == |kinds|
    ensures r.Ok? ==> forall j :: 0 <= j < |kinds| ==> r.value[j] == DecodeColumn(kinds[j], row, j).value
  {
    if |kinds| == 0 then Ok([])
    else
      var n := |kinds| - 1;
      assert forall j :: 0 <= j < n ==> kinds[..n][j] == kinds[j];
      match DecodeTuple(row, kinds[..n])
      case Err(e) => Err(e)
      case Ok(front) =>
        match DecodeColumn(kinds[n], row, n)
        case Err(e) => Err(e)
        case Ok(c) =>
          assert forall j :: 0 <= j < n ==> (front + [c])[j] == front[j];
          Ok(front + [c])
  }

  /** The list of tuples: one per fetched row, in fetch order, stopping at the
      first row that fails. */
  function DecodeRows(rows: seq<Row>, kinds: seq<Result<ColumnKind, Fault>>): (r: Result<Tuples, Fault>)
    decreases |rows|
    ensures r.Ok? <==> forall i :: 0 <= i < |rows| ==> DecodeTuple(rows[i], kinds).Ok?
    ensures r.Ok? ==> |r.value| == |rows|
    ensures r.Ok? ==> forall i :: 0 <= i < |rows| ==> r.value[i] == DecodeTuple(rows[i], kinds).value
  {
    if |rows| == 0 then Ok([])
    else
      var n := |rows| - 1;
      assert forall i :: 0 <= i < n ==> rows[..n][i] == rows[i];
      match DecodeRows(rows[..n], kinds)
      case Err(e) => Err(e)
      case Ok(front) =>
        match DecodeTuple(rows[n], kinds)
        case Err(e) => Err(e)
        case Ok(t) =>
          assert forall i :: 0 <= i < n ==> (front + [t])[i] == front[i];
          Ok(front + [t])
  }

  /** A failing tuple reports the fault of its first failing column. */
  lemma {:induction false} TupleFailsAtFirstColumn(row: Row, kinds: seq<Result<ColumnKind, Fault>>)
    requires DecodeTuple(row, kinds).Err?
    ensures exists j :: 0 <= j < |kinds| && DecodeColumn(kinds[j], row, j) == Err(DecodeTuple(row, kinds).error)
                        && forall m :: 0 <= m < j ==> DecodeColumn(kinds[m], row, m).Ok?
  {
    var n := |kinds| - 1;
    assert forall j :: 0 <= j < n ==> kinds[..n][j] == kinds[j];
    if DecodeTuple(row, kinds[..n]).Err? {
      TupleFailsAtFirstColumn(row, kinds[..n]);
      var j :| 0 <= j < n && DecodeColumn(kinds[..n][j], row, j) == Err(DecodeTuple(row, kinds[..n]).error)
               && forall m :: 0 <= m < j ==> DecodeColumn(kinds[..n][m], row, m).Ok?;
      assert DecodeColumn(kinds[j], row, j) == Err(DecodeTuple(row, kinds).error);
    } else {
      assert DecodeColumn(kinds[n], row, n) == Err(DecodeTuple(row, kinds).error);
    }
  }

  /** A failing list of tuples reports the fault of its first failing row. */
  lemma {:induction false} RowsFailAtFirstRow(rows: seq<Row>, kinds: seq<Result<ColumnKind, Fault>>)
    requires DecodeRows(rows, kinds).Err?
    ensures exists i :: 0 <= i < |rows| && DecodeTuple(rows[i], kinds) == Err(DecodeRows(rows, kinds).error)
                        && forall m :: 0 <= m < i ==> DecodeTuple(rows[m], kinds).Ok?
  {
    var n := |rows| - 1;
    var front := rows[..n];
    var e := DecodeRows(rows, kinds).error;
    if DecodeRows(front, kinds).Err? {
      RowsFailAtFirstRow(front, kinds);
      var i :| 0 <= i < n && DecodeTuple(front[i], kinds) == Err(e)
               && forall m :: 0 <= m < i ==> DecodeTuple(front[m], kinds).Ok?;
      assert front[i] == rows[i];
      assert forall m :: 0 <= m < i ==> front[m] == rows[m];
    } else {
      assert DecodeTuple(rows[n], kinds) == Err(e);
      assert forall m :: 0 <= m < n ==> front[m] == rows[m];
    }
  }

  /** Decoding cannot fail when every declared type is known, every row is as
      wide as the declared columns, no value is NULL and no jsonb payload is
      empty. */
  ghost predicate Decodable(rows: seq<Row>, kinds: seq<Result<ColumnKind, Fault>>)
  {
    && (forall j :: 0 <= j < |kinds| ==> kinds[j].Ok?)
    && forall i :: 0 <= i < |rows| ==>
         |rows[i]| >= |kinds| &&
         forall j :: 0 <= j < |kinds| ==>
           rows[i][j].Some? && (kinds[j].value == Jsonb ==> |rows[i][j].value| > 0)
  }

  lemma DecodableRowsSucceed(rows: seq<Row>, kinds: seq<Result<ColumnKind, Fault>>)
    ensures DecodeRows(rows, kinds).Ok? <==> |rows| == 0 || Decodable(rows, kinds)
  {
    if DecodeRows(rows, kinds).Ok? && |rows| > 0 {
      forall j | 0 <= j < |kinds| ensures kinds[j].Ok? {
        assert DecodeTuple(rows[0], kinds).Ok?;
        assert DecodeColumn(kinds[j], rows[0], j).Ok?;
      }
      forall i | 0 <= i < |rows|
        ensures |rows[i]| >= |kinds|
        ensures forall j :: 0 <= j < |kinds| ==> rows[i][j].Some? && (kinds[j].value == Jsonb ==> |rows[i][j].value| > 0)
      {
        assert DecodeTuple(rows[i], kinds).Ok?;
        if |kinds| > 0 {
          assert DecodeColumn(kinds[|kinds| - 1], rows[i], |kinds| - 1).Ok?;
        }
        forall j | 0 <= j < |kinds| ensures rows[i][j].Some? && (kinds[j].value == Jsonb ==> |rows[i][j].value| > 0) {
          assert DecodeColumn(kinds[j], rows[i], j).Ok?;
        }
      }
      assert Decodable(rows, kinds);
    }
    if Decodable(rows, kinds) {
      forall i | 0 <= i < |rows| ensures DecodeTuple(rows[i], kinds).Ok? {
        forall j | 0 <= j < |kinds| ensures DecodeColumn(kinds[j], rows[i], j).Ok? {
          assert rows[i][j].Some?;
        }
      }
      assert DecodeRows(rows, kinds).Ok?;
    }
  }
}
