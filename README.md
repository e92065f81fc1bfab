# slonik-proto: a Dafny model of the decoding, caching and example layer

slonik-proto is a Python extension written in Rust. It runs database queries
and socket I/O as native `async` tasks, and Python's `asyncio` loop drives them
through callbacks. The executor, readiness reactor, timer and non-blocking
socket come from the external `slonik_rt` crate. They are not part of this
model. What is modelled is the code built around them:

- **Column decoding** (`columns.dfy`). Both database backends resolve each
  declared column type to a value kind from one closed set (`ColumnKind`):
  boolean, 8/16/32/64-bit signed integer, unsigned 32-bit integer, 32/64-bit
  float, text, JSON, jsonb and UUID. Each column of a row is then decoded, and
  the rows are shaped into a list of tuples. The conversions themselves are
  foreign calls (the driver's `get`, Python's `json.loads` and `uuid.UUID`), so
  a decoded `Cell` only records which conversion is applied to exactly which
  bytes. A row is a sequence of column payloads, with `None` for SQL NULL.
  The panics of decoding become an `Err` carrying a `Fault`: an unknown type,
  a missing column, a NULL value and an empty jsonb payload cut by `[1..]`.
  So do the fatal fetch and execution errors. The panics of the Python
  decoders and of a poisoned lock are not modelled (see "Left out").
- **The sqlx backend** (`connection_sqlx.dfy`). `SqlxKind` classifies a type
  name given by the client, and `ToObject` shapes the rows. Four classes model
  the connection state:
  - `Pool` is the shared `Arc` strong count, with ghost bookkeeping of who holds
    a reference;
  - `QueryCache` is the never-evicting cache of the caching ("cheating") build;
  - `QueryTask` is a spawned query;
  - `SqlxConnection` holds one pool reference and, in the caching build, the cache.

  `PoolAndCacheScenario` is a client that runs two queries. It answers a
  repeated query from the cache, and drops the connection while a task is
  still in flight.
- **The rust-postgres backend** (`connection_rust_pg.dfy`). `PgKind`
  classifies a column by its type tag, modelled as the Postgres type OID that
  identifies it. `DeserializeRows` shapes a result set. `BackendsAgree`
  relates the two backends' classifications through the catalog type names.
- **The module's own functions** (`lib.dfy`):
  - `no_op` and `batch_no_op`;
  - `async_add` and its two steps, with the suspensions each goes through;
  - the request text of `delayed_http_get`, with a parser that reads the
    delay and address back out of it;
  - the chunked read loop, run against a scripted sequence of read results;
  - the two readiness entry points.

The caching and non-caching builds differ only in the cache. `SqlxConnection`'s
constructor takes the choice as a flag, and the cache is `null` when it is off.

Points of the code the model keeps:
- A query task's pool reference is dropped when `do_query` returns. That is
  right after the rows are fetched and before they are shaped, not when the
  callback fires.
- The cache lookup and the cache insert take the lock separately. They do not
  form one lookup-or-insert critical section. Two misses on the same text spawn
  two tasks, and the later insert overwrites the earlier one.
- The kinds include 8-bit `CHAR` and an unsigned 32-bit `OID` (rust-postgres
  only). The sqlx backend decodes `oid` as signed.
- An unknown column type fails only when a cell of that column is decoded. A
  query that returns no rows never fails on its declared types.

## Model

| member | source | states |
|---|---|---|
| Columns.DecoderInput | src/connection_sqlx.rs:194-200 | every kind except jsonb passes its payload unchanged; jsonb fails exactly on an empty payload and otherwise passes the payload minus exactly its first byte |
| Columns.DecodeColumn | src/connection_rust_pg.rs:80-124 | an unknown type fails before the row is read; otherwise the decode succeeds iff the index is in the row, the value is not NULL and the decoder input exists; the cell carries the kind and that input |
| Columns.DecodeTuple | src/connection_sqlx.rs:150-155 | succeeds iff every column decodes; then it has exactly one value per declared column, and value `j` is column `j` decoded with kind `j` |
| Columns.DecodeRows | src/connection_sqlx.rs:149-158 | succeeds iff every row's tuple does; then it holds one tuple per row, in fetch order |
| Columns.TupleFailsAtFirstColumn | src/connection_sqlx.rs:150-155 | a failing tuple reports the fault of its first failing column |
| Columns.RowsFailAtFirstRow | src/connection_sqlx.rs:149-158 | a failing shaping reports the fault of its first failing row |
| Columns.DecodableRowsSucceed | src/connection_rust_pg.rs:68-77 | shaping succeeds iff there are no rows, or every type is known, every row is wide enough and holds no NULL, and no jsonb payload is empty |
| ConnectionSqlx.SqlxKind | src/connection_sqlx.rs:177-218 | an unaccepted name fails with the unknown-type fault naming it |
| ConnectionSqlx.DeserializeColumn | src/connection_sqlx.rs:176-220 | an unknown name fails whatever the row holds; a decoded cell has the name's kind and comes from a present, non-NULL column |
| ConnectionSqlx.SqlxAcceptedSpellings | src/connection_sqlx.rs:177-218 | a name is accepted iff it is one of the fifteen listed names or its ASCII uppercase, so mixed case such as "Int4" fails |
| ConnectionSqlx.SqlxUpperSpelling | src/connection_sqlx.rs:177-216 | every listed name is accepted; its uppercase spelling decodes to the same kind, except "JSON", which decodes like jsonb |
| ConnectionSqlx.OnlyLowercaseJsonKeepsPayload | src/connection_sqlx.rs:194-200 | a name resolves to the whole-payload JSON kind iff it is exactly "json", and to the first-byte-dropping kind iff it is "jsonb", "JSON" or "JSONB" |
| ConnectionSqlx.SqlxBytePayloads | src/connection_sqlx.rs:194-216 | "json" gives its decoder the whole payload; "jsonb"/"JSON"/"JSONB" fail on an empty payload and otherwise drop exactly the first byte; "uuid"/"UUID" pass the raw bytes |
| ConnectionSqlx.MixedCaseRejected | src/connection_sqlx.rs:218 | the mixed-case spellings "Int4" and "Json" fail |
| ConnectionSqlx.ToObject | src/connection_sqlx.rs:147-159 | succeeds iff every cell decodes; then it holds one tuple per fetched row, in order, each with exactly one value per declared column, and value `j` of row `i` is row `i`'s column `j` decoded as `columns[j]` |
| ConnectionSqlx.Pool.constructor | src/connection_sqlx.rs:54 | a new pool has strong count 1, held by its owner |
| ConnectionSqlx.Pool.Acquire | src/connection_sqlx.rs:91-96 | a clone adds exactly one strong reference for the new holder and keeps the owner's |
| ConnectionSqlx.Pool.Release | src/connection_sqlx.rs:163-174 | dropping a holder's clone removes exactly that holder's reference |
| ConnectionSqlx.Pool.ReleaseOwner | src/connection_sqlx.rs:34-40 | releasing the owner's reference lowers the count by one and leaves task references alone |
| ConnectionSqlx.PoolFreedOnlyWhenUnreferenced | src/connection_sqlx.rs:34-40 | the strong count is 0 iff neither the owner nor any task holds a reference |
| ConnectionSqlx.QueryCache.constructor | src/connection_sqlx.rs:63 | a new cache is empty |
| ConnectionSqlx.QueryCache.Get | src/connection_sqlx.rs:83-84 | a lookup finds an entry iff the text is cached, and returns the cached rows |
| ConnectionSqlx.QueryCache.Insert | src/connection_sqlx.rs:122-125 | an insert maps the text to the rows and removes no key |
| ConnectionSqlx.QueryResult | src/connection_sqlx.rs:163-174 | a driver error on fetch is a fatal fetch failure; fetched rows are shaped by `ToObject` with the declared types |
| ConnectionSqlx.QueryTask.constructor | src/connection_sqlx.rs:111-113 | a task captures the pool clone, the cache, the query text and the declared types |
| ConnectionSqlx.QueryTask.Complete | src/connection_sqlx.rs:113-127 | a finishing task releases its own pool reference and delivers the shaped rows; in the caching build those same rows are cached under the query text, and a failure caches nothing |
| ConnectionSqlx.SqlxConnection.constructor | src/connection_sqlx.rs:45-66 | a new connection owns a fresh pool with strong count 1, plus an empty cache exactly when caching is on |
| ConnectionSqlx.SqlxConnection.Query | src/connection_sqlx.rs:72-137 | a cache hit delivers the cached rows, spawns no task and leaves the count unchanged; a miss spawns one task holding exactly one new strong reference, and the connection keeps its own |
| ConnectionSqlx.SqlxConnection.Drop | src/connection_sqlx.rs:34-40 | dropping the connection releases its reference exactly once; in-flight tasks keep theirs |
| ConnectionRustPg.PgKind | src/connection_rust_pg.rs:81-123 | an unhandled tag fails with the unknown-type fault naming it |
| ConnectionRustPg.DeserializeColumn | src/connection_rust_pg.rs:80-124 | an unhandled tag fails whatever the row holds; a decoded cell has the tag's kind and comes from a present, non-NULL column |
| ConnectionRustPg.PgAcceptedTypes | src/connection_rust_pg.rs:81-122 | a tag is accepted iff it is one of the sixteen handled types |
| ConnectionRustPg.PgBytePayloads | src/connection_rust_pg.rs:99-120 | JSON passes the whole payload; JSONB fails on an empty payload and otherwise drops exactly the first byte; UUID passes the raw bytes |
| ConnectionRustPg.DeserializeRows | src/connection_rust_pg.rs:68-78 | succeeds iff every cell decodes; then one tuple per row with exactly as many values as the result has columns, value `j` decoded with column `j`'s type |
| ConnectionRustPg.WellFormedResultDecodes | src/connection_rust_pg.rs:68-77 | a result whose rows match its columns, with handled types, no NULL and no empty jsonb payload, always decodes |
| ConnectionRustPg.Query | src/connection_rust_pg.rs:32-39 | an execution error is fatal ("Couldn't execute query") and never a returned value; otherwise the rows are shaped |
| ConnectionRustPg.StatementQuery | src/connection_rust_pg.rs:57-65 | the same for prepared statements ("Couldn't execute prepared statement") |
| ConnectionRustPg.BackendsAgree | src/connection_rust_pg.rs:81-97 | for every type both backends handle, PgKind of the tag equals SqlxKind of its catalog name, except `oid` (unsigned here, signed in sqlx); `char` is handled only here, as an 8-bit integer |
| SlonikProto.NoOp | src/lib.rs:19-21 | returns its argument unchanged |
| SlonikProto.One | src/lib.rs:24-27 | the per-iteration call of the batched benchmark yields 1 |
| SlonikProto.BatchNoOp | src/lib.rs:29-39 | calls `one` exactly `arg` times; returns `arg - 1` (what `no_op` returns on the unbatched benchmark's last call) iff `arg >= 1`, and fails with an overflow at 0 |
| SlonikProto.StepA | src/lib.rs:171-173 | returns its input without suspending |
| SlonikProto.StepB | src/lib.rs:175-181 | returns its input after exactly one 2000 ms timer wait |
| SlonikProto.CheckedAddU32 | src/lib.rs:168 | the `u32` sum succeeds iff `a + b` is at most 2^32 - 1, and is then exactly `a + b`; otherwise it is an overflow |
| SlonikProto.AsyncAdd | src/lib.rs:160-169 | suspends exactly once, on step_b's timer; returns `a + b` iff it fits in `u32`, and overflows otherwise |
| SlonikProto.AsyncAddExample | python/async_test.py:39 | async_add(555, 111) is 666 |
| SlonikProto.Decimal | src/lib.rs:219-225 | the delay is written as a non-empty digit string with no leading zero |
| SlonikProto.HttpRequest | src/lib.rs:219-225 | the request text is exactly `GET /delay/`, the delay's digits, `/url/`, the address, then ` HTTP/1.1`, the Host and Connection: close headers, ending in the blank line `\r\n\r\n`; each part sits at its stated offset |
| SlonikProto.DecimalRoundTrip | src/lib.rs:219-225 | the written digits denote the delay |
| SlonikProto.RequestRoundTrip | src/lib.rs:219-225 | parsing the request text `GET /delay/{delay}/url/{addr} HTTP/1.1`, Host and Connection: close headers, blank line, gives back exactly the delay and the address, for every address |
| SlonikProto.StreamRead | src/lib.rs:236 | a read places the received bytes at the front of the buffer and returns their count; an I/O error is returned as an error |
| SlonikProto.ReadLoop | src/lib.rs:231-244 | the loop's result is the read-page function of the scripted read results |
| SlonikProto.ReadPageConcatenates | src/lib.rs:231-244 | when read `k` ends the loop, the page is the in-order concatenation of the bytes of reads `0..k`; an I/O error there fails it |
| SlonikProto.PageBound | src/lib.rs:234-243 | a page completed at read `k` holds at most `128 * k` bytes |
| SlonikProto.ReadStopsAtEnd | src/lib.rs:239-241 | once a zero-length read or an error ends the loop, further reads never affect the outcome |
| SlonikProto.DelayedHttpGet | src/lib.rs:212-250 | writes exactly the request text; a failed write fails the task, otherwise the outcome is the read loop's |
| SlonikProto.OnFdReadReady | src/lib.rs:67-71 | forwards `(fd, Readable)` |
| SlonikProto.OnFdWriteReady | src/lib.rs:75-79 | forwards `(fd, Writable)` |
| SlonikProto.EntryPointsDistinct | src/lib.rs:67-79 | the two entry points never forward the same notification, and each keeps descriptors apart |

## Left out

- The `slonik_rt` executor, reactor, timer and `TcpStream` (`spawn_for_python`, `reactor::on_fd_ready`, `AsyncTimer`, `blocking_connect`, `read`, `write_all`) live in a crate that is not part of this model. Their effects appear only as values: the notification an entry point forwards, the suspensions a step goes through, the scripted read results, and the success or failure of the write.
- Python object construction through pyo3, and `deserialize_bytes_via_python`, which runs Python code: both are foreign calls. JSON parsing and UUID construction are abstract, and a `Cell` records only the conversion and its input bytes.
- The driver's own per-type conversions: a payload of the wrong width or type for its kind is not modelled as a failure, so only NULL, a missing column and an empty jsonb payload fail.
- Pool building and the blocking connect in `SqlxConnection::new`, `fetch_all`, `Connection::connect`, `prepare` and the `async_sqlx_example`/`async_query` example are driver and network plumbing. The fetch or execution outcome is a parameter (`Fetched`, `Executed`), and a failed connect is not modelled.
- `sleep_example` is an OS thread plus a sleep, and `async_io` is a blocking connect plus `expect`: threads, timing and network.
- Floating-point values: only the kind `Float32`/`Float64` is modelled.
- The boxed raw pointer behind `Statement` and the unsafety of `Arc::from_raw`: only the strong-count abstraction is modelled.
- The cache's mutex: the model is sequential, so concurrent misses racing on the same text are not modelled. A lock poisoned by an earlier panic makes `lock().unwrap()` panic; this is not modelled either.
- Sharing of cached rows: the cache holds one Python list, and the callback gets `clone_ref` of that same list. Every later cache hit hands out that same object again, so a consumer that mutates its result changes what later hits receive. The model treats cached rows as immutable values, so a hit always returns the rows first inserted.
- The `expect`s inside `deserialize_bytes_via_python`: `json.loads` rejecting a payload, `uuid.UUID` given a payload that is not 16 bytes, or a failed Python run. These are panics of foreign code. The model records the decoder input and never fails on its content.
- The `println!` progress output of `async_add`, `step_b` and `delayed_http_get`: console output, with no effect on results.
- `String::from_utf8_lossy`: the read loop returns the page as bytes.
- The Python scripts: they only serve as evidence for the expected results.
- The `slonik_proto` module registration (src/lib.rs:41-63): pyo3 plumbing.
- BatchNoOp: at `arg == 0` it models the overflow panic of a checked (debug) build. A release build would wrap and return 2^64 - 1.
- AsyncAdd: an overflowing `u32` sum is modelled as the checked-build panic. A release build would wrap modulo 2^32.
