/** The extension module's own functions: the call-overhead benchmarks, the
    `async_add` example and its steps, the delayed HTTP GET example (request
    text and chunked read loop), and the two readiness entry points the host
    event loop calls. Executor, reactor, timer and socket are external; they
    appear only as the values the code hands to them or receives from them. */
module SlonikProto {
  import opened Wrappers
  import opened Columns

  const UsizeMax: int := 0xFFFF_FFFF_FFFF_FFFF
  type Usize = x: int | 0 <= x <= UsizeMax
  type U32 = x: int | 0 <= x < 0x1_0000_0000
  type I32 = x: int | -0x8000_0000 <= x < 0x8000_0000

  /** An integer operation that overflows its type panics. */
  datatype Overflow = ArithmeticOverflow

  // ---- call-overhead benchmarks ------------------------------------------

  /** `no_op`: the argument back, unchanged. */
  function NoOp(arg: Usize): (r: Usize)
    ensures r == arg
  {
    arg
  }

  /** `one`: the value the batched benchmark computes per iteration. */
  function One(): (r: Usize)
    ensures r == 1
  {
    1
  }

  /** `batch_no_op`: calls `one` exactly `arg` times, then returns the last
      iteration counter `arg - 1`, which is what `no_op` returns on the last
      call of the unbatched benchmark. At 0 the subtraction underflows. */
  method BatchNoOp(arg: Usize) returns (r: Result<Usize, Overflow>, ghost calls: nat)
    ensures calls == arg
    ensures r.Ok? <==> arg >= 1
    ensures r.Ok? ==> r.value == arg - 1 && r.value == NoOp(arg - 1)
    ensures r.Err? ==> r.error == ArithmeticOverflow
  {
    calls := 0;
    for i := 0 to arg
      invariant calls == i
    {
      calls := calls + One();
    }
    r := if arg == 0 then Err(ArithmeticOverflow) else Ok(arg - 1);
  }

  // ---- async_add ----------------------------------------------------------

  /** A point at which an `async` computation suspends. */
  datatype Suspension = TimerWait(millis: nat)

  /** The value an `async fn` produces, with the suspensions it goes through. */
  datatype Step<T> = Step(value: T, suspensions: seq<Suspension>)

  const StepBSleepMillis: nat := 2000

  /** `step_a`: its input, available without suspending. */
  function StepA(a: U32): (s: Step<U32>)
    ensures s.value == a && s.suspensions == []
  {
    Step(a, [])
  }

  /** `step_b`: its input, after one non-blocking 2000 ms timer. */
  function StepB(b: U32): (s: Step<U32>)
    ensures s.value == b && s.suspensions == [TimerWait(StepBSleepMillis)]
  {
    Step(b, [TimerWait(StepBSleepMillis)])
  }

  /** The `u32` sum `a + b`, which panics when it does not fit. */
  function CheckedAddU32(a: U32, b: U32): (r: Result<U32, Overflow>)
    ensures r.Ok? <==> a as int + b as int <= 0xFFFF_FFFF
    ensures r.Ok? ==> r.value as int == a as int + b as int
    ensures r.Err? ==> r.error == ArithmeticOverflow
  {
    if a + b < 0x1_0000_0000 then Ok(a + b) else Err(ArithmeticOverflow)
  }

  /** `async_add`: `step_a`, then `step_b`, then the `u32` sum. */
  function AsyncAdd(a: U32, b: U32): (r: Step<Result<U32, Overflow>>)
    ensures r.suspensions == [TimerWait(StepBSleepMillis)]
    ensures r.value.Ok? <==> a + b < 0x1_0000_0000
    ensures r.value.Ok? ==> r.value.value == a + b
  {
    var sa := StepA(a);
    var sb := StepB(b);
    Step(CheckedAddU32(sa.value, sb.value), sa.suspensions + sb.suspensions)
  }

  lemma AsyncAddExample()
    ensures AsyncAdd(555, 111).value == Ok(666)
  {
  }

  // ---- the HTTP request --------------------------------------------------

  predicate IsDigit(c: char) {
    '0' <= c <= '9'
  }

  predicate AllDigits(s: string) {
    forall i :: 0 <= i < |s| ==> IsDigit(s[i])
  }

  function DigitChar(d: nat): (c: char)
    requires d < 10
    ensures IsDigit(c) && c as int - '0' as int == d
  {
    ('0' as int + d) as char
  }

  /** The decimal text of `n`, as `{}` formats an unsigned integer. */
  function Decimal(n: nat): (s: string)
    decreases n
    ensures |s| >= 1 && AllDigits(s)
    ensures |s| > 1 ==> s[0] != '0'
  {
    if n < 10 then [DigitChar(n)] else Decimal(n / 10) + [DigitChar(n % 10)]
  }

  /** The number a digit string denotes. */
  function DigitsValue(s: string): nat
    requires AllDigits(s)
  {
    if s == [] then 0 else DigitsValue(s[..|s| - 1]) * 10 + (s[|s| - 1] as int - '0' as int)
  }

  lemma {:induction false} DecimalRoundTrip(n: nat)
    ensures DigitsValue(Decimal(n)) == n
  {
    if n >= 10 {
      DecimalRoundTrip(n / 10);
      var s := Decimal(n);
      assert s[..|s| - 1] == Decimal(n / 10);
    }
  }

  const RequestPrefix: string := "GET /delay/"
  const UrlSegment: string := "/url/"
  const RequestSuffix: string := " HTTP/1.1\r\nHost: slowwly.robertomurray.co.uk\r\nConnection: close\r\n\r\n"

  /** Splitting a concatenation where its first part ends. */
  lemma SplitAt(a: string, b: string)
    ensures a <= a + b && (a + b)[|a|..] == b && (a + b)[..|a|] == a
  {
  }

  /** Where each of five concatenated parts sits. */
  lemma {:induction false} PartsAt(a: string, b: string, c: string, d: string, e: string)
    ensures var s, i, j, k, l := a + (b + (c + (d + e))), |a|, |a| + |b|, |a| + |b| + |c|, |a| + |b| + |c| + |d|;
      |s| == l + |e| && s[..i] == a && s[i..j] == b && s[j..k] == c && s[k..l] == d && s[l..] == e
  {
    SplitAt(a, b + (c + (d + e)));
    SplitAt(b, c + (d + e));
    SplitAt(c, d + e);
    SplitAt(d, e);
  }

  /** The request `delayed_http_get` writes: the request line
      `GET /delay/{delay}/url/{addr} HTTP/1.1`, the Host and
      `Connection: close` headers, and the blank line that ends the head. */
  function HttpRequest(delay: U32, addr: string): (req: string)
    ensures var p, d, u := |RequestPrefix|, |Decimal(delay)|, |UrlSegment|;
      |req| == p + d + u + |addr| + |RequestSuffix|
      && req[..p] == RequestPrefix
      && req[p..p + d] == Decimal(delay)
      && req[p + d..p + d + u] == UrlSegment
      && req[p + d + u..p + d + u + |addr|] == addr
      && req[p + d + u + |addr|..] == RequestSuffix
    ensures req[|req| - 4..] == "\r\n\r\n"
  {
    PartsAt(RequestPrefix, Decimal(delay), UrlSegment, addr, RequestSuffix);
    assert RequestSuffix[|RequestSuffix| - 4..] == "\r\n\r\n";
    RequestPrefix + (Decimal(delay) + (UrlSegment + (addr + RequestSuffix)))
  }

  /** The longest all-digit prefix of `s`. */
  function TakeDigits(s: string): (d: string)
    ensures AllDigits(d) && d <= s
  {
    if s == [] || !IsDigit(s[0]) then [] else [s[0]] + TakeDigits(s[1..])
  }

  /** Reads back the delay and the address from a request text. */
  function ParseRequest(req: string): Option<(nat, string)>
  {
    if !(RequestPrefix <= req) then None
    else
      var rest := req[|RequestPrefix|..];
      var digits := TakeDigits(rest);
      var tail := rest[|digits|..];
      if |digits| == 0 || !(UrlSegment <= tail) then None
      else
        var target := tail[|UrlSegment|..];
        if |target| < |RequestSuffix| || target[|target| - |RequestSuffix|..] != RequestSuffix then None
        else Some((DigitsValue(digits), target[..|target| - |RequestSuffix|]))
  }

  lemma {:induction false} TakeDigitsOfDigits(d: string, t: string)
    requires AllDigits(d)
    requires t == [] || !IsDigit(t[0])
    ensures TakeDigits(d + t) == d
  {
    if d != [] {
      assert (d + t)[1..] == d[1..] + t;
      TakeDigitsOfDigits(d[1..], t);
    }
  }

  /** The request names the delay and the address it was built from: parsing
      it gives both back, for every address. */
  lemma RequestRoundTrip(delay: U32, addr: string)
    ensures ParseRequest(HttpRequest(delay, addr)) == Some((delay as nat, addr))
  {
    var dec := Decimal(delay);
    var target := addr + RequestSuffix;
    var tail := UrlSegment + target;
    var rest := dec + tail;
    SplitAt(RequestPrefix, rest);
    TakeDigitsOfDigits(dec, tail);
    SplitAt(dec, tail);
    SplitAt(UrlSegment, target);
    SplitAt(addr, RequestSuffix);
    DecimalRoundTrip(delay);
  }

  // ---- the chunked read loop ---------------------------------------------

  /** The size of the fresh buffer each read of the loop uses. */
  const ReadBufferSize: nat := 128

  /** What one `read` of the socket produced: the bytes it placed at the
      front of the buffer (none at end of stream), or an I/O error. */
  datatype ReadResult = Received(data: Bytes) | ReadError

  /** A read never returns more bytes than the buffer holds. */
  predicate FitsBuffer(r: ReadResult) {
    r.Received? ==> |r.data| <= ReadBufferSize
  }

  /** The loop's end: the page read up to end of stream, an I/O error (which
      `?` propagates), or, if the scripted read results run out before end of
      stream, the task still suspended with the bytes read so far. */
  datatype PageOutcome = Complete(page: Bytes) | Failed | Suspended(partial: Bytes)

  /** The loop's result, continuing from the bytes `page` already read. */
  function Drain(results: seq<ReadResult>, page: Bytes): PageOutcome
    decreases |results|
  {
    if results == [] then Suspended(page)
    else match results[0]
      case ReadError => Failed
      case Received(d) => if |d| == 0 then Complete(page) else Drain(results[1..], page + d)
  }

  function ReadPage(results: seq<ReadResult>): PageOutcome {
    Drain(results, [])
  }

  /** The in-order concatenation of the bytes of successful reads. */
  function Concat(results: seq<ReadResult>): Bytes
    requires forall k :: 0 <= k < |results| ==> results[k].Received?
  {
    if results == [] then [] else Concat(results[..|results| - 1]) + results[|results| - 1].data
  }

  /** `results[k]` is the first read that ends the loop. */
  predicate EndsAt(results: seq<ReadResult>, k: nat) {
    && k < |results|
    && (results[k].ReadError? || |results[k].data| == 0)
    && forall m :: 0 <= m < k ==> results[m].Received? && |results[m].data| > 0
  }

  lemma {:induction false} DrainEndsAt(results: seq<ReadResult>, k: nat, page: Bytes)
    requires EndsAt(results, k)
    ensures Drain(results, page) == if results[k].ReadError? then Failed else Complete(page + Concat(results[..k]))
    decreases k
  {
    if k > 0 {
      assert EndsAt(results[1..], k - 1);
      DrainEndsAt(results[1..], k - 1, page + results[0].data);
      ConcatFront(results[..k]);
      assert results[..k][1..] == results[1..][..k - 1];
    } else {
      assert results[..0] == [];
    }
  }

  lemma {:induction false} ConcatFront(results: seq<ReadResult>)
    requires |results| > 0 && forall k :: 0 <= k < |results| ==> results[k].Received?
    ensures Concat(results) == results[0].data + Concat(results[1..])
    decreases |results|
  {
    if |results| > 1 {
      var n := |results| - 1;
      ConcatFront(results[..n]);
      assert results[..n][1..] == results[1..][..n - 1];
      assert results[..n][0] == results[0];
    } else {
      assert results[..0] == [] && results[1..] == [];
    }
  }

  /** The page is the in-order concatenation of the bytes of every read before
      the first zero-length read; an I/O error before that fails the loop. */
  lemma ReadPageConcatenates(results: seq<ReadResult>, k: nat)
    requires EndsAt(results, k)
    ensures results[k].ReadError? ==> ReadPage(results) == Failed
    ensures results[k].Received? ==> ReadPage(results) == Complete(Concat(results[..k]))
  {
    DrainEndsAt(results, k, []);
  }

  lemma {:induction false} ConcatBound(results: seq<ReadResult>)
    requires forall k :: 0 <= k < |results| ==> results[k].Received? && FitsBuffer(results[k])
    ensures |Concat(results)| <= ReadBufferSize * |results|
  {
    if results != [] {
      ConcatBound(results[..|results| - 1]);
    }
  }

  /** Each read contributes at most a buffer's worth: a page completed at the
      `k`-th read holds at most `128 * k` bytes. */
  lemma PageBound(results: seq<ReadResult>, k: nat)
    requires EndsAt(results, k) && results[k].Received?
    requires forall m :: 0 <= m < |results| ==> FitsBuffer(results[m])
    ensures ReadPage(results).Complete? && |ReadPage(results).page| <= ReadBufferSize * k
  {
    ReadPageConcatenates(results, k);
    ConcatBound(results[..k]);
  }

  /** End of stream and errors end the loop for good: whatever further reads
      the stream would have produced are never requested. */
  lemma {:induction false} DrainStopsAtEnd(results: seq<ReadResult>, more: seq<ReadResult>, page: Bytes)
    requires !Drain(results, page).Suspended?
    ensures Drain(results + more, page) == Drain(results, page)
    decreases |results|
  {
    assert results != [];
    assert (results + more)[0] == results[0];
    if results[0].Received? && |results[0].data| > 0 {
      assert (results + more)[1..] == results[1..] + more;
      DrainStopsAtEnd(results[1..], more, page + results[0].data);
    }
  }

  lemma ReadStopsAtEnd(results: seq<ReadResult>, more: seq<ReadResult>)
    requires !ReadPage(results).Suspended?
    ensures ReadPage(results + more) == ReadPage(results)
  {
    DrainStopsAtEnd(results, more, []);
  }

  /** The socket's `read` into `buf`, as the stream delivers `r`: the received
      bytes land at the front of the buffer and their count is returned. */
  method StreamRead(buf: array<byte>, r: ReadResult) returns (len: Option<nat>)
    requires FitsBuffer(r) && buf.Length == ReadBufferSize
    modifies buf
    ensures r.ReadError? ==> len == None
    ensures r.Received? ==> len == Some(|r.data|) && buf[..|r.data|] == r.data
  {
    match r
    case ReadError =>
      len := None;
    case Received(d) =>
      forall k | 0 <= k < |d| {
        buf[k] := d[k];
      }
      len := Some(|d|);
  }

  /** The read loop of `delayed_http_get`: a fresh 128-byte buffer per read,
      `buf[..len]` appended to the page, stopping at the first zero-length
      read. */
  method ReadLoop(results: seq<ReadResult>) returns (o: PageOutcome)
    requires forall k :: 0 <= k < |results| ==> FitsBuffer(results[k])
    ensures o == ReadPage(results)
  {
    var page: Bytes := [];
    var i := 0;
    while i < |results|
      invariant 0 <= i <= |results|
      invariant Drain(results[i..], page) == ReadPage(results)
    {
      var buf := new byte[ReadBufferSize](_ => 0);
      var len := StreamRead(buf, results[i]);
      assert results[i..][0] == results[i];
      if len.None? {
        return Failed;
      }
      if len.value == 0 {
        return Complete(page);
      }
      page := page + buf[..len.value];
      assert results[i..][1..] == results[i + 1..];
      i := i + 1;
    }
    return Suspended(page);
  }

  /** `delayed_http_get`: writes the request, then runs the read loop; a
      failed write ends the task with the error. */
  method DelayedHttpGet(delay: U32, addr: string, writeSucceeds: bool, results: seq<ReadResult>)
    returns (request: string, o: PageOutcome)
    requires forall k :: 0 <= k < |results| ==> FitsBuffer(results[k])
    ensures request == HttpRequest(delay, addr)
    ensures !writeSucceeds ==> o == Failed
    ensures writeSucceeds ==> o == ReadPage(results)
  {
    request := HttpRequest(delay, addr);
    if !writeSucceeds {
      return request, Failed;
    }
    o := ReadLoop(results);
  }

  // ---- readiness entry points ---------------------------------------------

  datatype Interest = Readable | Writable

  /** The notification handed to the reactor's `on_fd_ready`. */
  datatype Readiness = Readiness(fd: I32, interest: Interest)

  /** `on_fd_read_ready`: forwards `(fd, Readable)`. */
  function OnFdReadReady(fd: I32): (n: Readiness)
    ensures n.fd == fd && n.interest == Readable
  {
    Readiness(fd, Readable)
  }

  /** `on_fd_write_ready`: forwards `(fd, Writable)`. */
  function OnFdWriteReady(fd: I32): (n: Readiness)
    ensures n.fd == fd && n.interest == Writable
  {
    Readiness(fd, Writable)
  }

  /** The two entry points never deliver the same notification, and each
      keeps descriptors apart. */
  lemma EntryPointsDistinct(a: I32, b: I32)
    ensures OnFdReadReady(a) != OnFdWriteReady(b)
    ensures OnFdReadReady(a) == OnFdReadReady(b) <==> a == b
    ensures OnFdWriteReady(a) == OnFdWriteReady(b) <==> a == b
  {
  }
}
