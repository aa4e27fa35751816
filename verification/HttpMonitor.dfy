/**
 The request callbacks of the HTTP server and the run-time monitor embedded in
 each request (`http_test_run`). The monitor re-derives, on every call of an
 application handler, what the request fields should say. Driving the callbacks
 with any well-formed sequence of parser events, this module proves exactly when
 the monitor stays silent: the 16-bit chunk fields decide.
 */
module HttpMonitor {

  import opened Common

  const MIN_RESP_BUFFER: nat := 512
  const STATUS_OK: nat := 200

  /** The verdicts of the monitor that its checks can return. */
  datatype Verdict =
    | Ok
    | DiscardingButCalled
    | MessageExpected
    | StreamExpected
    | RouteExpected
    | HeadersCompleteExpected
    | ReqCompleteUnexpected
    | ReqCallsCountIsNotZero
    | CallsCountIsNotZero
    | ChunkIdIsNotZero
    | UserDataIsNotNull
    | ReqCallsCountDiscontinuity
    | ChunkLocExpected
    | ChunkLenExpected
    | ChunkIdDiscontinuity
    | ChunkOffsetInvalid
    | ChunkLocUnexpected
    | ChunkLenUnexpected
    | ChunkIdUnexpected
    | PayloadLocExpected
    | PayloadLenInvalid
    | ReqNotComplete
    | RespNotCompleteByDefault
    | PayloadUnexpectedAfterStreaming
    | RespBufferNotEmpty
    | RespBufferTooSmall
    | RespCallsCountIsNotZero
    | RespContentLengthInvalid
    | RespHeadersSentInvalid
    | RespPayloadSentInvalid
    | RespStatusInvalid
    | RespChunkedByDefault
    | RespCallsCountDiscontinuity

  /**
   A piece of body handed over by the parser, and what the application handler
   does with it if it is offered: its outcome, and the `user_data` and `flush_len`
   it leaves in the request.
   */
  datatype Fragment = Fragment(len: nat, ok: bool, userData: bool, flush: nat)

  /** What one call of the response handler leaves behind, and whether the sends after it succeed. */
  datatype Reply =
    Reply(ok: bool, complete: bool, contentLength: int, status: nat, chunked: bool, filled: nat, sent: bool)

  datatype Body =
    | Plain(fragments: seq<Fragment>)
    | Chunked(recognised: bool, chunks: seq<seq<Fragment>>, framing: nat)

  /** Lengths are those of `size_t`; the parser never reports an empty piece or an empty data chunk. */
  predicate GoodFragment(f: Fragment) {
    1 <= f.len < U32
  }

  predicate WellFormed(body: Body) {
    match body
    case Plain(fs) => forall f :: f in fs ==> GoodFragment(f)
    case Chunked(_, cs, _) =>
      forall c :: c in cs ==> c != [] && forall f :: f in c ==> GoodFragment(f)
  }

  // ---------------------------------------------------------------- when the monitor stays silent

  /**
   The handler call number `n` (from 0), on `f`, which starts `off` bytes into
   chunk number `idx`; `user` tells whether the application has set `user_data`.
   */
  predicate CallFits(chunked: bool, n: nat, idx: nat, off: nat, user: bool, f: Fragment) {
    && (n > 0 && n % U32 == 0 ==> !user)
    && (chunked ==> f.len < U16 && off < U16 && idx < U16)
  }

  /** Handler calls so far, `user_data` and `flush_len` in the request, and whether a piece has gone unoffered. */
  datatype Progress = Progress(calls: nat, user: bool, flush: nat, missed: bool)

  const BEGINNING: Progress := Progress(0, false, 0, false)

  /** A piece shorter than `flush_len` is not offered, and lost. */
  predicate Offered(p: Progress, f: Fragment) {
    f.len >= p.flush
  }

  predicate PieceFits(chunked: bool, p: Progress, idx: nat, off: nat, f: Fragment) {
    Offered(p, f) ==> !p.missed && CallFits(chunked, p.calls, idx, off, p.user, f)
  }

  predicate Fails(p: Progress, f: Fragment) {
    Offered(p, f) && !f.ok
  }

  function Next(p: Progress, f: Fragment): Progress {
    if Offered(p, f) then Progress(p.calls + 1, f.userData, f.flush, p.missed) else p.(missed := true)
  }

  function After(p: Progress, fs: seq<Fragment>): Progress
    decreases |fs|
  {
    if fs == [] then p else After(Next(p, fs[0]), fs[1..])
  }

  /** No handler call on these pieces fails. */
  predicate Handled(p: Progress, fs: seq<Fragment>)
    decreases |fs|
  {
    fs == [] || (!Fails(p, fs[0]) && Handled(Next(p, fs[0]), fs[1..]))
  }

  /** All calls on the pieces of one chunk, or of a plain body, up to the first handler error. */
  predicate FragmentsFit(chunked: bool, p: Progress, idx: nat, off: nat, fs: seq<Fragment>)
    decreases |fs|
  {
    fs == [] ||
    (PieceFits(chunked, p, idx, off, fs[0]) &&
     (!Fails(p, fs[0]) ==> FragmentsFit(chunked, Next(p, fs[0]), idx, off + fs[0].len, fs[1..])))
  }

  predicate ChunksFit(p: Progress, idx: nat, cs: seq<seq<Fragment>>)
    decreases |cs|
  {
    cs == [] ||
    (FragmentsFit(true, p, idx, 0, cs[0]) &&
     (Handled(p, cs[0]) ==> ChunksFit(After(p, cs[0]), idx + 1, cs[1..])))
  }

  predicate ChunksHandled(p: Progress, cs: seq<seq<Fragment>>)
    decreases |cs|
  {
    cs == [] || (Handled(p, cs[0]) && ChunksHandled(After(p, cs[0]), cs[1..]))
  }

  function AfterChunks(p: Progress, cs: seq<seq<Fragment>>): Progress
    decreases |cs|
  {
    if cs == [] then p else AfterChunks(After(p, cs[0]), cs[1..])
  }

  function Total(fs: seq<Fragment>): nat {
    if fs == [] then 0 else fs[0].len + Total(fs[1..])
  }

  function ChunksTotal(cs: seq<seq<Fragment>>): nat {
    if cs == [] then 0 else Total(cs[0]) + ChunksTotal(cs[1..])
  }

  function BodyTotal(body: Body): nat {
    match body
    case Plain(fs) => Total(fs)
    case Chunked(_, cs, _) => ChunksTotal(cs)
  }

  /** The body on the wire, with chunk headers and ends. */
  function RawLength(body: Body): nat {
    BodyTotal(body) + if body.Chunked? then body.framing else 0
  }

  /** Handlers that leave `flush_len` at 0: every piece is offered. */
  predicate Immediate(fs: seq<Fragment>) {
    forall f :: f in fs ==> f.flush == 0
  }

  predicate NeverFlushes(body: Body) {
    match body
    case Plain(fs) => Immediate(fs)
    case Chunked(_, cs, _) => forall c :: c in cs ==> Immediate(c)
  }

  // ---------------------------------------------------------------- when the monitor stays silent: responses

  /** After this reply the response loop calls the handler again. */
  predicate Continues(first: bool, r: Reply) {
    r.ok && r.sent && !r.complete && (first ==> HasPayload(r.status))
  }

  /** How often the response handler gets called. */
  function RespCalls(first: bool, replies: seq<Reply>): nat {
    if replies == [] then 0
    else 1 + if Continues(first, replies[0]) then RespCalls(false, replies[1..]) else 0
  }

  /** `lost`: bytes of a streamed body have not been offered; `total`: those of a message. */
  predicate RepliesFit(streaming: bool, lost: bool, total: nat, calls: nat, size: nat) {
    calls > 0 ==>
      && size >= MIN_RESP_BUFFER && calls <= U32
      && (if streaming then !lost else calls == 1 || total == 0)
  }

  predicate BodyFits(body: Body) {
    match body
    case Plain(fs) => FragmentsFit(false, BEGINNING, 0, 0, fs)
    case Chunked(_, cs, _) => ChunksFit(BEGINNING, 0, cs)
  }

  predicate BodyHandled(body: Body) {
    match body
    case Plain(fs) => Handled(BEGINNING, fs)
    case Chunked(_, cs, _) => ChunksHandled(BEGINNING, cs)
  }

  predicate BodyLost(body: Body) {
    match body
    case Plain(fs) => After(BEGINNING, fs).missed
    case Chunked(_, cs, _) => AfterChunks(BEGINNING, cs).missed
  }

  /** The request is refused before any handler is called. */
  predicate RefusedAtOnce(streaming: bool, accepted: bool, head: nat, body: Body, size: nat) {
    !accepted || (body.Chunked? && !body.recognised) || Oversized(streaming, head, RawLength(body), size)
  }

  /** The exact condition: the request is refused before any handler call, or every call made fits. */
  predicate Silent(streaming: bool, accepted: bool, head: nat, body: Body, replies: seq<Reply>, size: nat) {
    || RefusedAtOnce(streaming, accepted, head, body, size)
    || ((streaming ==> BodyFits(body)) &&
        (!streaming || BodyHandled(body) ==>
           RepliesFit(streaming, streaming && BodyLost(body), BodyTotal(body), RespCalls(true, replies), size)))
  }

  // ---------------------------------------------------------------- the request and its monitor

  /** `struct http_request` with the `struct http_test_context` it embeds. */
  class HttpRequest {
    var headersComplete: bool
    var complete: bool
    var streaming: bool
    var discarded: bool
    var chunkedEncoding: bool
    var routed: bool
    var callsCount: nat
    var chunkId: nat
    var chunkLoc: bool
    var chunkLen: nat
    var chunkOffset: nat
    var payloadLoc: bool
    var payloadLen: nat
    var payloadTotal: nat
    var userData: bool
    var flushLen: nat

    var verdict: Verdict
    var testStream: bool
    var receivedBytes: nat
    var chunkReceivedBytes: nat
    var lastChunkId: nat
    var reqCalls: nat
    var respCalls: nat

    constructor ()
      ensures !headersComplete && !complete && !streaming && !discarded && !chunkedEncoding && !routed
      ensures callsCount == 0 && chunkId == 0 && !chunkLoc && chunkLen == 0 && chunkOffset == 0
      ensures !payloadLoc && payloadLen == 0 && payloadTotal == 0 && !userData && flushLen == 0
      ensures verdict == Ok && !testStream && receivedBytes == 0 && chunkReceivedBytes == 0
      ensures lastChunkId == 0 && reqCalls == 0 && respCalls == 0
    {
      headersComplete, complete, streaming, discarded := false, false, false, false;
      chunkedEncoding, routed, callsCount := false, false, 0;
      chunkId, chunkLoc, chunkLen, chunkOffset := 0, false, 0, 0;
      payloadLoc, payloadLen, payloadTotal, userData, flushLen := false, 0, 0, false, 0;
      verdict, testStream, receivedBytes, chunkReceivedBytes := Ok, false, 0, 0;
      lastChunkId, reqCalls, respCalls := 0, 0, 0;
    }

    /** The monitor's view of the chunk: its last call was in this chunk, or in the one before. */
    ghost predicate ChunkSync(n: nat, idx: nat, off: nat)
      reads this`lastChunkId, this`chunkReceivedBytes
    {
      && idx <= n <= idx * U16 + Min(off, U16) && (off > 0 ==> idx < n)
      && (off > 0 ==> idx < U16 && lastChunkId == idx && chunkReceivedBytes == off)
      && (off == 0 && idx == 0 ==> lastChunkId == 0 && chunkReceivedBytes == 0)
      && (off == 0 && idx > 0 ==> idx <= U16 && lastChunkId == idx - 1 && chunkReceivedBytes > 0)
    }

    /** Streaming, after `n` calls and `total` bytes, `off` bytes into chunk `idx`: request and monitor agree. */
    ghost predicate Streaming(n: nat, idx: nat, off: nat, total: nat)
      reads this
    {
      && verdict == Ok && headersComplete && !complete && streaming && testStream && !discarded && routed
      && callsCount == n % U32 && reqCalls == n % U32 && respCalls == 0 && (n == 0 ==> !userData)
      && payloadTotal == total % U32 && receivedBytes == total % U32
      && !payloadLoc && payloadLen == 0
      && (if chunkedEncoding
          then chunkId == idx % U16 && (chunkOffset + chunkLen) % U16 == off % U16 && ChunkSync(n, idx, off)
          else !chunkLoc && chunkLen == 0 && chunkId == 0)
    }

    /** A piece has gone unoffered and none has been offered since: the monitor is behind. */
    ghost predicate Behind(total: nat)
      reads this
    {
      && verdict == Ok && headersComplete && !complete && streaming && testStream && !discarded && routed
      && respCalls == 0 && receivedBytes < payloadTotal == total < U32 && payloadLoc
    }

    ghost predicate InStream(p: Progress, idx: nat, off: nat, total: nat)
      reads this
    {
      && userData == p.user && flushLen == p.flush
      && if p.missed then Behind(total) else Streaming(p.calls, idx, off, total)
    }

    /** All of the body has been streamed: what is left of `InStream` when chunks no longer matter. */
    ghost predicate Streamed(lost: bool, total: nat)
      reads this
    {
      && verdict == Ok && headersComplete && streaming && testStream && !discarded && routed
      && respCalls == 0
      && if lost then payloadLoc else payloadTotal == receivedBytes == total % U32 && !payloadLoc && payloadLen == 0
    }

    lemma StreamingDone(p: Progress, idx: nat, off: nat, total: nat)
      requires InStream(p, idx, off, total)
      ensures Streamed(p.missed, total)
    {
    }

    /** A message being gathered in the buffer: `total` bytes so far. */
    ghost predicate Gathering(total: nat)
      reads this
    {
      && verdict == Ok && headersComplete && !complete && !streaming && !testStream && !discarded && routed
      && respCalls == 0 && receivedBytes == 0 && !chunkLoc && chunkLen == 0
      && payloadLen == payloadTotal == total < U32 && (!payloadLoc ==> total == 0)
    }

    /** Streaming, once a further piece of `len` bytes is counted in the total. */
    ghost predicate Counted(n: nat, idx: nat, off: nat, total: nat, len: nat)
      reads this
    {
      && verdict == Ok && headersComplete && !complete && streaming && testStream && !discarded && routed
      && callsCount == n % U32 && reqCalls == n % U32 && respCalls == 0 && (n == 0 ==> !userData)
      && payloadTotal == (total + len) % U32 && receivedBytes == total % U32
      && (if chunkedEncoding
          then chunkId == idx % U16 && (chunkOffset + chunkLen) % U16 == off % U16 && ChunkSync(n, idx, off)
          else !chunkLoc && chunkLen == 0 && chunkId == 0)
    }

    /** Streaming, once `on_body` has recorded a piece of `len` bytes and the handler is about to be called. */
    ghost predicate Offering(n: nat, idx: nat, off: nat, total: nat, len: nat)
      reads this
    {
      && verdict == Ok && headersComplete && !complete && streaming && testStream && !discarded && routed
      && callsCount == n % U32 && reqCalls == n % U32 && respCalls == 0 && (n == 0 ==> !userData)
      && payloadTotal == (total + len) % U32 && receivedBytes == total % U32
      && payloadLoc && payloadLen == len
      && (if chunkedEncoding
          then chunkLoc && chunkId == idx % U16 && chunkOffset == off % U16 && chunkLen == len % U16 && ChunkSync(n, idx, off)
          else !chunkLoc && chunkLen == 0 && chunkId == 0)
    }

    /** The same once the monitor has seen the call. */
    ghost predicate Answered(n: nat, idx: nat, off: nat, total: nat, len: nat)
      reads this
    {
      && headersComplete && !complete && streaming && testStream && !discarded && routed
      && callsCount == n % U32 && reqCalls == (n + 1) % U32 && respCalls == 0
      && payloadTotal == (total + len) % U32 && receivedBytes == (total + len) % U32
      && (if chunkedEncoding
          then chunkId == idx % U16 && chunkOffset == off % U16 && chunkLen == len % U16 && ChunkSync(n + 1, idx, off + len)
          else !chunkLoc && chunkLen == 0 && chunkId == 0)
    }

    /** A piece of `len` bytes is about to be offered to a monitor that has missed some. */
    ghost predicate BehindOffering(total: nat, len: nat)
      reads this`payloadTotal, this`receivedBytes, this`payloadLen, this`chunkedEncoding, this`chunkLen
    {
      && payloadTotal == total + len < U32 && receivedBytes < total
      && payloadLen == len && (chunkedEncoding ==> chunkLen == len % U16)
    }

    /** `test_req_handler`; `sync`: request and monitor agree so far; `behind`: the monitor has missed a piece. */
    method TestReqHandler(ghost sync: bool, ghost behind: bool, ghost n: nat, ghost idx: nat, ghost off: nat, ghost total: nat,
                          f: Fragment)
      returns (v: Verdict)
      requires sync ==> Offering(n, idx, off, total, f.len) && GoodFragment(f)
      requires behind ==> BehindOffering(total, f.len)
      modifies this`chunkReceivedBytes, this`receivedBytes, this`lastChunkId, this`reqCalls
      ensures sync ==> (v == Ok <==> CallFits(chunkedEncoding, n, idx, off, userData, f))
      ensures sync && v == Ok ==> reqCalls == (n + 1) % U32 && receivedBytes == (total + f.len) % U32
      ensures sync && v == Ok && chunkedEncoding ==>
        ChunkSync(n + 1, idx, off + f.len)
      ensures behind ==> v != Ok
    {
      v := verdict;
      if complete {
        v := ReqCompleteUnexpected;
      } else if reqCalls == 0 && callsCount != 0 {
        v := ReqCallsCountIsNotZero;
      } else if !streaming {
        v := StreamExpected;
      } else if callsCount == 0 && chunkId != 0 {
        v := ChunkIdIsNotZero;
      } else if callsCount == 0 && userData {
        v := UserDataIsNotNull;
      } else if callsCount != 0 && callsCount != reqCalls {
        v := ReqCallsCountDiscontinuity;
      } else {
        v := TestPiece(sync, behind, n, idx, off, total, f.len);
      }
      reqCalls := (reqCalls + 1) % U32;
    }

    /** The chunk and payload checks of `test_req_handler`. */
    method TestPiece(ghost sync: bool, ghost behind: bool, ghost n: nat, ghost idx: nat, ghost off: nat, ghost total: nat,
                     ghost len: nat)
      returns (v: Verdict)
      requires sync ==> Offering(n, idx, off, total, len) && 1 <= len < U32
      requires behind ==> BehindOffering(total, len)
      modifies this`chunkReceivedBytes, this`receivedBytes, this`lastChunkId
      ensures sync ==> (v == Ok <==> (chunkedEncoding ==> len < U16 && off < U16 && idx < U16))
      ensures sync && v == Ok ==> receivedBytes == (total + len) % U32
      ensures sync && v == Ok && chunkedEncoding ==> ChunkSync(n + 1, idx, off + len)
      ensures behind ==> v != Ok
    {
      v := verdict;
      if chunkedEncoding {
        if !chunkLoc { return ChunkLocExpected; }
        if chunkLen == 0 { return ChunkLenExpected; }
        v := TestChunk(sync, n, idx, off, len);
        if v != Ok { return; }
        AddWrap(total, len);
        if sync { SumWraps(total, chunkLen, len); }
        receivedBytes := (receivedBytes + chunkLen) % U32;
      } else {
        if chunkLoc { return ChunkLocUnexpected; }
        if chunkLen != 0 { return ChunkLenUnexpected; }
        if chunkId != 0 { return ChunkIdUnexpected; }
        AddWrap(total, len);
        receivedBytes := (receivedBytes + payloadLen) % U32;
      }
      if !payloadLoc { return PayloadLocExpected; }
      if payloadTotal != receivedBytes { return PayloadLenInvalid; }
      lastChunkId := chunkId;
    }

    /** The chunk identifier and offset checks, and the monitor's count of the chunk's bytes. */
    method TestChunk(ghost sync: bool, ghost n: nat, ghost idx: nat, ghost off: nat, ghost len: nat) returns (v: Verdict)
      requires sync ==> verdict == Ok && 1 <= len < U32 && ChunkSync(n, idx, off)
      requires sync ==> chunkId == idx % U16 && chunkOffset == off % U16 && chunkLen == len % U16 && 0 < chunkLen
      modifies this`chunkReceivedBytes
      ensures sync ==> (v == Ok <==> off < U16 && idx < U16)
      ensures sync && v == Ok ==> chunkReceivedBytes == off + len % U16
    {
      v := verdict;
      if chunkId > lastChunkId + 1 { return ChunkIdDiscontinuity; }
      if chunkId == lastChunkId + 1 { chunkReceivedBytes := 0; }
      if chunkReceivedBytes != chunkOffset { return ChunkOffsetInvalid; }
      chunkReceivedBytes := (chunkReceivedBytes + chunkLen) % U32;
    }

    /** The checks of `http_test_run` ahead of the handler's own. */
    function Prologue(): Verdict
      reads this
    {
      if discarded then DiscardingButCalled
      else if !testStream && streaming then MessageExpected
      else if testStream && !streaming then StreamExpected
      else if !routed then RouteExpected
      else if !headersComplete then HeadersCompleteExpected
      else Ok
    }

    /** `http_test_run` ahead of the request handler. */
    method TestRunReq(ghost sync: bool, ghost behind: bool, ghost n: nat, ghost idx: nat, ghost off: nat, ghost total: nat,
                      f: Fragment)
      requires sync && verdict == Ok ==> Offering(n, idx, off, total, f.len) && GoodFragment(f)
      requires behind && verdict == Ok ==> BehindOffering(total, f.len)
      modifies this`verdict, this`chunkReceivedBytes, this`receivedBytes, this`lastChunkId, this`reqCalls
      ensures old(verdict) != Ok || behind ==> verdict != Ok
      ensures sync && old(verdict) == Ok ==> (verdict == Ok <==> CallFits(chunkedEncoding, n, idx, off, userData, f))
      ensures sync && verdict == Ok ==> Answered(n, idx, off, total, f.len)
    {
      if verdict == Ok {
        var v := Prologue();
        if v == Ok {
          v := TestReqHandler(sync, behind, n, idx, off, total, f);
        }
        verdict := v;
      }
    }

    /** `http_call_req_handler`: the monitor, then the application. */
    method CallReqHandler(ghost sync: bool, ghost behind: bool, ghost n: nat, ghost idx: nat, ghost off: nat, ghost total: nat,
                          f: Fragment)
      requires sync && verdict == Ok ==> Offering(n, idx, off, total, f.len) && GoodFragment(f)
      requires behind && verdict == Ok ==> BehindOffering(total, f.len)
      modifies this`verdict, this`chunkReceivedBytes, this`receivedBytes, this`lastChunkId, this`reqCalls
      modifies this`payloadLoc, this`payloadLen, this`callsCount, this`userData, this`flushLen
      ensures old(verdict) != Ok || behind ==> verdict != Ok
      ensures sync && old(verdict) == Ok ==> (verdict == Ok <==> CallFits(chunkedEncoding, n, idx, off, old(userData), f))
      ensures sync && verdict == Ok && f.ok ==> Streaming(n + 1, idx, off + f.len, total + f.len)
      ensures userData == f.userData && flushLen == f.flush
    {
      TestRunReq(sync, behind, n, idx, off, total, f);
      hide Offering, BehindOffering, Answered, Streaming, CallFits;
      userData, flushLen := f.userData, f.flush;
      if f.ok {
        PieceTaken(sync, n, idx, off, total, f);
      }
    }

    /** The application took the piece: the payload buffer is reset and the call counted. */
    method PieceTaken(ghost sync: bool, ghost n: nat, ghost idx: nat, ghost off: nat, ghost total: nat, f: Fragment)
      requires sync && verdict == Ok ==> Answered(n, idx, off, total, f.len)
      modifies this`payloadLoc, this`payloadLen, this`callsCount
      ensures sync && verdict == Ok ==> Streaming(n + 1, idx, off + f.len, total + f.len)
    {
      payloadLoc, payloadLen := false, 0;
      AddWrap(n, 1);
      AddWrap16(off, f.len);
      hide ChunkSync;
      callsCount := (callsCount + 1) % U32;
    }

    /** The request is discarded and the monitor has seen nothing wrong: no handler will be called any more. */
    ghost predicate Stopped()
      reads this
    {
      verdict == Ok && discarded
    }

    /** `on_body`; `exact`: the ghost arguments describe the request. */
    method OnBody(ghost exact: bool, ghost p: Progress, ghost idx: nat, ghost off: nat, ghost total: nat, f: Fragment)
      requires GoodFragment(f)
      requires exact && verdict == Ok && !discarded ==>
        if streaming then InStream(p, idx, off, total) && Room(p, total, f) else Gathering(total) && total + f.len < U32
      modifies this
      ensures streaming == old(streaming) && chunkedEncoding == old(chunkedEncoding) && complete == old(complete)
      ensures old(verdict) != Ok ==> verdict != Ok
      ensures old(Stopped()) ==> Stopped()
      ensures exact && old(verdict == Ok && !discarded && streaming) ==>
        && (verdict == Ok <==> PieceFits(chunkedEncoding, p, idx, off, f))
        && (verdict == Ok && !Fails(p, f) ==> InStream(Next(p, f), idx, off + f.len, total + f.len) && !discarded)
        && (verdict == Ok && Fails(p, f) ==> Stopped())
      ensures exact && old(verdict == Ok && !discarded && !streaming) ==> Gathering(total + f.len)
    {
      hide Streaming, Counted, PieceFits, InStream, Behind;
      CountPiece(exact, p, idx, off, total, f);
      if discarded { return; }
      if streaming {
        RecordPiece(exact, p, idx, off, total, f);
      } else {
        KeepPiece(f);
      }
    }

    /** A piece is counted in the total and not recorded yet. */
    ghost predicate Arrived(p: Progress, idx: nat, off: nat, total: nat, len: nat)
      reads this
    {
      && userData == p.user && flushLen == p.flush
      && if p.missed
         then && verdict == Ok && headersComplete && !complete && streaming && testStream && !discarded && routed
              && respCalls == 0 && receivedBytes < total && payloadTotal == total + len < U32
         else Counted(p.calls, idx, off, total, len)
    }

    /** The total, which counts discarded bytes too. */
    method CountPiece(ghost exact: bool, ghost p: Progress, ghost idx: nat, ghost off: nat, ghost total: nat, f: Fragment)
      requires exact && streaming && verdict == Ok && !discarded ==> InStream(p, idx, off, total) && Room(p, total, f)
      modifies this`payloadTotal
      ensures exact && streaming && verdict == Ok && !discarded ==> Arrived(p, idx, off, total, f.len)
      ensures payloadTotal == (old(payloadTotal) + f.len) % U32
    {
      AddWrap(total, f.len);
      hide ChunkSync;
      payloadTotal := (payloadTotal + f.len) % U32;
    }

    /** The message half of `on_body`: the pieces lie one after the other in the buffer. */
    method KeepPiece(f: Fragment)
      modifies this`payloadLoc, this`payloadLen
      ensures payloadLoc && payloadLen == if old(payloadLoc) then (old(payloadLen) + f.len) % U32 else f.len
    {
      if !payloadLoc {
        payloadLoc, payloadLen := true, f.len;
      } else {
        payloadLen := (payloadLen + f.len) % U32;
      }
    }

    /** The streaming half of `on_body`: record the piece, and offer it if it is long enough. */
    method RecordPiece(ghost exact: bool, ghost p: Progress, ghost idx: nat, ghost off: nat, ghost total: nat, f: Fragment)
      requires streaming && !discarded && GoodFragment(f)
      requires exact && verdict == Ok ==> Arrived(p, idx, off, total, f.len) && Room(p, total, f)
      modifies this
      ensures streaming && chunkedEncoding == old(chunkedEncoding) && complete == old(complete)
      ensures old(verdict) != Ok ==> verdict != Ok
      ensures exact && old(verdict) == Ok ==>
        && (verdict == Ok <==> PieceFits(chunkedEncoding, p, idx, off, f))
        && (verdict == Ok && !Fails(p, f) ==> InStream(Next(p, f), idx, off + f.len, total + f.len) && !discarded)
        && (verdict == Ok && Fails(p, f) ==> Stopped())
    {
      NotePiece(exact, p, idx, off, total, f);
      hide CallFits, Offering, BehindOffering, Arrived, Behind, Streaming;
      if payloadLen >= flushLen {
        OfferPiece(exact, p, idx, off, total, f);
      }
    }

    /** Payload and chunk fields are those of the piece. */
    method NotePiece(ghost exact: bool, ghost p: Progress, ghost idx: nat, ghost off: nat, ghost total: nat, f: Fragment)
      requires streaming && !discarded && GoodFragment(f)
      requires exact && verdict == Ok ==> Arrived(p, idx, off, total, f.len) && Room(p, total, f)
      modifies this`payloadLoc, this`payloadLen, this`chunkOffset, this`chunkLoc, this`chunkLen
      ensures payloadLen == f.len
      ensures exact && verdict == Ok ==>
        && userData == p.user && flushLen == p.flush
        && (if p.missed then BehindOffering(total, f.len) else Offering(p.calls, idx, off, total, f.len))
        && (!Offered(p, f) ==> Behind(total + f.len))
    {
      hide ChunkSync;
      payloadLoc, payloadLen := true, f.len;
      if chunkedEncoding {
        chunkOffset := (chunkOffset + chunkLen) % U16;
        chunkLoc, chunkLen := true, f.len % U16;
      }
    }

    /** The handler is called, and the request refused if that fails. */
    method OfferPiece(ghost exact: bool, ghost p: Progress, ghost idx: nat, ghost off: nat, ghost total: nat, f: Fragment)
      requires streaming && !discarded && GoodFragment(f)
      requires exact && verdict == Ok ==>
        && userData == p.user
        && if p.missed then BehindOffering(total, f.len) else Offering(p.calls, idx, off, total, f.len)
      modifies this
      ensures streaming && chunkedEncoding == old(chunkedEncoding) && complete == old(complete)
      ensures old(verdict) != Ok ==> verdict != Ok
      ensures exact && old(verdict) == Ok ==>
        && (verdict == Ok <==> !p.missed && CallFits(chunkedEncoding, p.calls, idx, off, p.user, f))
        && (verdict == Ok && f.ok ==>
              && Streaming(p.calls + 1, idx, off + f.len, total + f.len) && !discarded
              && userData == f.userData && flushLen == f.flush)
        && (verdict == Ok && !f.ok ==> Stopped())
    {
      hide Offering, BehindOffering, Streaming, CallFits;
      CallReqHandler(exact && !p.missed, exact && p.missed, p.calls, idx, off, total, f);
      if !f.ok {
        discarded := true;
      }
    }

    /** `on_chunk_complete`. */
    method OnChunkComplete(ghost p: Progress, ghost idx: nat, ghost off: nat, ghost total: nat)
      modifies this`chunkId, this`chunkOffset, this`chunkLen, this`chunkLoc
      ensures !chunkLoc && chunkLen == 0
      ensures old(InStream(p, idx, off, total)) && chunkedEncoding && off > 0 ==> InStream(p, idx + 1, 0, total)
    {
      chunkId := (chunkId + 1) % U16;
      chunkOffset, chunkLen, chunkLoc := 0, 0, false;
    }

    /** `on_chunk_header`: a chunk of a request not announced as chunked makes it a bad one. */
    method OnChunkHeader()
      modifies this`discarded
      ensures discarded == (old(discarded) || !chunkedEncoding)
    {
      if !chunkedEncoding {
        discarded := true;
      }
    }

    /** `http_request_discard`. */
    method Discard()
      modifies this`discarded
      ensures discarded
    {
      discarded := true;
    }

    /** The pieces of a plain body, or of one chunk, in order. */
    method StreamFragments(fs: seq<Fragment>, ghost exact: bool, ghost p: Progress, ghost idx: nat, ghost off: nat, ghost total: nat)
      requires streaming && forall f :: f in fs ==> GoodFragment(f)
      requires exact && verdict == Ok && !discarded ==> InStream(p, idx, off, total) && Bounded(p, total, fs)
      modifies this
      ensures streaming && chunkedEncoding == old(chunkedEncoding) && complete == old(complete)
      ensures old(verdict) != Ok ==> verdict != Ok
      ensures old(Stopped()) ==> Stopped()
      ensures exact && old(verdict == Ok && !discarded) ==>
        && (verdict == Ok <==> FragmentsFit(chunkedEncoding, p, idx, off, fs))
        && (verdict == Ok && Handled(p, fs) ==> InStream(After(p, fs), idx, off + Total(fs), total + Total(fs)) && !discarded)
        && (verdict == Ok && !Handled(p, fs) ==> Stopped())
    {
      hide InStream, Gathering, PieceFits, FragmentsFit, Next, Fails, GoodFragment;
      assert fs[0..] == fs;
      var i := 0;
      ghost var q, done: nat := p, 0;
      while i < |fs|
        invariant 0 <= i <= |fs|
        invariant streaming && chunkedEncoding == old(chunkedEncoding) && complete == old(complete)
        invariant old(verdict) != Ok ==> verdict != Ok
        invariant old(Stopped()) ==> Stopped()
        invariant exact && old(verdict == Ok && !discarded) ==>
          if verdict != Ok then !FragmentsFit(chunkedEncoding, p, idx, off, fs)
          else if discarded then FragmentsFit(chunkedEncoding, p, idx, off, fs) && !Handled(p, fs)
          else
            && InStream(q, idx, off + done, total + done) && Bounded(q, total + done, fs[i..])
            && done + Total(fs[i..]) == Total(fs) && After(p, fs) == After(q, fs[i..]) && Handled(p, fs) == Handled(q, fs[i..])
            && FragmentsFit(chunkedEncoding, p, idx, off, fs) == FragmentsFit(chunkedEncoding, q, idx, off + done, fs[i..])
      {
        FitStep(chunkedEncoding, q, idx, off + done, fs, i);
        if exact && old(verdict == Ok && !discarded) && verdict == Ok && !discarded {
          BoundedStep(q, total + done, fs, i);
        }
        assert fs[i] in fs;
        OnBody(exact, q, idx, off + done, total + done, fs[i]);
        q, done := Next(q, fs[i]), done + fs[i].len;
        i := i + 1;
      }
      FitNothing(chunkedEncoding, q, idx, off + done);
      assert fs[|fs|..] == [];
    }

    method SkipFragments(fs: seq<Fragment>)
      requires Stopped() && forall f :: f in fs ==> GoodFragment(f)
      modifies this
      ensures Stopped() && streaming == old(streaming)
    {
      for i := 0 to |fs|
        invariant Stopped() && streaming == old(streaming)
      {
        OnBody(false, BEGINNING, 0, 0, 0, fs[i]);
      }
    }

    /** The empty chunk that ends the body. */
    method EndChunks()
      modifies this`discarded, this`chunkId, this`chunkOffset, this`chunkLen, this`chunkLoc
      ensures discarded == (old(discarded) || !chunkedEncoding) && !chunkLoc && chunkLen == 0
    {
      OnChunkHeader();
      OnChunkComplete(BEGINNING, 0, 0, 0);
    }

    /** One chunk, framed by its header and its completion. */
    method StreamChunk(c: seq<Fragment>, ghost exact: bool, ghost p: Progress, ghost idx: nat, ghost total: nat)
      requires streaming && chunkedEncoding && c != [] && forall f :: f in c ==> GoodFragment(f)
      requires exact && verdict == Ok && !discarded ==> InStream(p, idx, 0, total) && Bounded(p, total, c)
      modifies this
      ensures streaming && chunkedEncoding && complete == old(complete)
      ensures old(verdict) != Ok ==> verdict != Ok
      ensures old(Stopped()) ==> Stopped()
      ensures exact && old(verdict == Ok && !discarded) ==>
        && (verdict == Ok <==> FragmentsFit(true, p, idx, 0, c))
        && (verdict == Ok && Handled(p, c) ==> InStream(After(p, c), idx + 1, 0, total + Total(c)) && !discarded)
        && (verdict == Ok && !Handled(p, c) ==> Stopped())
    {
      hide FragmentsFit, GoodFragment, ChunkSync, Handled, After;
      TotalPositive(c);
      OnChunkHeader();
      assert exact && verdict == Ok && !discarded ==> InStream(p, idx, 0, total);
      StreamFragments(c, exact, p, idx, 0, total);
      OnChunkComplete(After(p, c), idx, Total(c), total + Total(c));
    }

    /** The chunks of a body announced as chunked. */
    method StreamChunks(cs: seq<seq<Fragment>>)
      requires streaming && chunkedEncoding
      requires forall c :: c in cs ==> c != [] && forall f :: f in c ==> GoodFragment(f)
      requires InStream(BEGINNING, 0, 0, 0)
      modifies this
      ensures streaming && chunkedEncoding && !complete
      ensures ChunksBounded(BEGINNING, 0, cs) ==>
        && (verdict == Ok <==> ChunksFit(BEGINNING, 0, cs))
        && (verdict == Ok && ChunksHandled(BEGINNING, cs) ==> Streamed(AfterChunks(BEGINNING, cs).missed, ChunksTotal(cs)))
        && (verdict == Ok && !ChunksHandled(BEGINNING, cs) ==> Stopped())
    {
      assert verdict == Ok && !discarded && !complete;
      hide InStream, FragmentsFit, GoodFragment, Total, Handled, After;
      ghost var exact := ChunksBounded(BEGINNING, 0, cs);
      assert cs[0..] == cs;
      var i := 0;
      ghost var q, done: nat := BEGINNING, 0;
      while i < |cs|
        invariant 0 <= i <= |cs| && streaming && chunkedEncoding && !complete
        invariant exact ==>
          if verdict != Ok then !ChunksFit(BEGINNING, 0, cs)
          else if discarded then ChunksFit(BEGINNING, 0, cs) && !ChunksHandled(BEGINNING, cs)
          else
            && InStream(q, i, 0, done) && ChunksBounded(q, done, cs[i..])
            && done + ChunksTotal(cs[i..]) == ChunksTotal(cs) && AfterChunks(BEGINNING, cs) == AfterChunks(q, cs[i..])
            && ChunksHandled(BEGINNING, cs) == ChunksHandled(q, cs[i..])
            && ChunksFit(BEGINNING, 0, cs) == ChunksFit(q, i, cs[i..])
      {
        assert cs[i] in cs && cs[i..][0] == cs[i] && cs[i..][1..] == cs[i + 1..];
        if exact && verdict == Ok && !discarded { ChunksBoundedStep(q, done, cs[i..]); }
        StreamChunk(cs[i], exact, q, i, done);
        q, done := After(q, cs[i]), done + Total(cs[i]);
        i := i + 1;
      }
      assert cs[|cs|..] == [];
      if exact && verdict == Ok && !discarded {
        StreamingDone(q, i, 0, ChunksTotal(cs));
      }
    }

    /** `on_headers_complete`, once the route is resolved; `accepted`: there is a route with a response handler. */
    method OnHeadersComplete(stream: bool, accepted: bool)
      modifies this`headersComplete, this`streaming, this`routed, this`discarded, this`testStream
      ensures headersComplete && streaming == testStream == stream
      ensures routed == accepted && discarded == (old(discarded) || !accepted)
    {
      routed := accepted;
      headersComplete := true;
      streaming := stream;
      if !accepted {
        discarded := true;
      }
      testStream := streaming;
    }

    /** Pieces of a message, kept in the buffer behind the `used` bytes there as long as they fit. */
    method GatherFragments(fs: seq<Fragment>, ghost total: nat, used: nat, size: nat) returns (used': nat)
      requires forall f :: f in fs ==> GoodFragment(f)
      requires !streaming && size < U32 && verdict == Ok && (!discarded ==> Gathering(total) && total <= used <= size)
      modifies this
      ensures !streaming && verdict == Ok && chunkedEncoding == old(chunkedEncoding) && used' == used + Total(fs)
      ensures discarded <==> old(discarded) || used' > size
      ensures !discarded ==> Gathering(total + Total(fs)) && total + Total(fs) <= used'
    {
      var i := 0;
      used' := used;
      while i < |fs|
        invariant 0 <= i <= |fs| && chunkedEncoding == old(chunkedEncoding) && !streaming && verdict == Ok
        invariant used' == used + Total(fs[..i])
        invariant discarded <==> old(discarded) || used' > size
        invariant !discarded ==> Gathering(total + Total(fs[..i])) && total <= used
      {
        TotalSnoc(fs, i);
        used' := used' + fs[i].len;
        if !discarded && used' > size {
          Discard();
        }
        OnBody(!discarded, BEGINNING, 0, 0, total + Total(fs[..i]), fs[i]);
        i := i + 1;
      }
      assert fs[..|fs|] == fs;
    }

    method GatherChunks(cs: seq<seq<Fragment>>, framing: nat, head: nat, size: nat)
      requires chunkedEncoding && forall c :: c in cs ==> forall f :: f in c ==> GoodFragment(f)
      requires Gathering(0) && head <= size < U32
      modifies this
      ensures chunkedEncoding && !streaming && verdict == Ok
      ensures discarded <==> head + ChunksTotal(cs) + framing > size
      ensures !discarded ==> Gathering(ChunksTotal(cs))
    {
      hide GoodFragment, Total;
      var i := 0;
      var used := head;
      while i < |cs|
        invariant 0 <= i <= |cs| && chunkedEncoding && !streaming && verdict == Ok
        invariant used == head + ChunksTotal(cs[..i]) && (discarded <==> used > size)
        invariant !discarded ==> Gathering(ChunksTotal(cs[..i]))
      {
        ChunksSnoc(cs, i);
        OnChunkHeader();
        used := GatherFragments(cs[i], ChunksTotal(cs[..i]), used, size);
        OnChunkComplete(BEGINNING, 0, 0, 0);
        i := i + 1;
      }
      assert cs[..|cs|] == cs;
      if used + framing > size {
        Discard();
      }
    }

    /** The request is complete and `k` response calls have been made, all of them silent. */
    ghost predicate Replying(k: nat, lost: bool, total: nat)
      reads this
    {
      && verdict == Ok && complete && headersComplete && !discarded && routed && streaming == testStream
      && !chunkLoc && chunkLen == 0
      && k <= U32 && respCalls == k % U32
      && (if streaming
          then if lost then payloadLoc && k == 0 else !payloadLoc && payloadLen == 0 && receivedBytes == payloadTotal == total % U32
          else payloadLen == payloadTotal == total < U32 && receivedBytes == (if k == 0 then 0 else payloadTotal)
               && (k > 1 ==> payloadTotal == 0))
    }

    /** `on_message_complete`, then the clean-up at the end of `handle_request`. */
    method OnMessageComplete(ghost exact: bool, ghost lost: bool, ghost total: nat)
      requires exact && verdict == Ok && !discarded ==> if streaming then Streamed(lost, total) else Gathering(total)
      modifies this`complete, this`chunkId, this`chunkLen, this`chunkLoc
      ensures exact && verdict == Ok && !discarded ==> Replying(0, lost, total)
    {
      complete := true;
      if streaming {
        chunkId, chunkLen, chunkLoc := 0, 0, false;
      }
    }

    /** `test_resp_handler`. */
    method TestRespHandler(resp: HttpResponse, ghost exact: bool, ghost k: nat, ghost lost: bool, ghost total: nat)
      returns (v: Verdict)
      requires exact ==> Replying(k, lost, total) && resp.Prepared(k)
      modifies this`receivedBytes, this`respCalls
      ensures exact ==> (v == Ok <==> RepliesFit(streaming, lost, total, k + 1, resp.bufferSize))
      ensures exact && v == Ok ==> Replying(k + 1, lost, total)
    {
      v := verdict;
      if !complete { v := ReqNotComplete; }
      else if !resp.complete { v := RespNotCompleteByDefault; }
      else if streaming && (payloadLen != 0 || payloadLoc) { v := PayloadUnexpectedAfterStreaming; }
      else {
        if !streaming {
          receivedBytes := (receivedBytes + payloadLen) % U32;
          if payloadLen != payloadTotal { v := PayloadLenInvalid; }
        }
        if v != Ok { }
        else if payloadTotal != receivedBytes { v := PayloadLenInvalid; }
        else if chunkLoc { v := ChunkLocUnexpected; }
        else if chunkLen != 0 { v := ChunkLenUnexpected; }
        else if resp.filling != 0 { v := RespBufferNotEmpty; }
        else if resp.bufferSize < MIN_RESP_BUFFER { v := RespBufferTooSmall; }
        else if respCalls == 0 && resp.callsCount != 0 { v := RespCallsCountIsNotZero; }
        else if resp.callsCount != 0 {
          if resp.callsCount != respCalls { v := RespCallsCountDiscontinuity; }
        }
        else if resp.contentLength != 0 { v := RespContentLengthInvalid; }
        else if resp.headersSent { v := RespHeadersSentInvalid; }
        else if resp.payloadSent != 0 { v := RespPayloadSentInvalid; }
        else if resp.status != STATUS_OK { v := RespStatusInvalid; }
        else if resp.chunked { v := RespChunkedByDefault; }
      }
      AddWrap(k, 1);
      respCalls := (respCalls + 1) % U32;
    }

    /** `call_resp_handler`: the monitor, then the application. */
    method CallRespHandler(resp: HttpResponse, r: Reply, ghost exact: bool, ghost k: nat, ghost lost: bool, ghost total: nat)
      requires exact && verdict == Ok ==> Replying(k, lost, total) && resp.Prepared(k)
      modifies this`verdict, this`receivedBytes, this`respCalls
      modifies resp`complete, resp`filling, resp`contentLength, resp`status, resp`chunked, resp`callsCount
      ensures old(verdict) != Ok ==> verdict != Ok
      ensures exact && old(verdict) == Ok ==> (verdict == Ok <==> RepliesFit(streaming, lost, total, k + 1, resp.bufferSize))
      ensures exact && verdict == Ok ==> Replying(k + 1, lost, total) && (r.ok ==> resp.callsCount == (k + 1) % U32)
      ensures r.ok ==> resp.complete == r.complete && resp.status == r.status
    {
      if verdict == Ok {
        var v := Prologue();
        if v == Ok {
          v := TestRespHandler(resp, exact, k, lost, total);
        }
        verdict := v;
      }
      resp.complete, resp.contentLength, resp.status := r.complete, r.contentLength, r.status;
      resp.chunked, resp.filling := r.chunked, r.filled;
      if r.ok {
        AddWrap(k, 1);
        resp.callsCount := (resp.callsCount + 1) % U32;
      }
    }

    /** One turn of the loop of `send_response`; `more`: the handler will be called again. */
    method SendReply(resp: HttpResponse, r: Reply, ghost exact: bool, ghost k: nat, ghost lost: bool, ghost total: nat)
      returns (more: bool)
      requires resp.headersSent == (k > 0)
      requires exact && verdict == Ok ==> Replying(k, lost, total) && resp.Prepared(k)
      modifies this`verdict, this`receivedBytes, this`respCalls, this`discarded
      modifies resp`complete, resp`filling, resp`contentLength, resp`status, resp`chunked, resp`callsCount
      modifies resp`headersSent, resp`payloadSent
      ensures old(verdict) != Ok ==> verdict != Ok
      ensures exact && old(verdict) == Ok ==> (verdict == Ok <==> RepliesFit(streaming, lost, total, k + 1, resp.bufferSize))
      ensures more == Continues(k == 0, r)
      ensures more ==> resp.headersSent
      ensures exact && more && verdict == Ok ==> Replying(k + 1, lost, total) && resp.Prepared(k + 1)
    {
      hide RepliesFit;
      CallRespHandler(resp, r, exact, k, lost, total);
      if !r.ok {
        discarded := true;
        return false;
      }
      if !resp.headersSent {
        if HasPayload(resp.status) {
          if resp.complete {
            if resp.contentLength == 0 {
              resp.contentLength := resp.filling;
            } else if resp.contentLength != resp.filling {
              discarded := true;
              return false;
            }
          }
        } else {
          resp.contentLength, resp.complete, resp.filling := 0, true, 0;
        }
        if !r.sent { return false; }
        resp.headersSent := true;
      }
      if !r.sent { return false; }
      resp.payloadSent := (resp.payloadSent + resp.filling) % U32;
      more := !resp.complete;
      if more {
        resp.filling, resp.complete := 0, true;
      }
    }

    /** The loop of `send_response` over all the calls of the response handler. */
    method SendResponse(resp: HttpResponse, replies: seq<Reply>, ghost exact: bool, ghost lost: bool, ghost total: nat)
      requires !discarded && resp.Prepared(0)
      requires exact && verdict == Ok ==> Replying(0, lost, total)
      modifies this, resp
      ensures old(verdict) != Ok ==> verdict != Ok
      ensures exact && old(verdict) == Ok ==>
        (verdict == Ok <==> RepliesFit(old(streaming), lost, total, RespCalls(true, replies), resp.bufferSize))
    {
      var i := 0;
      var more := true;
      hide Replying;
      while i < |replies| && more
        invariant 0 <= i <= |replies| && streaming == old(streaming)
        invariant old(verdict) != Ok ==> verdict != Ok
        invariant more ==> resp.headersSent == (i > 0)
        invariant exact && more && verdict == Ok ==> Replying(i, lost, total) && resp.Prepared(i)
        invariant RespCalls(true, replies) == i + if more then RespCalls(i == 0, replies[i..]) else 0
        invariant exact && old(verdict) == Ok ==> (verdict == Ok <==> RepliesFit(streaming, lost, total, i, resp.bufferSize))
      {
        assert replies[i..][0] == replies[i] && replies[i..][1..] == replies[i + 1..];
        more := SendReply(resp, replies[i], exact, i, lost, total);
        i := i + 1;
      }
    }
  }

  /** `struct http_response`; of the header bytes sent only whether there are any matters. */
  class HttpResponse {
    const bufferSize: nat
    var complete: bool
    var filling: nat
    var contentLength: int
    var headersSent: bool
    var payloadSent: nat
    var status: nat
    var chunked: bool
    var callsCount: nat

    constructor (size: nat)
      ensures bufferSize == size && complete && filling == 0 && Prepared(0)
    {
      bufferSize := size;
      complete, filling, contentLength, headersSent, payloadSent := true, 0, 0, false, 0;
      status, chunked, callsCount := STATUS_OK, false, 0;
    }

    /** Ready for handler call number `k`: buffer reset, complete by default. */
    ghost predicate Prepared(k: nat)
      reads this
    {
      && complete && filling == 0 && callsCount == k % U32
      && (k == 0 ==> contentLength == 0 && !headersSent && payloadSent == 0 && status == STATUS_OK && !chunked)
      && (k > 0 ==> headersSent)
    }
  }

  // ---------------------------------------------------------------- whole requests

  /** All the parser's callbacks on the body of a streamed request; a last, empty chunk ends a chunked one. */
  method ReceiveStream(req: HttpRequest, body: Body)
    requires req.InStream(BEGINNING, 0, 0, 0) && WellFormed(body)
    requires req.chunkedEncoding == (body.Chunked? && body.recognised)
    modifies req
    ensures req.streaming && (body.Chunked? && !body.recognised ==> req.Stopped())
    ensures Decided(body) && !(body.Chunked? && !body.recognised) ==>
      && (req.verdict == Ok <==> BodyFits(body))
      && (req.verdict == Ok ==> (req.discarded <==> !BodyHandled(body)))
      && (req.verdict == Ok && !req.discarded ==> req.Replying(0, BodyLost(body), BodyTotal(body)))
  {
    ghost var exact := Decided(body);
    match body
    case Plain(fs) =>
      req.StreamFragments(fs, exact, BEGINNING, 0, 0, 0);
      if exact && req.verdict == Ok && !req.discarded {
        req.StreamingDone(After(BEGINNING, fs), 0, Total(fs), Total(fs));
      }
      req.OnMessageComplete(exact, BodyLost(body), Total(fs));
    case Chunked(recognised, cs, _) =>
      if recognised {
        if exact { ChunksDecided(cs); }
        req.StreamChunks(cs);
        req.EndChunks();
        req.OnMessageComplete(exact, BodyLost(body), ChunksTotal(cs));
      } else {
        req.OnChunkHeader();
        SkipBody(req, body);
        req.OnMessageComplete(false, false, 0);
      }
  }

  /** The body of a request already refused: `on_body` only counts its bytes. */
  method SkipBody(req: HttpRequest, body: Body)
    requires req.Stopped() && WellFormed(body)
    modifies req
    ensures req.Stopped() && req.streaming == old(req.streaming)
  {
    match body
    case Plain(fs) =>
      req.SkipFragments(fs);
    case Chunked(_, cs, _) =>
      for i := 0 to |cs|
        invariant req.Stopped() && req.streaming == old(req.streaming)
      {
        assert cs[i] in cs;
        req.OnChunkHeader();
        req.SkipFragments(cs[i]);
        req.OnChunkComplete(BEGINNING, 0, 0, 0);
      }
      req.EndChunks();
  }

  /** All the parser's callbacks on the body of a request handled as one message, whose head is in the buffer. */
  method ReceiveMessage(req: HttpRequest, head: nat, body: Body, size: nat)
    requires req.Gathering(0) && WellFormed(body) && head <= size < U32
    requires req.chunkedEncoding == (body.Chunked? && body.recognised)
    modifies req
    ensures !req.streaming && req.verdict == Ok
    ensures req.discarded <==> (body.Chunked? && !body.recognised) || head + RawLength(body) > size
    ensures !req.discarded ==> req.Replying(0, false, BodyTotal(body))
  {
    match body
    case Plain(fs) =>
      var used := req.GatherFragments(fs, 0, head, size);
      req.OnMessageComplete(true, false, Total(fs));
    case Chunked(recognised, cs, framing) =>
      if recognised {
        req.GatherChunks(cs, framing, head, size);
        req.EndChunks();
        req.OnMessageComplete(true, false, ChunksTotal(cs));
      } else {
        req.OnChunkHeader();
        SkipBody(req, body);
        req.OnMessageComplete(false, false, 0);
      }
  }

  /** Either the body is shorter than 2^32 bytes, or no handler raises `flush_len`. */
  predicate Decided(body: Body) {
    BodyTotal(body) < U32 || NeverFlushes(body)
  }

  /**
   One request from its headers to its response: `stream` and `accepted` come
   from the route, `head` is the length of the request line and headers, `replies`
   come from the response handler. The buffer of `size` bytes first holds the
   request and then the response.
   */
  method Serve(stream: bool, accepted: bool, head: nat, body: Body, replies: seq<Reply>, size: nat) returns (verdict: Verdict)
    requires WellFormed(body) && size < U32
    ensures !stream || Decided(body) ==> (verdict == Ok <==> Silent(stream, accepted, head, body, replies, size))
    ensures RefusedAtOnce(stream, accepted, head, body, size) ==> verdict == Ok
  {
    var req := new HttpRequest();
    req.chunkedEncoding := body.Chunked? && body.recognised;
    if head > size {
      req.Discard();
    }
    req.OnHeadersComplete(stream, accepted);
    if req.discarded {
      SkipBody(req, body);
      req.OnMessageComplete(false, false, 0);
    } else if stream {
      ReceiveStream(req, body);
    } else {
      ReceiveMessage(req, head, body, size);
    }
    if !req.discarded {
      var resp := new HttpResponse(size);
      req.SendResponse(resp, replies, !stream || Decided(body), stream && BodyLost(body), BodyTotal(body));
    }
    verdict := req.verdict;
  }

  // ---------------------------------------------------------------- bodies that are decided

  /** Either the totals stay below 2^32, or no piece goes unoffered. */
  ghost predicate Room(p: Progress, total: nat, f: Fragment) {
    total + f.len < U32 || (p.flush == 0 && !p.missed)
  }

  ghost predicate Bounded(p: Progress, total: nat, fs: seq<Fragment>) {
    total + Total(fs) < U32 || (p.flush == 0 && !p.missed && Immediate(fs))
  }

  lemma BoundedStep(p: Progress, total: nat, fs: seq<Fragment>, i: nat)
    requires i < |fs| && Bounded(p, total, fs[i..])
    ensures Room(p, total, fs[i])
    ensures Bounded(Next(p, fs[i]), total + fs[i].len, fs[i + 1..])
  {
    assert fs[i..][1..] == fs[i + 1..] && fs[i] in fs[i..];
    assert forall f :: f in fs[i + 1..] ==> f in fs[i..];
  }

  ghost predicate ChunksBounded(p: Progress, total: nat, cs: seq<seq<Fragment>>) {
    total + ChunksTotal(cs) < U32 || (p.flush == 0 && !p.missed && forall c :: c in cs ==> Immediate(c))
  }

  lemma ChunksBoundedStep(p: Progress, total: nat, cs: seq<seq<Fragment>>)
    requires cs != [] && ChunksBounded(p, total, cs)
    ensures Bounded(p, total, cs[0]) && ChunksBounded(After(p, cs[0]), total + Total(cs[0]), cs[1..])
  {
    assert cs[0] in cs && forall c :: c in cs[1..] ==> c in cs;
    if p.flush == 0 && !p.missed && Immediate(cs[0]) {
      AfterImmediate(p, cs[0]);
    }
  }

  lemma {:induction false} AfterImmediate(p: Progress, fs: seq<Fragment>)
    requires p.flush == 0 && !p.missed && Immediate(fs)
    ensures After(p, fs).flush == 0 && !After(p, fs).missed && After(p, fs).calls == p.calls + |fs|
    ensures Handled(p, fs) <==> AllOk(fs)
    decreases |fs|
  {
    if fs != [] {
      assert fs[0] in fs && forall f :: f in fs[1..] ==> f in fs;
      AfterImmediate(Next(p, fs[0]), fs[1..]);
      assert forall f :: f in fs ==> f == fs[0] || f in fs[1..];
    }
  }

  lemma ChunksDecided(cs: seq<seq<Fragment>>)
    requires ChunksTotal(cs) < U32 || forall c :: c in cs ==> Immediate(c)
    ensures ChunksBounded(BEGINNING, 0, cs)
  {
  }

  // ---------------------------------------------------------------- the condition in closed form

  predicate AllOk(fs: seq<Fragment>) {
    forall f :: f in fs ==> f.ok
  }

  /** A chunk's pieces are shorter than 65536 bytes and each starts within the chunk's first 65536. */
  predicate ChunkFits(c: seq<Fragment>) {
    forall i :: 0 <= i < |c| ==> c[i].len < U16 && Total(c[..i]) < U16
  }

  /**
   With handlers that succeed and take every piece, a chunked body passes if and
   only if it has at most 65536 such chunks.
   */
  lemma ChunkedClosedForm(body: Body)
    requires body.Chunked? && WellFormed(body) && NeverFlushes(body) && forall c :: c in body.chunks ==> AllOk(c)
    ensures BodyFits(body) <==> |body.chunks| <= U16 && forall c :: c in body.chunks ==> ChunkFits(c)
  {
    ChunksClosedForm(BEGINNING, 0, body.chunks);
  }

  lemma {:induction false} ChunksClosedForm(p: Progress, idx: nat, cs: seq<seq<Fragment>>)
    requires forall c :: c in cs ==> c != [] && AllOk(c) && Immediate(c) && forall f :: f in c ==> GoodFragment(f)
    requires p.calls <= idx * U16 && (p.calls == 0 ==> !p.user) && p.flush == 0 && !p.missed
    ensures ChunksFit(p, idx, cs) <==>
      cs == [] || (idx + |cs| <= U16 && forall c :: c in cs ==> ChunkFits(c))
    decreases |cs|
  {
    if cs != [] {
      assert cs[0] in cs;
      FragmentsClosedForm(p, idx, 0, cs[0]);
      AfterImmediate(p, cs[0]);
      assert ChunkFits(cs[0]) <==> FitsFrom(0, cs[0]);
      if idx < U16 && ChunkFits(cs[0]) {
        CallsBounded(cs[0]);
        assert forall c :: c in cs[1..] ==> c in cs;
        ChunksClosedForm(After(p, cs[0]), idx + 1, cs[1..]);
        assert forall c :: c in cs ==> c == cs[0] || c in cs[1..];
      }
    }
  }

  predicate FitsFrom(off: nat, fs: seq<Fragment>) {
    forall i :: 0 <= i < |fs| ==> fs[i].len < U16 && off + Total(fs[..i]) < U16
  }

  lemma {:induction false} FragmentsClosedForm(p: Progress, idx: nat, off: nat, fs: seq<Fragment>)
    requires AllOk(fs) && Immediate(fs) && forall f :: f in fs ==> GoodFragment(f)
    requires p.calls <= idx * U16 + off && (p.calls == 0 ==> !p.user) && p.flush == 0 && !p.missed
    ensures FragmentsFit(true, p, idx, off, fs) <==> fs == [] || (idx < U16 && FitsFrom(off, fs))
    decreases |fs|
  {
    if fs != [] {
      var f, rest := fs[0], fs[1..];
      assert f in fs && fs[..0] == [];
      assert forall g :: g in rest ==> g in fs;
      FragmentsClosedForm(Next(p, f), idx, off + f.len, rest);
      FitsTail(off, fs);
      if idx < U16 && off < U16 {
        assert p.calls < U32;
      }
    }
  }

  lemma FitsTail(off: nat, fs: seq<Fragment>)
    requires fs != []
    ensures FitsFrom(off, fs) <==> fs[0].len < U16 && off < U16 && FitsFrom(off + fs[0].len, fs[1..])
  {
    var rest := fs[1..];
    assert fs[..0] == [];
    forall i | 0 < i < |fs|
      ensures rest[i - 1] == fs[i] && Total(fs[..i]) == fs[0].len + Total(rest[..i - 1])
    {
      assert fs[..i][1..] == rest[..i - 1];
    }
    if FitsFrom(off, fs) {
      assert off + Total(fs[..0]) < U16;
      forall j | 0 <= j < |rest|
        ensures rest[j].len < U16 && off + fs[0].len + Total(rest[..j]) < U16
      {
        assert rest[(j + 1) - 1] == fs[j + 1];
      }
    }
  }

  /** A chunk that fits takes at most 65536 calls: each piece has a byte and starts below 65536. */
  lemma CallsBounded(c: seq<Fragment>)
    requires c != [] && ChunkFits(c) && forall f :: f in c ==> GoodFragment(f)
    ensures |c| <= U16
  {
    TotalCount(c[..|c| - 1]);
  }

  lemma {:induction false} TotalCount(fs: seq<Fragment>)
    requires forall f :: f in fs ==> GoodFragment(f)
    ensures Total(fs) >= |fs|
  {
    if fs != [] {
      assert GoodFragment(fs[0]);
      assert forall f :: f in fs[1..] ==> f in fs;
      TotalCount(fs[1..]);
    }
  }

  /** A plain body of up to 2^32 pieces, all of them taken, always passes, however it is cut. */
  lemma {:induction false} PlainFits(p: Progress, idx: nat, off: nat, fs: seq<Fragment>)
    requires p.calls + |fs| <= U32 && (p.calls == 0 ==> !p.user) && p.flush == 0 && !p.missed && Immediate(fs)
    ensures FragmentsFit(false, p, idx, off, fs)
    decreases |fs|
  {
    if fs != [] {
      assert fs[0] in fs && forall f :: f in fs[1..] ==> f in fs;
      PlainFits(Next(p, fs[0]), idx, off + fs[0].len, fs[1..]);
    }
  }

  /** The same by index: a plain body, all of it offered, passes unless `user_data` is set when the call counter wraps. */
  lemma PlainClosedForm(fs: seq<Fragment>)
    requires AllOk(fs) && Immediate(fs)
    ensures BodyFits(Plain(fs)) <==> forall i :: 0 < i < |fs| && i % U32 == 0 ==> !fs[i - 1].userData
  {
    PlainFrom(BEGINNING, 0, fs, 0);
    assert fs[0..] == fs;
  }

  lemma {:induction false} PlainFrom(p: Progress, off: nat, fs: seq<Fragment>, k: nat)
    requires k <= |fs| && AllOk(fs) && Immediate(fs) && p.calls == k && p.flush == 0 && !p.missed
    requires p.user == (k > 0 && fs[k - 1].userData)
    ensures FragmentsFit(false, p, 0, off, fs[k..]) <==> forall i :: k <= i < |fs| && i > 0 && i % U32 == 0 ==> !fs[i - 1].userData
    decreases |fs| - k
  {
    if k < |fs| {
      assert fs[k] in fs && fs[k..][1..] == fs[k + 1..];
      PlainFrom(Next(p, fs[k]), off + fs[k].len, fs, k + 1);
    }
  }

  // ---------------------------------------------------------------- whole requests, by index

  /**
   The response handler is called `n` times: each call but the last succeeds, is
   sent and leaves the response incomplete, the first with a status that has a
   payload; the last one does not, or nothing is known of a further one.
   */
  predicate TakesCalls(replies: seq<Reply>, n: nat) {
    && n <= |replies| && (n == 0 ==> replies == [])
    && (forall i :: 0 <= i < n - 1 ==> replies[i].ok && replies[i].sent && !replies[i].complete)
    && (n > 1 ==> replies[0].status == 200 || replies[0].status == 400)
    && (0 < n < |replies| ==>
          || !replies[n - 1].ok || !replies[n - 1].sent || replies[n - 1].complete
          || (n == 1 && replies[0].status != 200 && replies[0].status != 400))
  }

  lemma {:induction false} CallsByIndex(first: bool, replies: seq<Reply>, n: nat)
    requires n <= |replies| && (n == 0 ==> replies == [])
    requires forall i :: 0 <= i < n - 1 ==> Continues(first && i == 0, replies[i])
    requires 0 < n < |replies| ==> !Continues(first && n == 1, replies[n - 1])
    ensures RespCalls(first, replies) == n
    decreases n
  {
    if n == 1 {
      assert replies[1..] == [] || !Continues(first, replies[0]);
    } else if n > 1 {
      assert Continues(first && 0 == 0, replies[0]);
      var rest := replies[1..];
      forall i | 0 <= i < n - 2
        ensures Continues(false && i == 0, rest[i])
      {
        assert Continues(first && i + 1 == 0, replies[i + 1]);
      }
      CallsByIndex(false, rest, n - 1);
    }
  }

  lemma CallsAre(replies: seq<Reply>, n: nat)
    requires TakesCalls(replies, n)
    ensures RespCalls(true, replies) == n
  {
    forall i | 0 <= i < n - 1
      ensures Continues(true && i == 0, replies[i])
    {
    }
    CallsByIndex(true, replies, n);
  }

  /** A message that fits the buffer: silence takes a buffer of 512 bytes, and a single call unless it is empty. */
  lemma MessageSilentExactly(head: nat, body: Body, replies: seq<Reply>, size: nat, n: nat)
    requires (body.Chunked? ==> body.recognised) && head + RawLength(body) <= size && TakesCalls(replies, n)
    ensures Silent(false, true, head, body, replies, size) <==>
      n == 0 || (size >= 512 && n <= U32 && (n == 1 || BodyTotal(body) == 0))
  {
    CallsAre(replies, n);
  }

  /** A plain stream whose handlers succeed and take every piece: any number of calls answers it. */
  lemma PlainStreamSilentExactly(head: nat, fs: seq<Fragment>, replies: seq<Reply>, size: nat, n: nat)
    requires head <= size && AllOk(fs) && Immediate(fs) && TakesCalls(replies, n)
    ensures Silent(true, true, head, Plain(fs), replies, size) <==>
      && (forall i :: 0 < i < |fs| && i % U32 == 0 ==> !fs[i - 1].userData)
      && (n == 0 || (size >= 512 && n <= U32))
  {
    CallsAre(replies, n);
    PlainClosedForm(fs);
    AfterImmediate(BEGINNING, fs);
  }

  lemma {:induction false} ChunksAllHandled(p: Progress, cs: seq<seq<Fragment>>)
    requires p.flush == 0 && !p.missed && forall c :: c in cs ==> AllOk(c) && Immediate(c)
    ensures ChunksHandled(p, cs) && !AfterChunks(p, cs).missed
    decreases |cs|
  {
    if cs != [] {
      assert cs[0] in cs && forall c :: c in cs[1..] ==> c in cs;
      AfterImmediate(p, cs[0]);
      ChunksAllHandled(After(p, cs[0]), cs[1..]);
    }
  }

  /** The same for a chunked one, in its closed form. */
  lemma ChunkedStreamSilentExactly(head: nat, body: Body, replies: seq<Reply>, size: nat, n: nat)
    requires body.Chunked? && body.recognised && WellFormed(body) && NeverFlushes(body) && forall c :: c in body.chunks ==> AllOk(c)
    requires head <= size && TakesCalls(replies, n)
    ensures Silent(true, true, head, body, replies, size) <==>
      && |body.chunks| <= U16 && (forall c :: c in body.chunks ==> ChunkFits(c))
      && (n == 0 || (size >= 512 && n <= U32))
  {
    CallsAre(replies, n);
    ChunkedClosedForm(body);
    ChunksAllHandled(BEGINNING, body.chunks);
  }

  /** Refused requests reach no handler: no route or handler, an unannounced chunked body, a buffer too small. */
  lemma RefusedSilent(streaming: bool, accepted: bool, head: nat, body: Body, replies: seq<Reply>, size: nat)
    requires
      || !accepted
      || (body.Chunked? && !body.recognised)
      || head > size
      || (!streaming && head + RawLength(body) > size)
    ensures Silent(streaming, accepted, head, body, replies, size)
  {
  }

  /** A last piece shorter than the `flush_len` just set is lost, and the first response call reports it. */
  lemma LostPieceFires(head: nat, a: Fragment, b: Fragment, replies: seq<Reply>, size: nat)
    requires head <= size && a.ok && b.len < a.flush && replies != []
    ensures !Silent(true, true, head, Plain([a, b]), replies, size)
  {
    assert [a, b][1..] == [b] && [b][1..] == [];
    assert After(BEGINNING, [a, b]) == After(Progress(1, a.userData, a.flush, false), [b]);
    assert After(Progress(1, a.userData, a.flush, false), [b]) == Progress(1, a.userData, a.flush, true);
    assert Handled(Progress(1, a.userData, a.flush, false), [b]);
    assert Handled(BEGINNING, [a, b]);
  }

  /**
   Requests on which the monitor does fire: a piece of 65536 bytes; a message
   answered in two calls; a piece too short for the `flush_len` a handler has set.
   */
  lemma MonitorFires()
    ensures !Silent(true, true, 100, Chunked(true, [[Fragment(U16, true, false, 0)]], 16), [], 1000)
    ensures !Silent(false, true, 100, Plain([Fragment(1, true, false, 0)]),
                    [Reply(true, false, 2, 200, false, 1, true), Reply(true, true, 2, 200, false, 1, true)], 1000)
    ensures !Silent(true, true, 100, Plain([Fragment(4, true, false, 4), Fragment(2, true, false, 0), Fragment(4, true, false, 0)]),
                    [], 1000)
  {
    assert !FragmentsFit(true, BEGINNING, 0, 0, [Fragment(U16, true, false, 0)]);
    var first, last := Reply(true, false, 2, 200, false, 1, true), Reply(true, true, 2, 200, false, 1, true);
    assert [first, last][1..] == [last];
    assert RespCalls(true, [first, last]) == 2;
    assert [Fragment(1, true, false, 0)][1..] == [];
    assert BodyTotal(Plain([Fragment(1, true, false, 0)])) == 1;
    ShortPieceFires();
  }

  lemma ShortPieceFires()
    ensures !FragmentsFit(false, BEGINNING, 0, 0, [Fragment(4, true, false, 4), Fragment(2, true, false, 0), Fragment(4, true, false, 0)])
  {
    var a, b, c := Fragment(4, true, false, 4), Fragment(2, true, false, 0), Fragment(4, true, false, 0);
    assert [a, b, c][1..] == [b, c] && [b, c][1..] == [c];
    assert !FragmentsFit(false, Progress(1, false, 4, true), 0, 6, [c]);
    assert !FragmentsFit(false, Progress(1, false, 4, false), 0, 4, [b, c]);
  }

  // ---------------------------------------------------------------- sums

  lemma {:induction false} ChunksAppend(a: seq<seq<Fragment>>, c: seq<Fragment>)
    ensures ChunksTotal(a + [c]) == ChunksTotal(a) + Total(c)
  {
    if a == [] {
      assert a + [c] == [c] && [c][1..] == [];
    } else {
      assert (a + [c])[1..] == a[1..] + [c];
      ChunksAppend(a[1..], c);
    }
  }

  lemma ChunksSnoc(cs: seq<seq<Fragment>>, i: nat)
    requires i < |cs|
    ensures ChunksTotal(cs[..i + 1]) == ChunksTotal(cs[..i]) + Total(cs[i])
    ensures cs[..i + 1] == cs[..i] + [cs[i]]
    ensures cs[i] in cs
    ensures cs[i..] != [] && cs[i..][0] == cs[i] && cs[i..][1..] == cs[i + 1..]
  {
    assert cs[..i + 1] == cs[..i] + [cs[i]];
    ChunksAppend(cs[..i], cs[i]);
  }

  lemma TotalPositive(fs: seq<Fragment>)
    requires fs != [] && forall f :: f in fs ==> GoodFragment(f)
    ensures Total(fs) > 0
  {
    assert GoodFragment(fs[0]);
  }

  lemma AddWrap(a: nat, b: nat)
    ensures (a % U32 + b) % U32 == (a + b) % U32
  {
  }

  lemma AddWrap16(a: nat, b: nat)
    ensures (a % U16 + b % U16) % U16 == (a + b) % U16
  {
  }

  /** Two sums of less than 2^32 from the same start agree modulo 2^32 only when they are equal. */
  lemma SumWraps(total: nat, x: nat, y: nat)
    requires x < U32 && y < U32
    ensures (total % U32 + x) % U32 == (total + y) % U32 <==> x == y
  {
    AddWrap(total, y);
  }

  lemma {:induction false} TotalAppend(a: seq<Fragment>, f: Fragment)
    ensures Total(a + [f]) == Total(a) + f.len
  {
    if a == [] {
      assert a + [f] == [f] && [f][1..] == [];
    } else {
      assert (a + [f])[1..] == a[1..] + [f];
      TotalAppend(a[1..], f);
    }
  }

  lemma FitNothing(chunked: bool, p: Progress, idx: nat, off: nat)
    ensures FragmentsFit(chunked, p, idx, off, []) && Handled(p, []) && After(p, []) == p
  {
  }

  lemma FitStep(chunked: bool, p: Progress, idx: nat, off: nat, fs: seq<Fragment>, i: nat)
    requires i < |fs|
    ensures FragmentsFit(chunked, p, idx, off, fs[i..]) <==>
      && PieceFits(chunked, p, idx, off, fs[i])
      && (!Fails(p, fs[i]) ==> FragmentsFit(chunked, Next(p, fs[i]), idx, off + fs[i].len, fs[i + 1..]))
    ensures Handled(p, fs[i..]) <==> !Fails(p, fs[i]) && Handled(Next(p, fs[i]), fs[i + 1..])
    ensures After(p, fs[i..]) == After(Next(p, fs[i]), fs[i + 1..])
    ensures Total(fs[i..]) == fs[i].len + Total(fs[i + 1..])
  {
    hide PieceFits, Fails, Next;
    assert fs[i..][1..] == fs[i + 1..];
  }

  lemma TotalSnoc(fs: seq<Fragment>, i: nat)
    requires i < |fs|
    ensures Total(fs[..i + 1]) == Total(fs[..i]) + fs[i].len
    ensures fs[i..] != [] && fs[i..][0] == fs[i] && fs[i..][1..] == fs[i + 1..]
  {
    assert fs[..i + 1] == fs[..i] + [fs[i]];
    TotalAppend(fs[..i], fs[i]);
    assert fs[i] in fs;
  }
}
