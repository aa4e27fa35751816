/**
 The asynchronous file reader.

 A producer activation (`process_read`, run by the background thread) fills
 blocks of a bounded pool from the file and queues them; the reader
 (`read_async`) takes them through a semaphore. The two sides share the queue,
 the semaphore, the pool and an ACTIVE flag that keeps at most one activation
 scheduled. Every step below is one atomic action of one side, so a run over an
 arbitrary list of actions is an arbitrary interleaving.
 */
module AsyncReader {

  import opened Common

  /** The file, the payload bytes of a block (`ms_block_size` less the header) and the number of blocks. */
  datatype Config = Config(file: seq<byte>, payload: nat, blocks: nat)

  /** `struct fs_async_buf`: `offset` is a 16-bit field, `len` the unread length. */
  datatype Buf = Buf(data: seq<byte>, offset: nat, len: nat)

  /** A read in progress: requested length, K_FOREVER or K_NO_WAIT, bytes copied so far. */
  datatype Call = Call(want: nat, forever: bool, got: seq<byte>)

  datatype Producer =
    | Asleep
    | LoopHead
    | Allocated
    | Filled(buf: Buf, more: bool)
    | Queued(more: bool)
    | Leaving

  datatype Reader =
    | Idle
    | Waiting(call: Call)
    | Took(call: Call)
    | Kept(call: Call, part: seq<byte>)
    | Copying(call: Call, part: seq<byte>)
    | Popped(call: Call, buf: Buf)
    | Freeing(call: Call)
    | Scheduling(call: Call)
    | Putting(call: Call)

  /** What a finished read returned; `busy` is the -EBUSY of a failed K_NO_WAIT take. */
  datatype Result = Result(want: nat, forever: bool, bytes: seq<byte>, busy: bool)

  datatype State = State(
    pos: nat,
    queue: seq<Buf>,
    sem: nat,
    free: nat,
    active: bool,
    pending: nat,
    producer: Producer,
    reader: Reader,
    eof: bool,
    log: seq<Result>)

  datatype Action = ProducerStep | ReaderStep | Read(want: nat, forever: bool)

  /** The state `fs_async_open` leaves: one activation scheduled, all blocks free. */
  function Opened(cfg: Config): State {
    State(0, [], 0, cfg.blocks, true, 1, Asleep, Idle, false, [])
  }

  /** `memcpy` source: `n` bytes of the block from `from`. */
  function Slice(data: seq<byte>, from: nat, n: nat): seq<byte> {
    if from + n <= |data| then data[from..from + n] else []
  }

  /** `k_sem_give` saturates at the limit given to `k_sem_init`. */
  function Give(cfg: Config, sem: nat): nat {
    Min(sem + 1, cfg.blocks)
  }

  /** `fs_read`, short only at the end of the file. */
  function Fill(cfg: Config, s: State): State {
    var n := if s.pos <= |cfg.file| then Min(cfg.payload, |cfg.file| - s.pos) else 0;
    s.(pos := s.pos + n,
       producer := Filled(Buf(Slice(cfg.file, s.pos, n), 0, n), n == cfg.payload))
  }

  /** One atomic action of `process_read`. */
  function StepProducer(cfg: Config, s: State): State {
    match s.producer
    case Asleep =>
      if s.pending > 0 then s.(pending := s.pending - 1, producer := LoopHead) else s
    case LoopHead =>
      if s.free > 0 then s.(free := s.free - 1, producer := Allocated)
      else s.(producer := Leaving)
    case Allocated => Fill(cfg, s)
    case Filled(buf, more) =>
      s.(queue := s.queue + [buf], producer := Queued(more))
    case Queued(more) =>
      s.(sem := Give(cfg, s.sem), producer := if more then LoopHead else Leaving)
    case Leaving =>
      s.(active := false, producer := Asleep)
  }

  /** The end of one iteration of the loop in `read_async`. */
  function Iterated(s: State, c: Call): State {
    if |c.got| < c.want && c.forever then s.(reader := Waiting(c))
    else s.(reader := Idle, log := s.log + [Result(c.want, c.forever, c.got, false)])
  }

  /** The head of the queue: cut if it holds more than is wanted, removed otherwise. */
  function TakeHead(s: State, c: Call): State
    requires s.queue != [] && |c.got| <= c.want
  {
    var b := s.queue[0];
    var room := c.want - |c.got|;
    if room < b.len then
      var kept := b.(len := b.len - room, offset := (b.offset + room) % 0x1_0000);
      s.(queue := s.queue[0 := kept], reader := Kept(c, Slice(b.data, b.offset, room)))
    else
      s.(queue := s.queue[1..], reader := Popped(c, b))
  }

  /** A removed buffer is copied; if it was not full the file has ended. */
  function CopyPopped(cfg: Config, s: State, c: Call, b: Buf): State {
    var c' := c.(got := c.got + Slice(b.data, b.offset, b.len));
    if b.len + b.offset == cfg.payload then s.(reader := Freeing(c'))
    else s.(eof := true, reader := Idle,
            log := s.log + [Result(c'.want, c'.forever, c'.got, false)])
  }

  /** One atomic action of `read_async`. */
  function StepReader(cfg: Config, s: State): State {
    match s.reader
    case Idle => s
    case Waiting(c) =>
      if s.sem > 0 then s.(sem := s.sem - 1, reader := Took(c))
      else if c.forever then s
      else s.(reader := Idle, log := s.log + [Result(c.want, false, [], true)])
    case Took(c) =>
      if s.queue == [] || |c.got| > c.want then s else TakeHead(s, c)
    case Kept(c, part) =>
      s.(sem := Give(cfg, s.sem), reader := Copying(c, part))
    case Copying(c, part) =>
      s.(reader := Scheduling(c.(got := c.got + part)))
    case Popped(c, b) => CopyPopped(cfg, s, c, b)
    case Freeing(c) =>
      s.(free := s.free + 1, reader := Scheduling(c))
    case Scheduling(c) =>
      if s.active then Iterated(s, c) else s.(active := true, reader := Putting(c))
    case Putting(c) =>
      Iterated(s.(pending := s.pending + 1), c)
  }

  /** A call of `read_async`: rejected for a zero length, 0 at once after the end of file. */
  function StepRead(s: State, want: nat, forever: bool): State {
    if !s.reader.Idle? || want == 0 then s
    else if s.eof then s.(log := s.log + [Result(want, forever, [], false)])
    else s.(reader := Waiting(Call(want, forever, [])))
  }

  function Step(cfg: Config, s: State, a: Action): State {
    match a
    case ProducerStep => StepProducer(cfg, s)
    case ReaderStep => StepReader(cfg, s)
    case Read(want, forever) => StepRead(s, want, forever)
  }

  function Run(cfg: Config, s: State, acts: seq<Action>): State
    decreases |acts|
  {
    if acts == [] then s else Run(cfg, Step(cfg, s, acts[0]), acts[1..])
  }

  // ---------------------------------------------------------------- observations

  /** The bytes of all finished reads, in order. */
  function LogBytes(log: seq<Result>): seq<byte> {
    if log == [] then [] else LogBytes(log[..|log| - 1]) + log[|log| - 1].bytes
  }

  /** Bytes already copied to the caller: finished reads and the read in progress. */
  function Delivered(s: State): seq<byte> {
    LogBytes(s.log) + if s.reader.Idle? then [] else s.reader.call.got
  }

  /** Bytes the reader has taken out of the queue but not copied yet. */
  function InReader(s: State): seq<byte> {
    match s.reader
    case Kept(_, part) => part
    case Copying(_, part) => part
    case Popped(_, b) => Slice(b.data, b.offset, b.len)
    case _ => []
  }

  function Unread(queue: seq<Buf>): seq<byte> {
    if queue == [] then []
    else Slice(queue[0].data, queue[0].offset, queue[0].len) + Unread(queue[1..])
  }

  /** Bytes the producer has read from the file but not queued yet. */
  function InProducer(s: State): seq<byte> {
    if s.producer.Filled? then Slice(s.producer.buf.data, s.producer.buf.offset, s.producer.buf.len) else []
  }

  /** Blocks of the pool that are neither free nor queued. The block of the last buffer is never given back. */
  function BlocksOut(s: State): nat {
    (if s.producer.Allocated? || s.producer.Filled? then 1 else 0)
    + (if s.reader.Popped? || s.reader.Freeing? then 1 else 0)
    + (if s.eof then 1 else 0)
  }

  /** Activations scheduled, waiting in the thread's queue or running. */
  function Activations(s: State): nat {
    s.pending + (if s.producer.Asleep? then 0 else 1) + (if s.reader.Putting? then 1 else 0)
  }

  /** Semaphore tokens held between taking a buffer and giving it back, or between queueing it and giving it. */
  function TokensOut(s: State): nat {
    (if s.reader.Took? || s.reader.Kept? then 1 else 0) + (if s.producer.Queued? then 1 else 0)
  }

  // ---------------------------------------------------------------- invariant

  predicate GoodBuf(cfg: Config, b: Buf) {
    b.offset + b.len == |b.data| <= cfg.payload && b.offset < 0x1_0000
  }

  predicate Joined(d: seq<byte>, r: seq<byte>, u: seq<byte>, p: seq<byte>, whole: seq<byte>) {
    d + r + u + p == whole
  }

  /** Bytes delivered, in the reader's hands, queued and in the producer's hands make up the file so far. */
  predicate Accounted(cfg: Config, s: State) {
    s.pos <= |cfg.file|
    && Joined(Delivered(s), InReader(s), Unread(s.queue), InProducer(s), cfg.file[..s.pos])
  }

  /** The semaphore follows the queue, blocks are conserved, one activation at most. */
  predicate Counted(cfg: Config, s: State) {
    && s.sem + TokensOut(s) == |s.queue|
    && s.free + |s.queue| + BlocksOut(s) == cfg.blocks
    && Activations(s) == (if s.active then 1 else 0)
    && (s.eof ==> s.reader.Idle?)
  }

  predicate Shapes(cfg: Config, s: State) {
    && (forall b :: b in s.queue ==> GoodBuf(cfg, b))
    && (s.producer.Filled? ==> GoodBuf(cfg, s.producer.buf) && s.producer.buf.offset == 0)
    && (s.reader.Popped? ==> GoodBuf(cfg, s.reader.buf))
  }

  predicate Calls(s: State) {
    match s.reader
    case Idle => true
    case Waiting(c) => |c.got| < c.want && (c.forever || c.got == [])
    case Took(c) => |c.got| < c.want && (c.forever || c.got == [])
    case Kept(c, part) => |c.got| + |part| == c.want
    case Copying(c, part) => |c.got| + |part| == c.want
    case Popped(c, b) => |c.got| + b.len <= c.want
    case Freeing(c) => |c.got| <= c.want
    case Scheduling(c) => |c.got| <= c.want
    case Putting(c) => |c.got| <= c.want
  }

  /** Once a block came back partly filled, every later one is empty. */
  predicate Tapers(cfg: Config, queue: seq<Buf>) {
    queue == [] ||
    ((|queue[0].data| < cfg.payload ==> Unread(queue[1..]) == []) && Tapers(cfg, queue[1..]))
  }

  /** Some block of the queue was not filled. */
  predicate HasShort(cfg: Config, queue: seq<Buf>) {
    exists b :: b in queue && |b.data| < cfg.payload
  }

  /** The producer has met the end of the file. */
  predicate SawEnd(cfg: Config, s: State) {
    HasShort(cfg, s.queue) || s.eof || (s.reader.Popped? && |s.reader.buf.data| < cfg.payload)
  }

  predicate Ends(cfg: Config, s: State) {
    && Tapers(cfg, s.queue)
    && (SawEnd(cfg, s) ==> s.pos == |cfg.file| && InProducer(s) == [])
    && (s.producer.Filled? && |s.producer.buf.data| < cfg.payload ==> s.pos == |cfg.file|)
    && (s.eof || (s.reader.Popped? && |s.reader.buf.data| < cfg.payload) ==> Unread(s.queue) == [])
  }

  /** A K_FOREVER read that came back short: the end of file, and nothing after it. */
  predicate ShortOnlyAtEof(s: State) {
    forall i :: 0 <= i < |s.log| && s.log[i].forever && |s.log[i].bytes| < s.log[i].want ==>
      s.eof && forall j :: i < j < |s.log| ==> s.log[j].bytes == []
  }

  predicate Inv(cfg: Config, s: State) {
    && Accounted(cfg, s)
    && Counted(cfg, s)
    && Shapes(cfg, s)
    && Calls(s)
    && Ends(cfg, s)
    && ShortOnlyAtEof(s)
  }

  // ---------------------------------------------------------------- proofs

  lemma {:induction false} UnreadSnoc(queue: seq<Buf>, b: Buf)
    ensures Unread(queue + [b]) == Unread(queue) + Slice(b.data, b.offset, b.len)
  {
    hide Slice;
    var last := Slice(b.data, b.offset, b.len);
    if queue == [] {
      assert queue + [b] == [b];
      assert Unread([b][1..]) == [] && Unread([b]) == last + [];
    } else {
      UnreadSnoc(queue[1..], b);
      assert (queue + [b])[1..] == queue[1..] + [b];
      assert (queue + [b])[0] == queue[0];
      Assoc(Slice(queue[0].data, queue[0].offset, queue[0].len), Unread(queue[1..]), last);
    }
  }

  lemma {:induction false} TapersSnoc(cfg: Config, queue: seq<Buf>, b: Buf)
    requires Tapers(cfg, queue)
    requires HasShort(cfg, queue) ==> Slice(b.data, b.offset, b.len) == []
    ensures Tapers(cfg, queue + [b])
  {
    if queue == [] {
      assert (queue + [b])[1..] == [];
    } else {
      assert HasShort(cfg, queue[1..]) ==> HasShort(cfg, queue);
      TapersSnoc(cfg, queue[1..], b);
      UnreadSnoc(queue[1..], b);
      assert (queue + [b])[1..] == queue[1..] + [b];
      assert (queue + [b])[0] == queue[0];
    }
  }

  lemma LogSnoc(log: seq<Result>, r: Result)
    ensures LogBytes(log + [r]) == LogBytes(log) + r.bytes
  {
    assert (log + [r])[..|log|] == log;
  }

  lemma CountedProducer(cfg: Config, s: State)
    requires Counted(cfg, s)
    ensures Counted(cfg, StepProducer(cfg, s))
  {
  }

  lemma CountedReader(cfg: Config, s: State)
    requires Counted(cfg, s)
    ensures Counted(cfg, StepReader(cfg, s))
  {
  }

  lemma ShapesStep(cfg: Config, s: State, a: Action)
    requires Shapes(cfg, s) && Calls(s) && cfg.payload <= 0x1_0000
    ensures Shapes(cfg, Step(cfg, s, a))
  {
    var s' := Step(cfg, s, a);
    if a.ReaderStep? && s.reader.Took? && s.queue != [] {
      assert s.queue[0] in s.queue;
      if s.reader.call.want - |s.reader.call.got| < s.queue[0].len {
        assert GoodBuf(cfg, s'.queue[0]);
      }
    }
  }

  lemma CallsStep(cfg: Config, s: State, a: Action)
    requires Shapes(cfg, s) && Calls(s)
    ensures Calls(Step(cfg, s, a))
  {
    if a.ReaderStep? && s.reader.Took? && s.queue != [] {
      assert s.queue[0] in s.queue;
    }
  }

  // byte bookkeeping on bare sequences: reading from the file, queueing, taking, copying.

  lemma JoinedFill(d: seq<byte>, r: seq<byte>, u: seq<byte>, x: seq<byte>, whole: seq<byte>)
    requires Joined(d, r, u, [], whole)
    ensures Joined(d, r, u, x, whole + x)
  {
  }

  lemma JoinedAppend(d: seq<byte>, r: seq<byte>, u: seq<byte>, p: seq<byte>, whole: seq<byte>)
    requires Joined(d, r, u, p, whole)
    ensures Joined(d, r, u + p, [], whole)
  {
  }

  lemma JoinedTake(d: seq<byte>, x: seq<byte>, u: seq<byte>, p: seq<byte>, whole: seq<byte>)
    requires Joined(d, [], x + u, p, whole)
    ensures Joined(d, x, u, p, whole)
  {
    assert d + [] + (x + u) + p == d + x + u + p;
  }

  lemma JoinedCopy(d: seq<byte>, x: seq<byte>, u: seq<byte>, p: seq<byte>, whole: seq<byte>)
    requires Joined(d, x, u, p, whole)
    ensures Joined(d + x, [], u, p, whole)
  {
  }

  lemma Assoc(a: seq<byte>, b: seq<byte>, c: seq<byte>)
    ensures a + b + c == a + (b + c)
  {
  }

  lemma SameBytes(cfg: Config, s: State, s': State)
    requires Accounted(cfg, s) && s'.pos == s.pos && s'.queue == s.queue
    requires Delivered(s') == Delivered(s) && InReader(s') == InReader(s) && InProducer(s') == InProducer(s)
    ensures Accounted(cfg, s')
  {
  }

  lemma NextSlice(file: seq<byte>, pos: nat, n: nat)
    requires pos + n <= |file|
    ensures file[..pos] + file[pos..pos + n] == file[..pos + n]
    ensures Slice(Slice(file, pos, n), 0, n) == file[pos..pos + n]
  {
  }

  lemma FillAccounted(cfg: Config, s: State)
    requires Accounted(cfg, s) && s.producer.Allocated?
    ensures Accounted(cfg, Fill(cfg, s))
  {
    var n := Min(cfg.payload, |cfg.file| - s.pos);
    var s' := Fill(cfg, s);
    NextSlice(cfg.file, s.pos, n);
    assert InProducer(s') == cfg.file[s.pos..s.pos + n] && InProducer(s) == [];
    assert Delivered(s') == Delivered(s) && InReader(s') == InReader(s);
    JoinedFill(Delivered(s), InReader(s), Unread(s.queue), InProducer(s'), cfg.file[..s.pos]);
  }

  lemma AppendAccounted(cfg: Config, s: State)
    requires Accounted(cfg, s) && s.producer.Filled?
    ensures Accounted(cfg, StepProducer(cfg, s))
  {
    UnreadSnoc(s.queue, s.producer.buf);
    JoinedAppend(Delivered(s), InReader(s), Unread(s.queue), InProducer(s), cfg.file[..s.pos]);
  }

  lemma AccountedProducer(cfg: Config, s: State)
    requires Accounted(cfg, s)
    ensures Accounted(cfg, StepProducer(cfg, s))
  {
    hide Accounted, Fill, Give, LogBytes, Unread, Slice;
    match s.producer
    case Allocated => FillAccounted(cfg, s);
    case Filled(_, _) => AppendAccounted(cfg, s);
    case _ => SameBytes(cfg, s, StepProducer(cfg, s));
  }

  /** Cutting the head of the queue leaves its unread bytes in order. */
  lemma CutHead(b: Buf, room: nat)
    requires b.offset + b.len == |b.data| && room < b.len
    ensures Slice(b.data, b.offset, b.len)
         == Slice(b.data, b.offset, room) + Slice(b.data, b.offset + room, b.len - room)
  {
  }

  lemma CutUnread(queue: seq<Buf>, kept: Buf, room: nat)
    requires queue != []
    requires var b := queue[0];
             && b.offset + b.len == |b.data| && room < b.len
             && kept == Buf(b.data, b.offset + room, b.len - room)
    ensures Unread(queue) == Slice(queue[0].data, queue[0].offset, room) + Unread(queue[0 := kept])
  {
    CutHead(queue[0], room);
    hide Slice;
    var b, rest := queue[0], Unread(queue[1..]);
    assert queue[0 := kept][1..] == queue[1..];
    assert Unread(queue) == Slice(b.data, b.offset, b.len) + rest;
    assert Unread(queue[0 := kept]) == Slice(kept.data, kept.offset, kept.len) + rest;
    hide Unread;
    Assoc(Slice(b.data, b.offset, room), Slice(kept.data, kept.offset, kept.len), rest);
  }

  lemma TakeUnread(cfg: Config, s: State, c: Call)
    requires s.queue != [] && |c.got| <= c.want && GoodBuf(cfg, s.queue[0]) && cfg.payload <= 0x1_0000
    ensures Unread(s.queue) == InReader(TakeHead(s, c)) + Unread(TakeHead(s, c).queue)
  {
    var b := s.queue[0];
    var room := c.want - |c.got|;
    var s' := TakeHead(s, c);
    if room < b.len {
      var kept := Buf(b.data, b.offset + room, b.len - room);
      NoWrap(b.offset + room);
      CutUnread(s.queue, kept, room);
      assert s' == s.(queue := s.queue[0 := kept], reader := Kept(c, Slice(b.data, b.offset, room)));
    } else {
      assert s' == s.(queue := s.queue[1..], reader := Popped(c, b));
    }
  }

  lemma NoWrap(x: nat)
    requires x < 0x1_0000
    ensures x % 0x1_0000 == x
  {
  }

  lemma TakeAccounted(cfg: Config, s: State, c: Call)
    requires Accounted(cfg, s) && s.reader == Took(c) && s.queue != [] && |c.got| <= c.want
    requires GoodBuf(cfg, s.queue[0]) && cfg.payload <= 0x1_0000
    ensures Accounted(cfg, TakeHead(s, c))
  {
    var s' := TakeHead(s, c);
    TakeUnread(cfg, s, c);
    JoinedTake(Delivered(s), InReader(s'), Unread(s'.queue), InProducer(s), cfg.file[..s.pos]);
  }

  lemma CopyAccounted(cfg: Config, s: State)
    requires Accounted(cfg, s) && (s.reader.Copying? || s.reader.Popped?)
    ensures Accounted(cfg, StepReader(cfg, s))
  {
    var s' := StepReader(cfg, s);
    Assoc(LogBytes(s.log), s.reader.call.got, InReader(s));
    var got := s.reader.call.got + InReader(s);
    if s'.reader.Idle? {
      LogSnoc(s.log, s'.log[|s.log|]);
      NoTail(LogBytes(s'.log));
    }
    assert Delivered(s') == Delivered(s) + InReader(s);
    JoinedCopy(Delivered(s), InReader(s), Unread(s.queue), InProducer(s), cfg.file[..s.pos]);
  }

  lemma NoTail(a: seq<byte>)
    ensures a + [] == a
  {
  }

  lemma ReturnBytes(s: State, r: Result)
    requires !s.reader.Idle? && r.bytes == s.reader.call.got
    ensures Delivered(s.(reader := Idle, log := s.log + [r])) == Delivered(s)
  {
    LogSnoc(s.log, r);
    NoTail(LogBytes(s.log) + r.bytes);
  }

  lemma LoggedAccounted(cfg: Config, s: State, r: Result)
    requires Accounted(cfg, s) && !s.reader.Idle? && r.bytes == s.reader.call.got && InReader(s) == []
    ensures Accounted(cfg, s.(reader := Idle, log := s.log + [r]))
  {
    ReturnBytes(s, r);
    SameBytes(cfg, s, s.(reader := Idle, log := s.log + [r]));
  }

  lemma IteratedAccounted(cfg: Config, s: State, c: Call)
    requires Accounted(cfg, s) && !s.reader.Idle? && s.reader.call == c && InReader(s) == []
    ensures Accounted(cfg, Iterated(s, c))
  {
    if |c.got| < c.want && c.forever {
      SameBytes(cfg, s, Iterated(s, c));
    } else {
      LoggedAccounted(cfg, s, Result(c.want, c.forever, c.got, false));
    }
  }

  lemma ReturnAccounted(cfg: Config, s: State)
    requires Accounted(cfg, s) && Calls(s)
    requires !s.reader.Took? && !s.reader.Copying? && !s.reader.Popped?
    ensures Accounted(cfg, StepReader(cfg, s))
  {
    hide Accounted, LogBytes, Unread, Slice;
    var s' := StepReader(cfg, s);
    match s.reader
    case Waiting(c) =>
      if s.sem == 0 && !c.forever {
        LoggedAccounted(cfg, s, Result(c.want, false, [], true));
      } else {
        SameBytes(cfg, s, s');
      }
    case Scheduling(c) =>
      if s.active { IteratedAccounted(cfg, s, c); } else { SameBytes(cfg, s, s'); }
    case Putting(c) =>
      var put := s.(pending := s.pending + 1);
      SameBytes(cfg, s, put);
      IteratedAccounted(cfg, put, c);
    case _ => SameBytes(cfg, s, s');
  }

  lemma AccountedReader(cfg: Config, s: State)
    requires Accounted(cfg, s) && Shapes(cfg, s) && Calls(s) && cfg.payload <= 0x1_0000
    ensures Accounted(cfg, StepReader(cfg, s))
  {
    if s.reader.Took? {
      if s.queue != [] {
        assert s.queue[0] in s.queue;
        TakeAccounted(cfg, s, s.reader.call);
      }
    } else if s.reader.Copying? || s.reader.Popped? {
      CopyAccounted(cfg, s);
    } else {
      ReturnAccounted(cfg, s);
    }
  }

  lemma AccountedRead(cfg: Config, s: State, want: nat, forever: bool)
    requires Accounted(cfg, s)
    ensures Accounted(cfg, StepRead(s, want, forever))
  {
    LogSnoc(s.log, Result(want, forever, [], false));
    assert Delivered(StepRead(s, want, forever)) == Delivered(s);
  }

  lemma AppendEnds(cfg: Config, s: State)
    requires Ends(cfg, s) && s.producer.Filled?
    ensures Ends(cfg, StepProducer(cfg, s))
  {
    var b := s.producer.buf;
    TapersSnoc(cfg, s.queue, b);
    UnreadSnoc(s.queue, b);
    hide Tapers, Unread;
    assert HasShort(cfg, s.queue + [b]) ==> HasShort(cfg, s.queue) || |b.data| < cfg.payload;
  }

  lemma FillEnds(cfg: Config, s: State)
    requires Ends(cfg, s) && s.pos <= |cfg.file| && s.producer.Allocated?
    ensures Ends(cfg, Fill(cfg, s))
  {
    hide Tapers, HasShort, Unread;
  }

  lemma EndsProducer(cfg: Config, s: State)
    requires Ends(cfg, s) && s.pos <= |cfg.file|
    ensures Ends(cfg, StepProducer(cfg, s))
  {
    hide Tapers, HasShort, Unread, Slice;
    if s.producer.Filled? {
      AppendEnds(cfg, s);
    } else if s.producer.Allocated? {
      FillEnds(cfg, s);
    }
  }

  lemma EndsReader(cfg: Config, s: State)
    requires Ends(cfg, s) && Shapes(cfg, s) && Counted(cfg, s)
    ensures Ends(cfg, StepReader(cfg, s))
  {
    var s' := StepReader(cfg, s);
    if s.reader.Took? && s.queue != [] {
      var b := s.queue[0];
      if s'.reader.Kept? {
        assert s'.queue[1..] == s.queue[1..];
        assert s'.queue[0].data == b.data;
        if HasShort(cfg, s'.queue) {
          var x :| x in s'.queue && |x.data| < cfg.payload;
          assert if x == s'.queue[0] then b in s.queue else x in s.queue;
        }
      }
    }
  }

  /** A returning read keeps the end-of-file rule when it is complete, K_NO_WAIT or the last one. */
  lemma ShortStep(cfg: Config, s: State, a: Action)
    requires ShortOnlyAtEof(s) && Calls(s) && Counted(cfg, s)
    ensures ShortOnlyAtEof(Step(cfg, s, a))
  {
  }

  lemma {:induction false} RunKeeps(cfg: Config, s: State, acts: seq<Action>)
    requires Inv(cfg, s) && cfg.payload <= 0x1_0000
    ensures Inv(cfg, Run(cfg, s, acts))
    decreases |acts|
  {
    if acts != [] {
      var a := acts[0];
      ShapesStep(cfg, s, a);
      CallsStep(cfg, s, a);
      ShortStep(cfg, s, a);
      match a {
        case ProducerStep => CountedProducer(cfg, s); AccountedProducer(cfg, s); EndsProducer(cfg, s);
        case ReaderStep => CountedReader(cfg, s); AccountedReader(cfg, s); EndsReader(cfg, s);
        case Read(want, forever) => AccountedRead(cfg, s, want, forever);
      }
      RunKeeps(cfg, Step(cfg, s, a), acts[1..]);
    }
  }

  // ---------------------------------------------------------------- main results

  /**
   For every interleaving: what was delivered is a prefix of the file and nothing
   is lost between file, producer, queue and reader; the semaphore follows the
   queue; blocks are conserved; at most one activation exists; at end of file the
   finished reads hold the whole file; and a K_FOREVER read is short only there.
   */
  lemma ReaderSafety(cfg: Config, acts: seq<Action>)
    requires cfg.payload <= 0x1_0000
    ensures var s := Run(cfg, Opened(cfg), acts);
            && Delivered(s) <= cfg.file
            && Accounted(cfg, s)
            && s.sem + TokensOut(s) == |s.queue|
            && s.free + |s.queue| + BlocksOut(s) == cfg.blocks
            && Activations(s) <= 1
            && (s.eof ==> LogBytes(s.log) == cfg.file)
            && ShortOnlyAtEof(s)
  {
    RunKeeps(cfg, Opened(cfg), acts);
    var s := Run(cfg, Opened(cfg), acts);
    PrefixOf(Delivered(s), InReader(s), Unread(s.queue), InProducer(s), cfg.file, s.pos);
    if s.eof {
      AllOf(Delivered(s), cfg.file[..s.pos]);
      NoTail(LogBytes(s.log));
      assert cfg.file[..s.pos] == cfg.file;
    }
  }

  lemma PrefixOf(d: seq<byte>, r: seq<byte>, u: seq<byte>, p: seq<byte>, file: seq<byte>, pos: nat)
    requires pos <= |file| && Joined(d, r, u, p, file[..pos])
    ensures d <= file
  {
    var rest := r + u + p;
    assert d + rest == file[..pos];
    assert forall i :: 0 <= i < |d| ==> d[i] == (d + rest)[i] == file[i];
  }

  lemma AllOf(d: seq<byte>, whole: seq<byte>)
    requires Joined(d, [], [], [], whole)
    ensures d == whole
  {
  }

  /** After the end of file every later read returns nothing, whatever happens in between. */
  lemma {:induction false} NothingAfterEof(cfg: Config, s: State, acts: seq<Action>)
    requires s.eof && s.reader.Idle?
    ensures var s' := Run(cfg, s, acts);
            && s'.eof && s'.reader.Idle? && s.log <= s'.log
            && forall j :: |s.log| <= j < |s'.log| ==> s'.log[j].bytes == [] && !s'.log[j].busy
    decreases |acts|
  {
    if acts != [] {
      NothingAfterEof(cfg, Step(cfg, s, acts[0]), acts[1..]);
    }
  }

  lemma {:induction false} RunSnoc(cfg: Config, s: State, acts: seq<Action>, a: Action)
    ensures Run(cfg, s, acts + [a]) == Step(cfg, Run(cfg, s, acts), a)
    decreases |acts|
  {
    if acts == [] {
      assert acts + [a] == [a] && [a][1..] == [];
    } else {
      RunSnoc(cfg, Step(cfg, s, acts[0]), acts[1..], a);
      assert (acts + [a])[1..] == acts[1..] + [a];
    }
  }

  ghost predicate AlwaysPrefix(payload: nat, blocks: nat) {
    forall file: seq<byte>, acts: seq<Action> ::
      Delivered(Run(Config(file, payload, blocks), Opened(Config(file, payload, blocks)), acts)) <= file
  }

  /** The first block of a file, queued by five producer actions. */
  lemma QueueFirstBlock(cfg: Config) returns (acts: seq<Action>)
    requires cfg.blocks >= 1 && |cfg.file| >= cfg.payload
    ensures Run(cfg, Opened(cfg), acts)
         == State(cfg.payload, [Buf(cfg.file[..cfg.payload], 0, cfg.payload)], 1, cfg.blocks - 1, true, 0,
                  LoopHead, Idle, false, [])
  {
    acts := [];
    var s := Opened(cfg);
    RunSnoc(cfg, Opened(cfg), acts, ProducerStep);
    acts, s := acts + [ProducerStep], s.(pending := 0, producer := LoopHead);
    RunSnoc(cfg, Opened(cfg), acts, ProducerStep);
    acts, s := acts + [ProducerStep], s.(free := cfg.blocks - 1, producer := Allocated);
    RunSnoc(cfg, Opened(cfg), acts, ProducerStep);
    var b := Buf(cfg.file[..cfg.payload], 0, cfg.payload);
    acts, s := acts + [ProducerStep], s.(pos := cfg.payload, producer := Filled(b, true));
    RunSnoc(cfg, Opened(cfg), acts, ProducerStep);
    acts, s := acts + [ProducerStep], s.(queue := [b], producer := Queued(true));
    RunSnoc(cfg, Opened(cfg), acts, ProducerStep);
    acts, s := acts + [ProducerStep], s.(sem := 1, producer := LoopHead);
  }

  /** A K_NO_WAIT read of less than the first block, run to its end while the producer is active. */
  lemma ReadPart(cfg: Config, s0: State, acts0: seq<Action>, want: nat) returns (acts: seq<Action>)
    requires Run(cfg, Opened(cfg), acts0) == s0 && cfg.blocks >= 1
    requires s0.reader.Idle? && !s0.eof && s0.active && s0.sem == 1 && |s0.queue| == 1
    requires 0 < want < s0.queue[0].len
    ensures var b := s0.queue[0];
            var kept := Buf(b.data, (b.offset + want) % 0x1_0000, b.len - want);
            var r := Result(want, false, Slice(b.data, b.offset, want), false);
            Run(cfg, Opened(cfg), acts) == s0.(queue := [kept], log := s0.log + [r])
  {
    var b := s0.queue[0];
    var part := Slice(b.data, b.offset, want);
    var kept := [Buf(b.data, (b.offset + want) % 0x1_0000, b.len - want)];
    var c := Call(want, false, []);
    RunSnoc(cfg, Opened(cfg), acts0, Read(want, false));
    acts := acts0 + [Read(want, false)];
    RunSnoc(cfg, Opened(cfg), acts, ReaderStep);
    acts := acts + [ReaderStep];
    assert Run(cfg, Opened(cfg), acts) == s0.(sem := 0, reader := Took(c));
    RunSnoc(cfg, Opened(cfg), acts, ReaderStep);
    acts := acts + [ReaderStep];
    assert s0.queue[0 := kept[0]] == kept;
    assert Run(cfg, Opened(cfg), acts) == s0.(queue := kept, sem := 0, reader := Kept(c, part));
    RunSnoc(cfg, Opened(cfg), acts, ReaderStep);
    acts := acts + [ReaderStep];
    RunSnoc(cfg, Opened(cfg), acts, ReaderStep);
    acts := acts + [ReaderStep];
    assert [] + part == part;
    assert Run(cfg, Opened(cfg), acts) == s0.(queue := kept, reader := Scheduling(Call(want, false, part)));
    RunSnoc(cfg, Opened(cfg), acts, ReaderStep);
    acts := acts + [ReaderStep];
  }

  /** A K_NO_WAIT read that takes the rest of the only block and finds it not full. */
  lemma ReadRest(cfg: Config, s0: State, acts0: seq<Action>) returns (acts: seq<Action>)
    requires Run(cfg, Opened(cfg), acts0) == s0
    requires s0.reader.Idle? && !s0.eof && s0.sem == 1 && |s0.queue| == 1
    requires 0 < s0.queue[0].len && s0.queue[0].len + s0.queue[0].offset != cfg.payload
    ensures var b := s0.queue[0];
            var r := Result(b.len, false, Slice(b.data, b.offset, b.len), false);
            Run(cfg, Opened(cfg), acts) == s0.(queue := [], sem := 0, eof := true, log := s0.log + [r])
  {
    var b := s0.queue[0];
    RunSnoc(cfg, Opened(cfg), acts0, Read(b.len, false));
    acts := acts0 + [Read(b.len, false)];
    RunSnoc(cfg, Opened(cfg), acts, ReaderStep);
    acts := acts + [ReaderStep];
    RunSnoc(cfg, Opened(cfg), acts, ReaderStep);
    acts := acts + [ReaderStep];
    assert Run(cfg, Opened(cfg), acts) == s0.(queue := [], sem := 0, reader := Popped(Call(b.len, false, []), b));
    RunSnoc(cfg, Opened(cfg), acts, ReaderStep);
    acts := acts + [ReaderStep];
    assert [] + Slice(b.data, b.offset, b.len) == Slice(b.data, b.offset, b.len);
  }

  /** Blocks above 64 KiB: the 16-bit offset wraps and the first byte is delivered a second time. */
  lemma WrappedOffset(payload: nat, blocks: nat) returns (cfg: Config, acts: seq<Action>)
    requires payload > 0x1_0000 && blocks >= 1
    ensures cfg.payload == payload && cfg.blocks == blocks
    ensures !(Delivered(Run(cfg, Opened(cfg), acts)) <= cfg.file)
  {
    hide Run, Opened;
    cfg := Config(seq(payload, i => if i < 0x1_0000 then 0 else 1), payload, blocks);
    acts := QueueFirstBlock(cfg);
    var s := Run(cfg, Opened(cfg), acts);
    assert cfg.file[..payload] == cfg.file;
    acts := ReadPart(cfg, s, acts, 0x1_0000);
    var s1 := Run(cfg, Opened(cfg), acts);
    if payload == 0x1_0001 {
      acts := ReadRest(cfg, s1, acts);
    } else {
      acts := ReadPart(cfg, s1, acts, 1);
    }
    var s2 := Run(cfg, Opened(cfg), acts);
    LogSnoc([], s1.log[0]);
    assert s1.log == [] + [s1.log[0]];
    LogSnoc(s1.log, s2.log[1]);
    assert s2.log == s1.log + [s2.log[1]];
    assert Delivered(s2)[0x1_0000] == 0 != cfg.file[0x1_0000];
  }

  /** The delivered bytes are always a prefix of the file exactly when a block's payload fits a 16-bit offset. */
  lemma PrefixExactlyWhenOffsetFits(payload: nat, blocks: nat)
    requires blocks >= 1
    ensures AlwaysPrefix(payload, blocks) <==> payload <= 0x1_0000
  {
    if payload <= 0x1_0000 {
      forall file: seq<byte>, acts: seq<Action>
        ensures Delivered(Run(Config(file, payload, blocks), Opened(Config(file, payload, blocks)), acts)) <= file
      {
        ReaderSafety(Config(file, payload, blocks), acts);
      }
    } else {
      var cfg, acts := WrappedOffset(payload, blocks);
      assert cfg == Config(cfg.file, payload, blocks);
    }
  }
}
