/**
 When a K_FOREVER read of the asynchronous reader can hang: an activation that
 ran out of blocks still holds its ACTIVE flag while the reader empties the
 queue, so no new one is scheduled. This is possible exactly when the file does
 not fit in the pool with room to spare for its end.
 */
module AsyncReaderWakeUp {

  import opened Common
  import opened AsyncReader

  /** Waiting for a buffer that no activation will ever queue. */
  predicate Stranded(s: State) {
    && s.reader.Waiting? && s.reader.call.forever && s.sem == 0
    && s.producer.Asleep? && s.pending == 0 && !s.eof
  }

  /** Whatever is scheduled afterwards, such a read does not return. */
  lemma {:induction false} StrandedForever(cfg: Config, s: State, acts: seq<Action>)
    requires Stranded(s)
    ensures Run(cfg, s, acts) == s
    decreases |acts|
  {
    if acts != [] {
      StrandedForever(cfg, s, acts[1..]);
    }
  }

  ghost predicate CanHang(cfg: Config) {
    exists acts :: Stranded(Run(cfg, Opened(cfg), acts))
  }

  // ---------------------------------------------------------------- files that fit in the pool

  /** Full blocks in circulation: queued, just filled, or taken out and not yet given back. */
  function FullBlocks(s: State): nat {
    |s.queue| + (if s.producer.Filled? && s.producer.more then 1 else 0)
    + (if s.reader.Popped? || s.reader.Freeing? then 1 else 0)
  }

  /** Until the end of the file has been met, the blocks in circulation hold what was read, and an activation is due. */
  predicate Circulates(cfg: Config, s: State) {
    && (SawEnd(cfg, s) || cfg.payload * FullBlocks(s) <= s.pos)
    && (s.producer.Filled? && !s.producer.more ==> |s.producer.buf.data| < cfg.payload)
    && ((s.producer.Queued? && !s.producer.more) || s.producer.Leaving? || Activations(s) == 0 ==> SawEnd(cfg, s))
  }

  /** There is a block left for an activation that has not met the end of the file. */
  lemma BlockLeft(cfg: Config, s: State)
    requires Inv(cfg, s) && Circulates(cfg, s) && |cfg.file| < cfg.blocks * cfg.payload
    requires s.producer.LoopHead? && !SawEnd(cfg, s)
    ensures s.free > 0
  {
    assert FullBlocks(s) + s.free == cfg.blocks;
    if FullBlocks(s) >= cfg.blocks {
      AtLeast(cfg.payload, FullBlocks(s), cfg.blocks);
    }
  }

  lemma AtLeast(p: nat, a: nat, b: nat)
    requires a >= b
    ensures p * a >= b * p
  {
    assert p * a == p * b + p * (a - b);
  }

  lemma MoreBlocks(p: nat, n: nat, pos: nat)
    requires p * n <= pos
    ensures p * (n + 1) <= pos + p
  {
  }

  lemma FewerBlocks(p: nat, n: nat)
    requires n > 0
    ensures p * (n - 1) <= p * n
  {
    assert p * n == p * (n - 1) + p;
  }

  lemma ProducerCirculates(cfg: Config, s: State)
    requires Inv(cfg, s) && Circulates(cfg, s) && |cfg.file| < cfg.blocks * cfg.payload
    ensures Circulates(cfg, StepProducer(cfg, s))
  {
    match s.producer
    case LoopHead =>
      if !SawEnd(cfg, s) { BlockLeft(cfg, s); }
    case Allocated =>
      if !SawEnd(cfg, s) { MoreBlocks(cfg.payload, FullBlocks(s), s.pos); }
    case Filled(buf, more) =>
      var queue := s.queue + [buf];
      assert buf in queue;
      assert forall b :: b in s.queue ==> b in queue;
      assert HasShort(cfg, s.queue) ==> HasShort(cfg, queue);
    case _ =>
  }

  /** Cutting or removing the head of the queue does not lose sight of a block that was not filled. */
  lemma StillShort(cfg: Config, queue: seq<Buf>, kept: Buf)
    requires queue != [] && kept.data == queue[0].data && HasShort(cfg, queue)
    ensures HasShort(cfg, queue[0 := kept])
    ensures |queue[0].data| < cfg.payload || HasShort(cfg, queue[1..])
  {
    var i :| 0 <= i < |queue| && |queue[i].data| < cfg.payload;
    var queue' := queue[0 := kept];
    assert queue'[i] in queue' && |queue'[i].data| < cfg.payload;
    if i > 0 {
      assert queue[1..][i - 1] == queue[i];
    }
  }

  lemma TakeCirculates(cfg: Config, s: State)
    requires Circulates(cfg, s) && s.reader.Took? && s.queue != []
    ensures Circulates(cfg, StepReader(cfg, s))
  {
    var b, s' := s.queue[0], StepReader(cfg, s);
    if HasShort(cfg, s.queue) {
      StillShort(cfg, s.queue, if s'.reader.Kept? then s'.queue[0] else b);
    }
    hide HasShort, Slice;
  }

  lemma GiveBackCirculates(cfg: Config, s: State)
    requires Circulates(cfg, s)
    requires (s.reader.Popped? && GoodBuf(cfg, s.reader.buf)) || s.reader.Freeing?
    ensures Circulates(cfg, StepReader(cfg, s))
  {
    if s.reader.Freeing? {
      FewerBlocks(cfg.payload, FullBlocks(s));
    }
    hide HasShort, Slice;
  }

  lemma OtherCirculates(cfg: Config, s: State)
    requires Circulates(cfg, s) && !s.reader.Took? && !s.reader.Popped? && !s.reader.Freeing?
    ensures Circulates(cfg, StepReader(cfg, s))
  {
    hide HasShort;
  }

  lemma ReaderCirculates(cfg: Config, s: State)
    requires Inv(cfg, s) && Circulates(cfg, s)
    ensures Circulates(cfg, StepReader(cfg, s))
  {
    hide Circulates;
    if s.reader.Took? {
      if s.queue != [] { TakeCirculates(cfg, s); }
    } else if s.reader.Popped? || s.reader.Freeing? {
      GiveBackCirculates(cfg, s);
    } else {
      OtherCirculates(cfg, s);
    }
  }

  lemma {:induction false} RunCirculates(cfg: Config, s: State, acts: seq<Action>)
    requires Inv(cfg, s) && Circulates(cfg, s) && |cfg.file| < cfg.blocks * cfg.payload && cfg.payload <= U16
    ensures Circulates(cfg, Run(cfg, s, acts)) && Inv(cfg, Run(cfg, s, acts))
    decreases |acts|
  {
    if acts != [] {
      RunKeeps(cfg, s, acts[..1]);
      assert Run(cfg, s, acts[..1]) == Step(cfg, s, acts[0]);
      match acts[0] {
        case ProducerStep => ProducerCirculates(cfg, s);
        case ReaderStep => ReaderCirculates(cfg, s);
        case Read(_, _) =>
      }
      RunCirculates(cfg, Step(cfg, s, acts[0]), acts[1..]);
    }
  }

  lemma NeverStranded(cfg: Config, acts: seq<Action>)
    requires |cfg.file| < cfg.blocks * cfg.payload && cfg.payload <= U16
    ensures !Stranded(Run(cfg, Opened(cfg), acts))
  {
    RunCirculates(cfg, Opened(cfg), acts);
  }

  // ---------------------------------------------------------------- files that do not

  lemma Extend(cfg: Config, acts: seq<Action>, s: State, a: Action) returns (acts': seq<Action>, s': State)
    requires Run(cfg, Opened(cfg), acts) == s
    ensures s' == Step(cfg, s, a) && Run(cfg, Opened(cfg), acts') == s'
  {
    RunSnoc(cfg, Opened(cfg), acts, a);
    acts', s' := acts + [a], Step(cfg, s, a);
  }

  lemma Multiples(p: nat, k: nat, n: nat)
    requires k < n
    ensures (k + 1) * p == k * p + p <= n * p
  {
    assert n * p == (k + 1) * p + (n - k - 1) * p;
  }

  predicate AllFull(cfg: Config, queue: seq<Buf>) {
    forall j :: 0 <= j < |queue| ==> queue[j].offset == 0 && queue[j].len == |queue[j].data| == cfg.payload
  }

  /** The first activation has filled and queued `k` blocks; nobody reads yet. */
  predicate Filling(cfg: Config, s: State, k: nat) {
    && s.pos == k * cfg.payload && |s.queue| == s.sem == k && AllFull(cfg, s.queue) && s.free + k == cfg.blocks
    && s.active && s.pending == 0 && s.producer.LoopHead? && s.reader.Idle? && !s.eof
  }

  lemma FillOne(cfg: Config, acts: seq<Action>, s: State, k: nat) returns (acts': seq<Action>, s': State)
    requires Run(cfg, Opened(cfg), acts) == s && Filling(cfg, s, k)
    requires k < cfg.blocks && cfg.blocks * cfg.payload <= |cfg.file|
    ensures Run(cfg, Opened(cfg), acts') == s' && Filling(cfg, s', k + 1)
  {
    Multiples(cfg.payload, k, cfg.blocks);
    hide Run;
    acts', s' := Extend(cfg, acts, s, ProducerStep);
    acts', s' := Extend(cfg, acts', s', ProducerStep);
    assert s'.producer.Filled? && |s'.producer.buf.data| == cfg.payload && s'.producer.more;
    acts', s' := Extend(cfg, acts', s', ProducerStep);
    assert AllFull(cfg, s'.queue);
    acts', s' := Extend(cfg, acts', s', ProducerStep);
  }

  lemma {:induction false} FillPool(cfg: Config, k: nat) returns (acts: seq<Action>, s: State)
    requires k <= cfg.blocks && cfg.blocks * cfg.payload <= |cfg.file|
    ensures Run(cfg, Opened(cfg), acts) == s && Filling(cfg, s, k)
    decreases k
  {
    if k == 0 {
      acts, s := Extend(cfg, [], Opened(cfg), ProducerStep);
    } else {
      acts, s := FillPool(cfg, k - 1);
      acts, s := FillOne(cfg, acts, s, k - 1);
    }
  }

  /** The activation is out of blocks but still active; the reader has emptied `i` of them. */
  predicate Draining(cfg: Config, s: State, i: nat) {
    && i <= cfg.blocks && |s.queue| == s.sem == cfg.blocks - i && AllFull(cfg, s.queue)
    && s.active && s.pending == 0 && s.producer.Leaving? && !s.eof
    && s.reader.Waiting? && s.reader.call.forever
    && s.reader.call.want == cfg.blocks * cfg.payload + 1 && |s.reader.call.got| == i * cfg.payload
  }

  lemma DrainOne(cfg: Config, acts: seq<Action>, s: State, i: nat) returns (acts': seq<Action>, s': State)
    requires Run(cfg, Opened(cfg), acts) == s && Draining(cfg, s, i) && i < cfg.blocks
    ensures Run(cfg, Opened(cfg), acts') == s' && Draining(cfg, s', i + 1)
  {
    Multiples(cfg.payload, i, cfg.blocks);
    var b := s.queue[0];
    hide Run;
    acts', s' := Extend(cfg, acts, s, ReaderStep);
    acts', s' := Extend(cfg, acts', s', ReaderStep);
    assert s'.reader.Popped? && s'.reader.buf == b && AllFull(cfg, s'.queue);
    acts', s' := Extend(cfg, acts', s', ReaderStep);
    assert s'.reader.Freeing? && |s'.reader.call.got| == (i + 1) * cfg.payload;
    acts', s' := Extend(cfg, acts', s', ReaderStep);
    acts', s' := Extend(cfg, acts', s', ReaderStep);
  }

  lemma {:induction false} DrainPool(cfg: Config, i: nat) returns (acts: seq<Action>, s: State)
    requires i <= cfg.blocks && cfg.blocks * cfg.payload <= |cfg.file|
    ensures Run(cfg, Opened(cfg), acts) == s && Draining(cfg, s, i)
    decreases i
  {
    if i == 0 {
      acts, s := FillPool(cfg, cfg.blocks);
      acts, s := Extend(cfg, acts, s, ProducerStep);
      acts, s := Extend(cfg, acts, s, Read(cfg.blocks * cfg.payload + 1, true));
    } else {
      acts, s := DrainPool(cfg, i - 1);
      acts, s := DrainOne(cfg, acts, s, i - 1);
    }
  }

  /** A K_FOREVER read can hang if and only if the file fills the whole pool. */
  lemma HangsExactlyWhenPoolFills(cfg: Config)
    requires cfg.payload <= U16
    ensures CanHang(cfg) <==> cfg.blocks * cfg.payload <= |cfg.file|
  {
    if cfg.blocks * cfg.payload <= |cfg.file| {
      var acts, s := DrainPool(cfg, cfg.blocks);
      acts, s := Extend(cfg, acts, s, ProducerStep);
      assert Stranded(Run(cfg, Opened(cfg), acts));
    } else {
      forall acts
        ensures !Stranded(Run(cfg, Opened(cfg), acts))
      {
        NeverStranded(cfg, acts);
      }
    }
  }
}
