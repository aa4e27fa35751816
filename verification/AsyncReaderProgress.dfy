/**
 Exactly which runs of the asynchronous reader hang, and that all others can be
 carried to the end of the file. An activation that finds no block clears its
 ACTIVE flag one step later; a reader that looks at the flag in between, after it
 has emptied the queue, schedules nothing and is never woken.
 */
module AsyncReaderProgress {

  import opened Common
  import opened AsyncReader
  import opened AsyncReaderWakeUp

  /**
   What an observer of the actions keeps: whether the activation has failed to
   allocate and not cleared its flag yet, and whether the reader last looked at
   the flag in such a moment, with the queue empty.
   */
  datatype Watch = Watch(failed: bool, missed: bool)

  const FRESH: Watch := Watch(false, false)

  function Watched(s: State, a: Action, w: Watch): Watch {
    Watch(if a.ProducerStep? then s.producer.LoopHead? && s.free == 0 else w.failed,
          if a.ReaderStep? && s.reader.Scheduling? then w.failed && s.queue == [] else w.missed)
  }

  function WatchOf(cfg: Config, s: State, acts: seq<Action>, w: Watch): Watch
    decreases |acts|
  {
    if acts == [] then w else WatchOf(cfg, Step(cfg, s, acts[0]), acts[1..], Watched(s, acts[0], w))
  }

  // ---------------------------------------------------------------- what the observer knows

  /** The reader has something to take, or is on its way to look at the flag. */
  predicate Busy(s: State) {
    s.queue != [] || s.reader.Kept? || s.reader.Copying? || s.reader.Popped? || s.reader.Freeing?
    || s.reader.Scheduling? || s.reader.Putting?
  }

  predicate Leaves(cfg: Config, s: State, w: Watch) {
    && (w.failed ==> s.producer.Leaving?)
    && (s.producer.Leaving? && !w.failed ==> SawEnd(cfg, s))
    && (s.producer.Queued? && !s.producer.more ==> SawEnd(cfg, s))
    && (s.producer.Filled? && !s.producer.more ==> |s.producer.buf.data| < cfg.payload)
  }

  /** Without an activation to come, and the end of the file not met, the reader is busy or has missed its chance. */
  predicate Woken(cfg: Config, s: State, w: Watch) {
    (!s.active || w.failed) && !SawEnd(cfg, s) ==> w.missed || Busy(s)
  }

  predicate Lost(s: State, w: Watch) {
    w.missed ==>
      && (w.failed || !s.active) && s.queue == [] && !s.eof
      && (s.reader.Idle? || s.reader.Waiting?) && (s.producer.Leaving? || s.producer.Asleep?)
  }

  predicate Watching(cfg: Config, s: State, w: Watch) {
    Leaves(cfg, s, w) && Woken(cfg, s, w) && Lost(s, w)
  }

  lemma ShortStays(cfg: Config, s: State, a: Action)
    requires SawEnd(cfg, s) && Shapes(cfg, s)
    ensures SawEnd(cfg, Step(cfg, s, a))
  {
    if a.ProducerStep? {
      if s.producer.Filled? && HasShort(cfg, s.queue) {
        var b :| b in s.queue && |b.data| < cfg.payload;
        assert b in s.queue + [s.producer.buf];
      }
    } else if a.ReaderStep? && s.reader.Took? && s.queue != [] && |s.reader.call.got| <= s.reader.call.want {
      TakeStays(cfg, s);
    }
  }

  lemma TakeStays(cfg: Config, s: State)
    requires SawEnd(cfg, s) && s.reader.Took? && s.queue != [] && |s.reader.call.got| <= s.reader.call.want
    ensures SawEnd(cfg, StepReader(cfg, s))
  {
    var b, s' := s.queue[0], StepReader(cfg, s);
    if HasShort(cfg, s.queue) {
      StillShort(cfg, s.queue, if s'.reader.Kept? then s'.queue[0] else b);
    }
    hide HasShort, Slice;
  }

  lemma LeavesStep(cfg: Config, s: State, a: Action, w: Watch)
    requires Inv(cfg, s) && Leaves(cfg, s, w)
    ensures Leaves(cfg, Step(cfg, s, a), Watched(s, a, w))
  {
    if SawEnd(cfg, s) { ShortStays(cfg, s, a); }
    if a.ProducerStep? && s.producer.Filled? {
      assert s.producer.buf in s.queue + [s.producer.buf];
    }
  }

  lemma WokenProducer(cfg: Config, s: State, w: Watch)
    requires Inv(cfg, s) && Leaves(cfg, s, w) && Woken(cfg, s, w) && cfg.blocks >= 1
    ensures Woken(cfg, StepProducer(cfg, s), Watched(s, ProducerStep, w))
  {
    if SawEnd(cfg, s) { ShortStays(cfg, s, ProducerStep); }
    hide SawEnd, Shapes, Ends, Accounted;
  }

  lemma WokenReader(cfg: Config, s: State, w: Watch)
    requires Inv(cfg, s) && Leaves(cfg, s, w) && Woken(cfg, s, w)
    ensures Woken(cfg, StepReader(cfg, s), Watched(s, ReaderStep, w))
  {
    var s' := StepReader(cfg, s);
    if SawEnd(cfg, s) {
      ShortStays(cfg, s, ReaderStep);
    } else if s.reader.Popped? {
      assert |s.reader.buf.data| == cfg.payload || SawEnd(cfg, s');
    } else if s.reader.Took? {
      TookBusy(cfg, s);
    }
    hide SawEnd, Shapes, Ends, Accounted, Slice;
  }

  /** A token stands for a queued buffer, which is then kept or in the reader's hands. */
  lemma TookBusy(cfg: Config, s: State)
    requires Counted(cfg, s) && Calls(s) && s.reader.Took?
    ensures s.queue != [] && Busy(StepReader(cfg, s))
  {
  }

  lemma LostStep(cfg: Config, s: State, a: Action, w: Watch)
    requires Counted(cfg, s) && Calls(s) && Leaves(cfg, s, w) && Lost(s, w)
    ensures Lost(Step(cfg, s, a), Watched(s, a, w))
  {
    hide SawEnd, Slice;
  }

  lemma WatchingStep(cfg: Config, s: State, a: Action, w: Watch)
    requires Inv(cfg, s) && Watching(cfg, s, w) && cfg.blocks >= 1
    ensures Watching(cfg, Step(cfg, s, a), Watched(s, a, w))
  {
    LeavesStep(cfg, s, a, w);
    LostStep(cfg, s, a, w);
    match a
    case ProducerStep => WokenProducer(cfg, s, w);
    case ReaderStep => WokenReader(cfg, s, w);
    case Read(want, forever) => WokenRead(cfg, s, want, forever, w);
  }

  lemma WokenRead(cfg: Config, s: State, want: nat, forever: bool, w: Watch)
    requires Woken(cfg, s, w)
    ensures Woken(cfg, StepRead(s, want, forever), Watched(s, Read(want, forever), w))
  {
    hide HasShort;
  }

  lemma {:induction false} RunWatching(cfg: Config, s: State, acts: seq<Action>, w: Watch)
    requires Inv(cfg, s) && Watching(cfg, s, w) && cfg.blocks >= 1 && cfg.payload <= U16
    ensures Inv(cfg, Run(cfg, s, acts)) && Watching(cfg, Run(cfg, s, acts), WatchOf(cfg, s, acts, w))
    decreases |acts|
  {
    hide Inv, Watching, Watched;
    if acts != [] {
      WatchingStep(cfg, s, acts[0], w);
      KeptOnce(cfg, s, acts[0]);
      RunWatching(cfg, Step(cfg, s, acts[0]), acts[1..], Watched(s, acts[0], w));
    }
  }

  lemma KeptOnce(cfg: Config, s: State, a: Action)
    requires Inv(cfg, s) && cfg.payload <= U16
    ensures Inv(cfg, Step(cfg, s, a))
  {
    hide Inv;
    RunKeeps(cfg, s, [a]);
    assert [a][1..] == [];
    assert Run(cfg, s, [a]) == Run(cfg, Step(cfg, s, a), []);
  }

  lemma OpenedWatching(cfg: Config)
    ensures Inv(cfg, Opened(cfg)) && Watching(cfg, Opened(cfg), FRESH)
  {
  }

  /** In the run so far the reader last looked at the flag too early, with nothing left to take. */
  predicate MissedWakeUp(cfg: Config, acts: seq<Action>) {
    WatchOf(cfg, Opened(cfg), acts, FRESH).missed
  }

  /** A K_FOREVER read that finds nothing while no activation runs hangs if and only if it missed its wake-up. */
  lemma HangsExactlyWhenMissed(cfg: Config, acts: seq<Action>)
    requires cfg.blocks >= 1 && cfg.payload <= U16
    ensures var s := Run(cfg, Opened(cfg), acts);
            Stranded(s) <==>
              && s.reader.Waiting? && s.reader.call.forever && s.sem == 0 && s.producer.Asleep?
              && MissedWakeUp(cfg, acts)
  {
    hide Run, WatchOf, Opened;
    OpenedWatching(cfg);
    RunWatching(cfg, Opened(cfg), acts, FRESH);
  }

  /** No reader step falls between a failed allocation and the clearing of the flag. */
  predicate Timely(cfg: Config, s: State, acts: seq<Action>, failed: bool)
    decreases |acts|
  {
    acts == [] ||
    (!(failed && acts[0].ReaderStep?) &&
     Timely(cfg, Step(cfg, s, acts[0]), acts[1..], Watched(s, acts[0], Watch(failed, false)).failed))
  }

  lemma {:induction false} TimelyMissesNothing(cfg: Config, s: State, acts: seq<Action>, w: Watch)
    requires Timely(cfg, s, acts, w.failed) && !w.missed
    ensures !WatchOf(cfg, s, acts, w).missed
    decreases |acts|
  {
    hide Step;
    if acts != [] {
      TimelyMissesNothing(cfg, Step(cfg, s, acts[0]), acts[1..], Watched(s, acts[0], w));
    }
  }

  /** Whatever the length of the file, such a run does not hang. */
  lemma TimelyNeverStranded(cfg: Config, acts: seq<Action>)
    requires cfg.blocks >= 1 && cfg.payload <= U16 && Timely(cfg, Opened(cfg), acts, false)
    ensures !Stranded(Run(cfg, Opened(cfg), acts))
  {
    TimelyMissesNothing(cfg, Opened(cfg), acts, FRESH);
    HangsExactlyWhenMissed(cfg, acts);
  }

  // ---------------------------------------------------------------- to the end of the file

  /** The reader's turn: it goes on with its read, or asks for `want` bytes more. */
  function ReaderTurn(s: State, want: nat): Action {
    if s.reader.Idle? then Read(want, true) else ReaderStep
  }

  /** A step of the producer, then one of the reader. */
  function Turn(cfg: Config, s: State, want: nat): State {
    var s1 := Step(cfg, s, ProducerStep);
    Step(cfg, s1, ReaderTurn(s1, want))
  }

  function Turns(cfg: Config, s: State, want: nat, n: nat): State
    decreases n
  {
    if n == 0 then s else Turns(cfg, Turn(cfg, s, want), want, n - 1)
  }

  /** A buffer with nothing left to read is one that was empty from the start. */
  predicate Tidy(s: State) {
    forall b :: b in s.queue && b.len == 0 ==> b.data == []
  }

  predicate Going(cfg: Config, s: State, w: Watch) {
    Inv(cfg, s) && Tidy(s) && Watching(cfg, s, w) && !w.missed
  }

  lemma TidyStep(cfg: Config, s: State, a: Action)
    requires Shapes(cfg, s) && Tidy(s)
    ensures Tidy(Step(cfg, s, a))
  {
    hide Slice, HasShort;
  }

  lemma {:induction false} RunTidy(cfg: Config, s: State, acts: seq<Action>)
    requires Inv(cfg, s) && Tidy(s) && cfg.payload <= U16
    ensures Tidy(Run(cfg, s, acts))
    decreases |acts|
  {
    hide Step, Tidy;
    if acts != [] {
      TidyStep(cfg, s, acts[0]);
      KeptOnce(cfg, s, acts[0]);
      RunTidy(cfg, Step(cfg, s, acts[0]), acts[1..]);
    }
  }

  /** One step of each side in turn never misses the wake-up: a reader about to look finds the pool queued. */
  lemma TurnGoing(cfg: Config, s: State, w: Watch, want: nat) returns (w': Watch)
    requires Going(cfg, s, w) && cfg.blocks >= 1 && cfg.payload <= U16
    ensures Going(cfg, Turn(cfg, s, want), w')
  {
    var s1, w1 := Step(cfg, s, ProducerStep), Watched(s, ProducerStep, w);
    KeptOnce(cfg, s, ProducerStep);
    TidyStep(cfg, s, ProducerStep);
    WatchingStep(cfg, s, ProducerStep, w);
    var a := ReaderTurn(s1, want);
    w' := Watched(s1, a, w1);
    FullWhenFailed(cfg, s, w, want);
    KeptOnce(cfg, s1, a);
    TidyStep(cfg, s1, a);
    WatchingStep(cfg, s1, a, w1);
    hide Inv, Tidy, Watching, Watched, Step;
  }

  lemma FullWhenFailed(cfg: Config, s: State, w: Watch, want: nat)
    requires Counted(cfg, s) && cfg.blocks >= 1 && !w.missed
    ensures var s1, w1 := Step(cfg, s, ProducerStep), Watched(s, ProducerStep, w);
            !Watched(s1, ReaderTurn(s1, want), w1).missed
  {
  }

  // ---------------------------------------------------------------- a measure

  function Stage(cfg: Config, s: State): nat {
    if s.eof then 0 else if s.reader.Popped? && |s.reader.buf.data| < cfg.payload then 1 else 2
  }

  /** Bytes that the reader has not taken yet. */
  function Untaken(cfg: Config, s: State): int {
    |cfg.file| - s.pos + |Unread(s.queue)| + |InProducer(s)|
  }

  function ReaderRank(r: Reader): nat {
    match r
    case Kept(_, _) => 10
    case Popped(_, _) => 10
    case Copying(_, _) => 9
    case Freeing(_) => 9
    case Scheduling(_) => 8
    case Putting(_) => 7
    case Waiting(c) => if c.forever then 4 else 6
    case Idle => 5
    case Took(_) => 3
  }

  function ProducerRank(p: Producer): nat {
    match p
    case Asleep => 5
    case LoopHead => 4
    case Allocated => 3
    case Filled(_, _) => 2
    case Queued(_) => 1
    case Leaving => 0
  }

  predicate Waits(s: State) {
    s.reader.Waiting? && s.reader.call.forever && s.sem == 0
  }

  predicate Less(cfg: Config, s': State, s: State) {
    || Stage(cfg, s') < Stage(cfg, s)
    || (Stage(cfg, s') == Stage(cfg, s) && Untaken(cfg, s') < Untaken(cfg, s))
    || (Stage(cfg, s') == Stage(cfg, s) && Untaken(cfg, s') == Untaken(cfg, s) && ReaderRank(s'.reader) < ReaderRank(s.reader))
  }

  /** The producer takes nothing from the reader. */
  lemma ProducerUntaken(cfg: Config, s: State)
    requires Inv(cfg, s)
    ensures var s' := StepProducer(cfg, s);
      Untaken(cfg, s') == Untaken(cfg, s) && s'.reader == s.reader && s'.eof == s.eof
  {
    if s.producer.Filled? {
      UnreadSnoc(s.queue, s.producer.buf);
      hide Unread;
    } else if s.producer.Allocated? {
      hide Unread;
    } else {
      hide Unread;
    }
  }

  lemma TakeProgress(cfg: Config, s: State)
    requires Inv(cfg, s) && Tidy(s) && s.reader.Took? && cfg.payload >= 1 && cfg.payload <= U16
    ensures Less(cfg, StepReader(cfg, s), s)
  {
    TookBusy(cfg, s);
    var c, b, s' := s.reader.call, s.queue[0], StepReader(cfg, s);
    assert b in s.queue && s' == TakeHead(s, c);
    TakeUnread(cfg, s, c);
    hide Unread;
    if s'.reader.Kept? {
      assert |InReader(s')| == c.want - |c.got|;
    } else {
      assert |InReader(s')| == b.len;
    }
  }

  lemma OtherProgress(cfg: Config, s: State)
    requires Inv(cfg, s) && !s.reader.Idle? && !s.reader.Took? && !Waits(s)
    ensures Less(cfg, StepReader(cfg, s), s)
  {
    hide Unread, HasShort, Slice, LogBytes;
    assert StepReader(cfg, s).queue == s.queue && InProducer(StepReader(cfg, s)) == InProducer(s);
  }

  lemma ReadProgress(cfg: Config, s: State, want: nat)
    requires s.reader.Idle? && !s.eof && want >= 1
    ensures Less(cfg, StepRead(s, want, true), s)
  {
  }

  lemma ReaderProgress(cfg: Config, s: State, want: nat)
    requires Inv(cfg, s) && Tidy(s) && !s.eof && want >= 1 && cfg.payload >= 1 && cfg.payload <= U16
    ensures var s' := Step(cfg, s, ReaderTurn(s, want)); Less(cfg, s', s) || (Waits(s) && s' == s)
  {
    hide Inv, Tidy, Less;
    if s.reader.Idle? {
      ReadProgress(cfg, s, want);
    } else if s.reader.Took? {
      TakeProgress(cfg, s);
    } else if !Waits(s) {
      OtherProgress(cfg, s);
    }
  }

  /** While the reader waits, an activation comes nearer to queueing a buffer. */
  lemma ProducerProgress(cfg: Config, s: State, w: Watch)
    requires Inv(cfg, s) && Watching(cfg, s, w) && !w.missed && cfg.blocks >= 1 && Waits(StepProducer(cfg, s))
    ensures ProducerRank(StepProducer(cfg, s).producer) < ProducerRank(s.producer)
  {
    NothingSeen(cfg, s);
    hide SawEnd, Shapes, Ends, Accounted;
  }

  lemma NothingSeen(cfg: Config, s: State)
    requires Counted(cfg, s) && Waits(StepProducer(cfg, s))
    ensures s.queue == [] && Waits(s) && !SawEnd(cfg, s)
  {
  }

  lemma TurnProgress(cfg: Config, s: State, w: Watch, want: nat)
    requires Going(cfg, s, w) && !s.eof && want >= 1 && cfg.blocks >= 1 && 1 <= cfg.payload <= U16
    ensures var s' := Turn(cfg, s, want);
      || Less(cfg, s', s)
      || (Stage(cfg, s') == Stage(cfg, s) && Untaken(cfg, s') == Untaken(cfg, s) && s'.reader == s.reader
          && ProducerRank(s'.producer) < ProducerRank(s.producer))
  {
    var s1 := Step(cfg, s, ProducerStep);
    KeptOnce(cfg, s, ProducerStep);
    TidyStep(cfg, s, ProducerStep);
    ProducerUntaken(cfg, s);
    ReaderProgress(cfg, s1, want);
    if Waits(s1) { ProducerProgress(cfg, s, w); }
    hide Inv, Tidy, Watching, StepProducer, StepReader, StepRead, Untaken;
  }

  lemma UntakenNat(cfg: Config, s: State, w: Watch)
    requires Going(cfg, s, w)
    ensures Inv(cfg, s) && Untaken(cfg, s) >= 0
  {
  }

  /** From here some number of turns reaches the end of the file. */
  lemma {:induction false} ReachesEof(cfg: Config, s: State, w: Watch, want: nat) returns (n: nat)
    requires Going(cfg, s, w) && want >= 1 && cfg.blocks >= 1 && 1 <= cfg.payload <= U16
    ensures Turns(cfg, s, want, n).eof && Inv(cfg, Turns(cfg, s, want, n))
    decreases Stage(cfg, s), Untaken(cfg, s), ReaderRank(s.reader), ProducerRank(s.producer)
  {
    hide Going, Inv, Turn, Stage, Untaken, ReaderRank, ProducerRank;
    UntakenNat(cfg, s, w);
    if s.eof {
      n := 0;
    } else {
      var w' := TurnGoing(cfg, s, w, want);
      TurnProgress(cfg, s, w, want);
      UntakenNat(cfg, Turn(cfg, s, want), w');
      var m := ReachesEof(cfg, Turn(cfg, s, want), w', want);
      n := m + 1;
    }
  }

  /** Once missed, no run ever reaches the end of the file. */
  lemma {:induction false} MissedForever(cfg: Config, s: State, w: Watch, acts: seq<Action>)
    requires Inv(cfg, s) && Watching(cfg, s, w) && w.missed && cfg.blocks >= 1 && cfg.payload <= U16
    ensures !Run(cfg, s, acts).eof
    decreases |acts|
  {
    if acts != [] {
      WatchingStep(cfg, s, acts[0], w);
      KeptOnce(cfg, s, acts[0]);
      assert Watched(s, acts[0], w).missed;
      hide Inv, Watching, Step;
      MissedForever(cfg, Step(cfg, s, acts[0]), Watched(s, acts[0], w), acts[1..]);
    }
  }

  /** The actions of `n` turns. */
  function TurnActions(cfg: Config, s: State, want: nat, n: nat): seq<Action>
    decreases n
  {
    if n == 0 then []
    else [ProducerStep, ReaderTurn(Step(cfg, s, ProducerStep), want)] + TurnActions(cfg, Turn(cfg, s, want), want, n - 1)
  }

  lemma {:induction false} TurnsAreRuns(cfg: Config, s: State, want: nat, n: nat)
    ensures Turns(cfg, s, want, n) == Run(cfg, s, TurnActions(cfg, s, want, n))
    decreases n
  {
    hide Step;
    if n > 0 {
      var s1 := Step(cfg, s, ProducerStep);
      var b := ReaderTurn(s1, want);
      var rest := TurnActions(cfg, Turn(cfg, s, want), want, n - 1);
      var all := [ProducerStep, b] + rest;
      TurnsAreRuns(cfg, Turn(cfg, s, want), want, n - 1);
      assert all[0] == ProducerStep && all[1..][0] == b && all[1..][1..] == rest;
      assert Run(cfg, s, all) == Run(cfg, s1, all[1..]) == Run(cfg, Step(cfg, s1, b), rest);
    }
  }

  lemma {:induction false} WatchedRun(cfg: Config, acts: seq<Action>)
    requires cfg.blocks >= 1 && cfg.payload <= U16
    ensures var s := Run(cfg, Opened(cfg), acts);
      Inv(cfg, s) && Tidy(s) && Watching(cfg, s, WatchOf(cfg, Opened(cfg), acts, FRESH))
  {
    OpenedWatching(cfg);
    RunTidy(cfg, Opened(cfg), acts);
    RunWatching(cfg, Opened(cfg), acts, FRESH);
  }

  /**
   After any run, stepping producer and reader in turn reaches the end of the file
   if and only if the wake-up was not missed.
   */
  lemma FinishesExactly(cfg: Config, acts: seq<Action>, want: nat)
    requires want >= 1 && cfg.blocks >= 1 && 1 <= cfg.payload <= U16
    ensures (exists n: nat :: Turns(cfg, Run(cfg, Opened(cfg), acts), want, n).eof) <==> !MissedWakeUp(cfg, acts)
  {
    var s, w := Run(cfg, Opened(cfg), acts), WatchOf(cfg, Opened(cfg), acts, FRESH);
    WatchedRun(cfg, acts);
    hide Run, WatchOf, Opened, Turns, Inv, Watching, Tidy;
    if w.missed {
      forall n: nat ensures !Turns(cfg, s, want, n).eof {
        TurnsAreRuns(cfg, s, want, n);
        MissedForever(cfg, s, w, TurnActions(cfg, s, want, n));
      }
    } else {
      var n := ReachesEof(cfg, s, w, want);
    }
  }

  /** And then the finished reads are the file. */
  lemma DeliversFile(cfg: Config, acts: seq<Action>, want: nat) returns (n: nat)
    requires want >= 1 && cfg.blocks >= 1 && 1 <= cfg.payload <= U16 && !MissedWakeUp(cfg, acts)
    ensures var s := Turns(cfg, Run(cfg, Opened(cfg), acts), want, n); s.eof && LogBytes(s.log) == cfg.file
  {
    var s, w := Run(cfg, Opened(cfg), acts), WatchOf(cfg, Opened(cfg), acts, FRESH);
    WatchedRun(cfg, acts);
    hide Run, WatchOf, Opened, Turns;
    n := ReachesEof(cfg, s, w, want);
    EofIsWhole(cfg, Turns(cfg, s, want, n));
  }

  lemma EofIsWhole(cfg: Config, s: State)
    requires Inv(cfg, s) && s.eof
    ensures LogBytes(s.log) == cfg.file
  {
    AllOf(Delivered(s), cfg.file[..s.pos]);
    NoTail(LogBytes(s.log));
    assert cfg.file[..s.pos] == cfg.file;
  }

  // ---------------------------------------------------------------- what a read returns

  /** A read that has a block in hand has bytes of it, unless it is the one that ends the file. */
  predicate InHand(cfg: Config, s: State) {
    match s.reader
    case Kept(_, part) => part != []
    case Copying(_, part) => part != []
    case Popped(_, b) => b.len > 0 || |b.data| < cfg.payload
    case Freeing(c) => c.got != []
    case Scheduling(c) => c.got != []
    case Putting(c) => c.got != []
    case _ => true
  }

  /** -EBUSY is for K_NO_WAIT and comes without bytes; a result without bytes is that, or the end of the file. */
  predicate Honest(s: State) {
    forall i :: 0 <= i < |s.log| ==>
      && (s.log[i].busy ==> !s.log[i].forever && s.log[i].bytes == [])
      && (s.log[i].bytes == [] ==> s.log[i].busy || s.eof)
  }

  lemma InHandStep(cfg: Config, s: State, a: Action)
    requires Inv(cfg, s) && Tidy(s) && InHand(cfg, s) && cfg.payload >= 1
    ensures InHand(cfg, Step(cfg, s, a))
  {
    if a.ReaderStep? && s.reader.Took? {
      TookBusy(cfg, s);
      assert s.queue[0] in s.queue;
    }
    hide Unread, HasShort, LogBytes;
  }

  lemma HonestStep(cfg: Config, s: State, a: Action)
    requires Inv(cfg, s) && InHand(cfg, s) && Honest(s)
    ensures Honest(Step(cfg, s, a))
  {
    hide Unread, HasShort, LogBytes, Accounted, Ends, Shapes;
  }

  lemma {:induction false} RunHonest(cfg: Config, s: State, acts: seq<Action>)
    requires Inv(cfg, s) && Tidy(s) && InHand(cfg, s) && Honest(s) && 1 <= cfg.payload <= U16
    ensures Honest(Run(cfg, s, acts))
    decreases |acts|
  {
    hide Step, Inv, Tidy, InHand, Honest;
    if acts != [] {
      InHandStep(cfg, s, acts[0]);
      HonestStep(cfg, s, acts[0]);
      KeptOnce(cfg, s, acts[0]);
      OneTidy(cfg, s, acts[0]);
      RunHonest(cfg, Step(cfg, s, acts[0]), acts[1..]);
    }
  }

  lemma OneTidy(cfg: Config, s: State, a: Action)
    requires Inv(cfg, s) && Tidy(s)
    ensures Tidy(Step(cfg, s, a))
  {
    TidyStep(cfg, s, a);
  }

  /** In every run a read comes back empty exactly when a K_NO_WAIT read found nothing, or at the end of the file. */
  lemma EmptyExactly(cfg: Config, acts: seq<Action>)
    requires 1 <= cfg.payload <= U16
    ensures var s := Run(cfg, Opened(cfg), acts);
      forall i :: 0 <= i < |s.log| ==>
        && (s.log[i].busy ==> !s.log[i].forever && s.log[i].bytes == [])
        && (s.log[i].bytes == [] ==> s.log[i].busy || s.eof)
  {
    OpenedWatching(cfg);
    RunHonest(cfg, Opened(cfg), acts);
  }
}
