/**
 The heap counter: in every safe run it is due to hold the data bytes of the live
 events, less those of events whose free has begun.
 */
module EventBusHeap {
  import opened Common
  import opened EventBus
  import opened EventBusSafety
  import opened EventBusQueues

  /** A producer has begun to free `e`: its data has left the counter, the slab operation is to come. */
  function PhaseFrees(p: Phase, e: nat): nat {
    match p
    case Failing(ev) => if ev == e then 1 else 0
    case FreeingPrev(_, _, prev) => if prev == e then 1 else 0
    case FreeingLast(ev) => if ev == e then 1 else 0
    case _ => 0
  }

  function Frees(phases: seq<Phase>, e: nat): nat {
    if phases == [] then 0 else PhaseFrees(phases[0], e) + Frees(phases[1..], e)
  }

  predicate BeingFreed(s: Bus, e: nat) {
    Frees(s.phases, e) + s.dying[e] > 0
  }

  function Bytes(s: Bus, e: nat): nat {
    if BeingFreed(s, e) then 0 else SizeOf(At(s.blocks, e))
  }

  /** The data of the first `n` blocks. */
  function DataBytes(s: Bus, n: nat): nat {
    if n == 0 then 0 else DataBytes(s, n - 1) + Bytes(s, n - 1)
  }

  /** An event has no data before its endpoint is chosen. */
  predicate Dataless(s: Bus, p: Phase) {
    match p
    case Allocating(mine) => mine.Some? ==> SizeOf(At(s.blocks, mine.value)) == 0
    case Fresh(ev) => SizeOf(At(s.blocks, ev)) == 0
    case _ => true
  }

  predicate HeapOk(s: Bus) {
    && s.stats.heap == DataBytes(s, |s.blocks|)
    && forall d :: 0 <= d < |s.phases| ==> Dataless(s, s.phases[d])
  }

  // ---------------------------------------------------------------- one block at a time

  /** The heap counter follows the one block whose bytes change. */
  ghost predicate HeapStep(s: Bus, s': Bus, x: nat) {
    && |s'.blocks| == |s.blocks|
    && (forall e: nat :: e != x ==> Bytes(s', e) == Bytes(s, e))
    && s'.stats.heap == s.stats.heap + Bytes(s', x) - Bytes(s, x)
  }

  lemma {:induction false} OneBlock(s: Bus, s': Bus, n: nat, x: nat)
    requires forall e: nat :: e != x ==> Bytes(s', e) == Bytes(s, e)
    ensures DataBytes(s', n) == DataBytes(s, n) + if x < n then Bytes(s', x) - Bytes(s, x) else 0
  {
    if n > 0 { OneBlock(s, s', n - 1, x); }
  }

  lemma HeapStepKeeps(s: Bus, s': Bus, x: nat)
    requires HeapStep(s, s', x) && s.stats.heap == DataBytes(s, |s.blocks|)
    ensures s'.stats.heap == DataBytes(s', |s'.blocks|)
  {
    OneBlock(s, s', |s.blocks|, x);
  }

  /** Nothing that bytes depend on changes: sizes, the events being freed, the counter. */
  predicate SameSizes(s: Bus, s': Bus) {
    |s'.blocks| == |s.blocks| && forall e :: 0 <= e < |s.blocks| ==> SizeOf(s'.blocks[e]) == SizeOf(s.blocks[e])
  }

  ghost predicate SameFrees(s: Bus, s': Bus) {
    s'.dying == s.dying && forall e: nat :: Frees(s'.phases, e) == Frees(s.phases, e)
  }

  lemma NothingMoves(s: Bus, s': Bus)
    requires SameSizes(s, s') && SameFrees(s, s') && s'.stats.heap == s.stats.heap
    ensures HeapStep(s, s', 0)
  {
  }

  lemma {:induction false} FreesUpdate(phases: seq<Phase>, d: nat, p: Phase, e: nat)
    requires d < |phases|
    ensures Frees(phases[d := p], e) == Frees(phases, e) - PhaseFrees(phases[d], e) + PhaseFrees(p, e)
  {
    if d == 0 {
      assert phases[d := p][1..] == phases[1..];
    } else {
      assert phases[d := p][1..] == phases[1..][d - 1 := p];
      FreesUpdate(phases[1..], d - 1, p, e);
    }
  }

  lemma {:induction false} FreesOwned(phases: seq<Phase>, e: nat)
    ensures Frees(phases, e) <= ProducerOwns(phases, e)
  {
    if phases != [] { FreesOwned(phases[1..], e); }
  }

  /** An event somebody refers to is not being freed. */
  lemma ReferencedKept(s: Bus, e: nat)
    requires BlockOk(s, e) && Refs(s, e) > 0
    ensures At(s.blocks, e).Live? && !BeingFreed(s, e)
  {
    FreesOwned(s.phases, e);
  }

  /** Nor is an event its thread is still building. */
  lemma OwnedKept(s: Bus, d: nat, e: nat)
    requires BlockOk(s, e) && d < |s.phases| && PhaseOwn(s.phases[d], e) == 1 && PhaseFrees(s.phases[d], e) == 0
    ensures At(s.blocks, e).Live? && !BeingFreed(s, e)
  {
    PhaseHolds(s, d, e);
    FreesUpdate(s.phases, d, Idle, e);
    PhaseUpdate(s.phases, d, Idle, e);
    FreesOwned(s.phases[d := Idle], e);
  }

  /** A phase change that begins and ends no free. */
  lemma SamePhaseFrees(s: Bus, s': Bus, d: nat)
    requires d < |s.phases| && |s'.phases| == |s.phases| && s'.phases == s.phases[d := s'.phases[d]] && s'.dying == s.dying
    requires forall e: nat :: PhaseFrees(s'.phases[d], e) == PhaseFrees(s.phases[d], e)
    ensures SameFrees(s, s')
  {
    forall e: nat ensures Frees(s'.phases, e) == Frees(s.phases, e) {
      FreesUpdate(s.phases, d, s'.phases[d], e);
    }
  }

  /** A thread begins to free `x`: its bytes leave the counter. */
  lemma FreeBegins(s: Bus, s': Bus, d: nat, x: nat)
    requires d < |s.phases| && |s'.phases| == |s.phases| && s'.phases == s.phases[d := s'.phases[d]] && s'.dying == s.dying
    requires SameSizes(s, s') && !BeingFreed(s, x) && s'.stats.heap == s.stats.heap - SizeOf(At(s.blocks, x))
    requires PhaseFrees(s'.phases[d], x) == 1
    requires forall e: nat :: e != x ==> PhaseFrees(s'.phases[d], e) == PhaseFrees(s.phases[d], e)
    ensures HeapStep(s, s', x)
  {
    forall e: nat ensures e != x ==> Frees(s'.phases, e) == Frees(s.phases, e) {
      FreesUpdate(s.phases, d, s'.phases[d], e);
    }
    FreesUpdate(s.phases, d, s'.phases[d], x);
    FreesUpdate(s.phases, d, Idle, x);
  }

  /** The slab operation: the block was counted no more. */
  lemma FreeEnds(s: Bus, s': Bus, d: nat, x: nat)
    requires d < |s.phases| && |s'.phases| == |s.phases| && s'.phases == s.phases[d := s'.phases[d]] && s'.dying == s.dying
    requires PhaseFrees(s.phases[d], x) == 1 && x < |s.blocks| && s'.blocks == s.blocks[x := Unused]
    requires s'.stats.heap == s.stats.heap
    requires forall e: nat :: e != x ==> PhaseFrees(s'.phases[d], e) == PhaseFrees(s.phases[d], e)
    ensures HeapStep(s, s', x)
  {
    forall e: nat ensures e != x ==> Frees(s'.phases, e) == Frees(s.phases, e) {
      FreesUpdate(s.phases, d, s'.phases[d], e);
    }
    FreesUpdate(s.phases, d, Idle, x);
  }

  // ---------------------------------------------------------------- consumers

  lemma DroppedHeap(s: Bus, s': Bus, e: nat)
    requires BlockOk(s, e) && Refs(s, e) > 0
    requires s'.phases == s.phases && s'.blocks == Dropped(s, e).blocks && s'.dying == Dropped(s, e).dying
    requires s'.stats == Dropped(s, e).stats
    ensures HeapStep(s, s', e)
  {
    ReferencedKept(s, e);
  }

  lemma RaisedHeap(s: Bus, s': Bus, e: nat)
    requires s'.phases == s.phases && s'.blocks == SetCount(s, e, Count(s, e) + 1).blocks && s'.dying == s.dying
    requires s'.stats == s.stats
    ensures HeapStep(s, s', e)
  {
  }

  lemma UnrefHeap(s: Bus, e: nat)
    requires BlockOk(s, e)
    ensures HeapStep(s, StepUnref(s, e), e)
  {
    if e in s.held {
      DroppedHeap(s, StepUnref(s, e), e);
    }
  }

  lemma RefHeap(s: Bus, e: nat)
    ensures HeapStep(s, StepRef(s, e), e)
  {
    if e in s.held { RaisedHeap(s, StepRef(s, e), e); }
  }

  lemma ReapHeap(s: Bus, e: nat)
    requires BlockOk(s, e)
    ensures HeapStep(s, StepReap(s, e), e)
  {
  }

  lemma LastOf(s: Bus, i: nat) returns (e: nat)
    requires Counted(s)
    ensures i < |s.eps| && s.eps[i].last.Some? ==> e == s.eps[i].last.value && BlockOk(s, e) && Refs(s, e) > 0
  {
    if i < |s.eps| && s.eps[i].last.Some? {
      e := s.eps[i].last.value;
      EndpointHolds(s, i);
    } else {
      e := 0;
    }
  }

  lemma UnlockHeap(s: Bus, i: nat) returns (x: nat)
    requires Counted(s)
    ensures HeapStep(s, StepUnlockLast(s, i), x)
  {
    x := LastOf(s, i);
    if i < |s.eps| && s.eps[i].locks > 0 && s.eps[i].last.Some? {
      DroppedHeap(s, StepUnlockLast(s, i), x);
    }
  }

  lemma LockHeap(s: Bus, i: nat) returns (x: nat)
    requires Counted(s)
    ensures HeapStep(s, StepLockLast(s, i), x) && HeapStep(s, StepKeepLast(s, i), x)
  {
    x := LastOf(s, i);
    if i < |s.eps| && s.eps[i].last.Some? {
      RaisedHeap(s, StepLockLast(s, i), x);
      if s.eps[i].locks > 0 { RaisedHeap(s, StepKeepLast(s, i), x); }
    }
  }

  predicate NoEvent(s: Bus, s': Bus) {
    s'.blocks == s.blocks && s'.phases == s.phases && s'.dying == s.dying && s'.stats == s.stats
  }

  lemma QueueNoEvent(s: Bus, i: nat)
    ensures NoEvent(s, StepTake(s, i)) && NoEvent(s, StepDrain(s, i))
    ensures NoEvent(s, StepUnsubscribe(s, i)) && NoEvent(s, StepRelease(s, i))
  {
  }

  lemma SubscribeNoEvent(s: Bus, t: nat, i: nat)
    ensures NoEvent(s, StepSubBegin(s, t, i)) && NoEvent(s, StepSubAdvance(s, t))
  {
  }

  lemma NoEventHeap(s: Bus, s': Bus)
    requires NoEvent(s, s')
    ensures HeapStep(s, s', 0)
  {
  }

  lemma ConsumerHeap(cfg: Config, s: Bus, a: Action) returns (x: nat)
    requires Counted(s) && !OfProducer(a)
    ensures HeapStep(s, Step(cfg, s, a), x)
  {
    hide HeapStep, NoEvent, StepTake, StepDrain, StepRef, StepUnref, StepReap, StepSubBegin, StepSubAdvance, StepUnsubscribe;
    hide StepRelease, StepLockLast, StepKeepLast, StepUnlockLast;
    x := 0;
    match a
    case Ref(e) => RefHeap(s, e); x := e;
    case Unref(e) => assert BlockOk(s, e); UnrefHeap(s, e); x := e;
    case Reap(e) => assert BlockOk(s, e); ReapHeap(s, e); x := e;
    case LockLast(i) => x := LockHeap(s, i);
    case KeepLast(i) => x := LockHeap(s, i);
    case UnlockLast(i) => x := UnlockHeap(s, i);
    case SubBegin(t, i) => SubscribeNoEvent(s, t, i); NoEventHeap(s, Step(cfg, s, a));
    case SubAdvance(t) => SubscribeNoEvent(s, t, 0); NoEventHeap(s, Step(cfg, s, a));
    case Take(i) => QueueNoEvent(s, i); NoEventHeap(s, Step(cfg, s, a));
    case Drain(i) => QueueNoEvent(s, i); NoEventHeap(s, Step(cfg, s, a));
    case Unsubscribe(i) => QueueNoEvent(s, i); NoEventHeap(s, Step(cfg, s, a));
    case Release(i) => QueueNoEvent(s, i); NoEventHeap(s, Step(cfg, s, a));
  }

  // ---------------------------------------------------------------- producers

  lemma BeginHeap(s: Bus, d: nat, b: nat)
    ensures HeapStep(s, StepBegin(s, d, b), b)
  {
    var s' := StepBegin(s, d, b);
    if s'.phases != s.phases {
      SamePhaseFrees(s, s', d);
    }
  }

  lemma ReturnedHeap(s: Bus, d: nat)
    ensures HeapStep(s, StepReturned(s, d), 0)
  {
    var s' := StepReturned(s, d);
    if d < |s.phases| && s.phases[d].Allocating? {
      SamePhaseFrees(s, s', d);
      NothingMoves(s, s');
    }
  }

  lemma RejectHeap(s: Bus, d: nat, r: Reason) returns (x: nat)
    requires Counted(s)
    ensures HeapStep(s, StepReject(s, d, r), x)
  {
    x := 0;
    if d < |s.phases| && s.phases[d].Fresh? && !r.IngestFailed? {
      x := s.phases[d].ev;
      assert BlockOk(s, x);
      OwnedKept(s, d, x);
      assert CountReason(s.stats, r).heap == s.stats.heap;
      hide CountReason;
      FreeBegins(s, StepReject(s, d, r), d, x);
    }
  }

  lemma RejectDataHeap(s: Bus, d: nat) returns (x: nat)
    requires Counted(s)
    ensures HeapStep(s, StepRejectData(s, d), x)
  {
    x := 0;
    if d < |s.phases| && s.phases[d].Loaded? {
      x := s.phases[d].ev;
      assert BlockOk(s, x);
      OwnedKept(s, d, x);
      FreeBegins(s, StepRejectData(s, d), d, x);
    }
  }

  lemma AcceptHeap(s: Bus, d: nat, k: nat, size: nat) returns (x: nat)
    requires Counted(s) && (d < |s.phases| ==> Dataless(s, s.phases[d]))
    ensures HeapStep(s, StepAccept(s, d, k, size), x)
  {
    x := 0;
    if d < |s.phases| && s.phases[d].Fresh? && k < 2 {
      x := s.phases[d].ev;
      assert BlockOk(s, x);
      OwnedKept(s, d, x);
      SamePhaseFrees(s, StepAccept(s, d, k, size), d);
    }
  }

  lemma MatchHeap(s: Bus, d: nat, yes: bool)
    ensures HeapStep(s, StepMatch(s, d, yes), 0)
  {
    var s' := StepMatch(s, d, yes);
    if d < |s.phases| && s.phases[d].Notifying? && s.phases[d].todo != [] {
      SamePhaseFrees(s, s', d);
      NothingMoves(s, s');
    }
  }

  lemma DropPrevHeap(s: Bus, d: nat, ev: nat, k: nat, prev: nat)
    requires d < |s.phases| && s.phases[d] == Replacing(ev, k, prev) && BlockOk(s, prev)
    ensures HeapStep(s, StepDropPrev(s, d, ev, k, prev), prev)
  {
    PhaseHolds(s, d, prev);
    ReferencedKept(s, prev);
    var s' := StepDropPrev(s, d, ev, k, prev);
    if Count(s, prev) == 1 {
      FreeBegins(s, s', d, prev);
    } else {
      SamePhaseFrees(s, s', d);
    }
  }

  lemma FreePrevHeap(s: Bus, d: nat, ev: nat, k: nat, prev: nat)
    requires d < |s.phases| && s.phases[d] == FreeingPrev(ev, k, prev) && BlockOk(s, prev)
    ensures HeapStep(s, SetPhase(FreeEvent(s, prev), d, Zeroing(ev, k)), prev)
  {
    PhaseHolds(s, d, prev);
    FreeEnds(s, SetPhase(FreeEvent(s, prev), d, Zeroing(ev, k)), d, prev);
  }

  lemma TestHeap(s: Bus, d: nat, ev: nat, k: nat)
    requires d < |s.phases| && s.phases[d] == Testing(ev, k) && BlockOk(s, ev) && Refs(s, ev) > 0
    ensures HeapStep(s, StepTest(s, d, ev), ev)
  {
    ReferencedKept(s, ev);
    SamePhaseFrees(s, StepTest(s, d, ev), d);
  }

  lemma OutcomeHeap(s: Bus, d: nat, ev: nat)
    requires d < |s.phases| && BlockOk(s, ev)
    ensures s.phases[d] == FreeingLast(ev) ==> HeapStep(s, StepFreeLast(s, d, ev), ev)
    ensures s.phases[d] == Failing(ev) ==> HeapStep(s, StepDrop(s, d, ev), ev)
  {
    PhaseHolds(s, d, ev);
    if s.phases[d] == FreeingLast(ev) { FreeEnds(s, StepFreeLast(s, d, ev), d, ev); }
    if s.phases[d] == Failing(ev) { FreeEnds(s, StepDrop(s, d, ev), d, ev); }
  }

  /** The steps that only count references, move endpoints, or take and release the mutex. */
  predicate Bookkeeping(p: Phase) {
    p.Loaded? || p.Zeroing? || p.Retaining? || p.Storing? || p.Locking? || p.Notifying? || p.Queueing?
  }

  predicate Booked(s: Bus, s': Bus, d: nat) {
    && d < |s.phases| && |s'.phases| == |s.phases| && s'.phases == s.phases[d := s'.phases[d]] && s'.dying == s.dying
    && SameSizes(s, s') && s'.stats.heap == s.stats.heap
    && (Bookkeeping(s'.phases[d]) || s'.phases[d].Testing? || s'.phases[d].Replacing?)
  }

  lemma BookedHeap(s: Bus, s': Bus, d: nat)
    requires Booked(s, s', d) && Bookkeeping(s.phases[d])
    ensures HeapStep(s, s', 0)
  {
    SamePhaseFrees(s, s', d);
    NothingMoves(s, s');
  }

  lemma CountBooked(s: Bus, d: nat, e: nat, rc: int, p: Phase)
    requires d < |s.phases| && Bookkeeping(p)
    ensures Booked(s, SetPhase(SetCount(s, e, rc), d, p), d)
  {
  }

  lemma EndpointBooked(s: Bus, d: nat, ev: nat, k: nat)
    requires d < |s.phases| && Bookkeeping(s.phases[d])
    ensures Booked(s, StepClear(s, d, ev, k), d) && Booked(s, StepStore(s, d, ev, k), d)
  {
  }

  lemma PutBooked(s: Bus, d: nat, ev: nat, k: nat, todo: seq<nat>)
    requires d < |s.phases| && Bookkeeping(s.phases[d])
    ensures Booked(s, StepPut(s, d, ev, k, todo), d) && Booked(s, StepUnlock(s, d, ev, k), d)
  {
  }

  lemma AdvanceBooked(cfg: Config, s: Bus, d: nat)
    requires d < |s.phases| && Bookkeeping(s.phases[d])
    ensures Booked(s, StepAdvance(cfg, s, d), d)
  {
    hide Count, SetCount, StepClear, StepStore, StepPut, StepUnlock;
    match s.phases[d]
    case Loaded(ev, k) => EndpointBooked(s, d, ev, k);
    case Zeroing(ev, k) => CountBooked(s, d, ev, 0, Retaining(ev, k)); CountBooked(s, d, ev, 0, Locking(ev, k));
    case Retaining(ev, k) => CountBooked(s, d, ev, Count(s, ev) + 1, Storing(ev, k));
    case Storing(ev, k) => EndpointBooked(s, d, ev, k);
    case Locking(ev, k) =>
    case Notifying(ev, k, todo) => PutBooked(s, d, ev, k, todo);
    case Queueing(ev, k, todo) => PutBooked(s, d, ev, k, todo);
  }

  lemma AdvanceHeap(cfg: Config, s: Bus, d: nat) returns (x: nat)
    requires Inv(cfg, s) && d < |s.phases|
    ensures HeapStep(s, StepAdvance(cfg, s, d), x)
  {
    x := 0;
    if Bookkeeping(s.phases[d]) {
      AdvanceBooked(cfg, s, d);
      hide StepAdvance, Booked, HeapStep;
      BookedHeap(s, StepAdvance(cfg, s, d), d);
    } else {
      hide HeapStep, StepDropPrev, StepTest, StepFreeLast, StepDrop;
      match s.phases[d] {
        case Replacing(ev, k, prev) => assert BlockOk(s, prev); DropPrevHeap(s, d, ev, k, prev); x := prev;
        case FreeingPrev(ev, k, prev) => assert BlockOk(s, prev); FreePrevHeap(s, d, ev, k, prev); x := prev;
        case Testing(ev, k) => TestedHolds(cfg, s, d); TestHeap(s, d, ev, k); x := ev;
        case FreeingLast(ev) => assert BlockOk(s, ev); OutcomeHeap(s, d, ev); x := ev;
        case Failing(ev) => assert BlockOk(s, ev); OutcomeHeap(s, d, ev); x := ev;
        case _ => SameHeap(s);
      }
    }
  }

  lemma SameHeap(s: Bus)
    ensures HeapStep(s, s, 0)
  {
  }

  lemma TestedHolds(cfg: Config, s: Bus, d: nat)
    requires Inv(cfg, s) && d < |s.phases| && s.phases[d].Testing?
    ensures BlockOk(s, s.phases[d].ev) && Refs(s, s.phases[d].ev) > 0
  {
    assert PhaseOk(s, d);
    EndpointHolds(s, 2 * d + s.phases[d].k);
  }

  lemma StepHeap(cfg: Config, s: Bus, a: Action) returns (x: nat)
    requires Inv(cfg, s) && HeapOk(s)
    ensures HeapStep(s, Step(cfg, s, a), x)
  {
    hide HeapStep, StepBegin, StepReturned, StepReject, StepAccept, StepRejectData, StepMatch, StepAdvance, Dataless;
    x := 0;
    match a
    case Begin(d, b) => BeginHeap(s, d, b); x := b;
    case Returned(d) => ReturnedHeap(s, d);
    case Reject(d, r) => x := RejectHeap(s, d, r);
    case Accept(d, k, size) => x := AcceptHeap(s, d, k, size);
    case RejectData(d) => x := RejectDataHeap(s, d);
    case Advance(d) => if d < |s.phases| { x := AdvanceHeap(cfg, s, d); } else { NoAdvance(cfg, s, d); SameHeap(s); }
    case Match(d, yes) => MatchHeap(s, d, yes);
    case _ => x := ConsumerHeap(cfg, s, a);
  }

  // ---------------------------------------------------------------- events without data yet

  /** Two threads never build the same event. */
  lemma OneBuilder(s: Bus, d: nat, d': nat, e: nat)
    requires BlockOk(s, e) && d < |s.phases| && d' < |s.phases| && d != d'
    requires PhaseOwn(s.phases[d], e) == 1
    ensures PhaseOwn(s.phases[d'], e) == 0
  {
    PhaseUpdate(s.phases, d, Idle, e);
    PhaseUpdate(s.phases[d := Idle], d', Idle, e);
  }

  /** The event of a thread that has not chosen an endpoint. */
  function Unloaded(p: Phase): Option<nat> {
    match p
    case Allocating(mine) => mine
    case Fresh(ev) => Some(ev)
    case _ => None
  }

  /** The step of another thread, or of a consumer. */
  lemma DatalessOther(cfg: Config, s: Bus, a: Action, d: nat)
    requires Inv(cfg, s) && d < |s.phases| && Dataless(s, s.phases[d]) && (OfProducer(a) ==> a.dev != d)
    ensures d < |Step(cfg, s, a).phases| && Dataless(Step(cfg, s, a), Step(cfg, s, a).phases[d])
  {
    SamePhase(cfg, s, a, d);
    if a.Accept? {
      var o := Unloaded(s.phases[d]);
      if o.Some? && a.dev < |s.phases| {
        assert BlockOk(s, o.value);
        OneBuilder(s, d, a.dev, o.value);
      }
    } else {
      StepDevs(cfg, s, a);
      hide Step;
    }
  }

  lemma DatalessBegin(s: Bus, d: nat, b: nat)
    requires d < |s.phases| && Dataless(s, s.phases[d])
    ensures d < |StepBegin(s, d, b).phases| && Dataless(StepBegin(s, d, b), StepBegin(s, d, b).phases[d])
  {
  }

  lemma DatalessReturned(s: Bus, d: nat)
    requires d < |s.phases| && Dataless(s, s.phases[d]) && (s.phases[d].Allocating? ==> s.slot == s.phases[d].mine)
    ensures d < |StepReturned(s, d).phases| && Dataless(StepReturned(s, d), StepReturned(s, d).phases[d])
  {
  }

  lemma DatalessMatch(s: Bus, d: nat, yes: bool)
    requires d < |s.phases| && Dataless(s, s.phases[d])
    ensures d < |StepMatch(s, d, yes).phases| && Dataless(StepMatch(s, d, yes), StepMatch(s, d, yes).phases[d])
  {
    hide Count;
  }

  lemma DatalessChoice(cfg: Config, s: Bus, a: Action)
    requires (a.Reject? || a.Accept? || a.RejectData?) && a.dev < |s.phases| && Dataless(s, s.phases[a.dev])
    ensures var s' := Step(cfg, s, a); a.dev < |s'.phases| && Dataless(s', s'.phases[a.dev])
  {
    hide CountReason;
  }

  /** A thread's own step. */
  lemma DatalessOwn(cfg: Config, s: Bus, a: Action)
    requires OfProducer(a) && a.dev < |s.phases| && 2 * a.dev + 1 < |s.eps| && PhaseOk(s, a.dev) && Dataless(s, s.phases[a.dev])
    requires a.dev < |Step(cfg, s, a).phases|
    ensures Dataless(Step(cfg, s, a), Step(cfg, s, a).phases[a.dev])
  {
    match a
    case Advance(d) => DatalessAdvance(cfg, s, d);
    case Begin(d, b) => DatalessBegin(s, d, b);
    case Returned(d) => DatalessReturned(s, d);
    case Match(d, yes) => DatalessMatch(s, d, yes);
    case _ => DatalessChoice(cfg, s, a);
  }

  lemma DatalessAdvance(cfg: Config, s: Bus, d: nat)
    requires d < |s.phases| && d < |StepAdvance(cfg, s, d).phases| && Dataless(s, s.phases[d])
    ensures Dataless(StepAdvance(cfg, s, d), StepAdvance(cfg, s, d).phases[d])
  {
    if s.phases[d].Allocating? || s.phases[d].Fresh? {
      assert StepAdvance(cfg, s, d) == s;
    } else {
      AdvanceLoads(cfg, s, d);
      hide StepAdvance;
    }
  }

  lemma AdvanceLoads(cfg: Config, s: Bus, d: nat)
    requires d < |s.phases| && d < |StepAdvance(cfg, s, d).phases| && !s.phases[d].Allocating? && !s.phases[d].Fresh?
    ensures Unloaded(StepAdvance(cfg, s, d).phases[d]) == None
    ensures !StepAdvance(cfg, s, d).phases[d].Allocating? && !StepAdvance(cfg, s, d).phases[d].Fresh?
  {
    hide Count;
    if Bookkeeping(s.phases[d]) {
      AdvanceBooked(cfg, s, d);
      hide StepAdvance;
    } else {
      EndLoads(cfg, s, d);
      hide StepAdvance;
    }
  }

  lemma EndLoads(cfg: Config, s: Bus, d: nat)
    requires d < |s.phases| && d < |StepAdvance(cfg, s, d).phases| && !Bookkeeping(s.phases[d])
    requires !s.phases[d].Allocating? && !s.phases[d].Fresh?
    ensures !StepAdvance(cfg, s, d).phases[d].Allocating? && !StepAdvance(cfg, s, d).phases[d].Fresh?
  {
    hide Count, SetCount, FreeEvent, StepDropPrev, StepTest, StepFreeLast, StepDrop;
    match s.phases[d]
    case Replacing(ev, k, prev) => DropPrevPhase(s, d, ev, k, prev); DropPrevLoads(s, d, ev, k, prev);
    case FreeingPrev(ev, k, prev) => SamePhases(s, prev);
    case Testing(ev, _) => EndPhase(s, d, ev); LastLoads(s, d, ev);
    case FreeingLast(ev) => EndPhase(s, d, ev); LastLoads(s, d, ev);
    case Failing(ev) => EndPhase(s, d, ev); LastLoads(s, d, ev);
    case Idle =>
  }

  lemma SamePhases(s: Bus, e: nat)
    ensures FreeEvent(s, e).phases == s.phases
  {
  }

  lemma DropPrevLoads(s: Bus, d: nat, ev: nat, k: nat, prev: nat)
    requires d < |s.phases| && d < |StepDropPrev(s, d, ev, k, prev).phases|
    ensures !StepDropPrev(s, d, ev, k, prev).phases[d].Fresh?
  {
  }

  lemma LastLoads(s: Bus, d: nat, ev: nat)
    requires d < |s.phases|
    requires d < |StepTest(s, d, ev).phases| && d < |StepFreeLast(s, d, ev).phases| && d < |StepDrop(s, d, ev).phases|
    ensures !StepTest(s, d, ev).phases[d].Fresh? && !StepFreeLast(s, d, ev).phases[d].Fresh? && !StepDrop(s, d, ev).phases[d].Fresh?
  {
  }

  lemma HeapOkStep(cfg: Config, s: Bus, a: Action)
    requires Inv(cfg, s) && HeapOk(s)
    ensures HeapOk(Step(cfg, s, a))
  {
    var x := StepHeap(cfg, s, a);
    var s' := Step(cfg, s, a);
    HeapStepKeeps(s, s', x);
    StepEvents(cfg, s, a);
    hide Step, HeapStep, Dataless;
    forall d | 0 <= d < |s'.phases| ensures Dataless(s', s'.phases[d]) {
      assert PhaseOk(s, d) && Dataless(s, s.phases[d]);
      if OfProducer(a) && a.dev == d { DatalessOwn(cfg, s, a); } else { DatalessOther(cfg, s, a, d); }
    }
  }

  lemma {:induction false} RunHeap(cfg: Config, s: Bus, acts: seq<Action>)
    requires Inv(cfg, s) && HeapOk(s) && Retains(cfg) && ObeyingRun(ALL, cfg, s, acts)
    ensures HeapOk(Run(cfg, s, acts))
    decreases |acts|
  {
    hide HeapOk, Inv, Step, Obeys;
    if acts != [] {
      HeapOkStep(cfg, s, acts[0]);
      StepKeeps(cfg, s, acts[0]);
      RunHeap(cfg, Step(cfg, s, acts[0]), acts[1..]);
    }
  }

  lemma {:induction false} StartHeap(cfg: Config, n: nat)
    ensures DataBytes(Start(cfg), n) == 0
  {
    if n > 0 { StartHeap(cfg, n - 1); }
  }

  /** In every safe run the heap counter is due to hold the data of the events that nobody has begun to free. */
  lemma HeapConserved(cfg: Config, acts: seq<Action>)
    requires Retains(cfg) && ObeyingRun(ALL, cfg, Start(cfg), acts)
    ensures var s := Run(cfg, Start(cfg), acts); s.stats.heap == DataBytes(s, |s.blocks|)
  {
    StartOk(cfg);
    StartHeap(cfg, cfg.pool);
    RunHeap(cfg, Start(cfg), acts);
  }
}
