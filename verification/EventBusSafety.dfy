/** Ownership of events: the reference count is the number of holders, in every run. */
module EventBusSafety {
  import opened Common
  import opened EventBus

  // ---------------------------------------------------------------- invariant

  /**
   The law of one slab block: free blocks have no holder; a live event's count is
   the number of references to it, and exactly one thread owns it when that is 0.
   */
  predicate BlockOk(s: Bus, e: nat) {
    match At(s.blocks, e)
    case Unused => Refs(s, e) == 0 && Owns(s, e) == 0
    case Live(rc, _, _) => rc == Refs(s, e) && Owns(s, e) == (if rc == 0 then 1 else 0)
  }

  ghost predicate Counted(s: Bus) {
    forall e: nat :: BlockOk(s, e)
  }

  predicate AllListed(subs: seq<Sub>, list: seq<nat>) {
    forall i :: i in list ==> i < |subs| && subs[i].Listed?
  }

  predicate NoRepeat(list: seq<nat>) {
    forall i, j :: 0 <= i < j < |list| ==> list[i] != list[j]
  }

  /** What a producer's phase says about its endpoint, the mutex and the subscriptions it still has to visit. */
  predicate PhaseOk(s: Bus, d: nat)
    requires d < |s.phases| && 2 * d + 1 < |s.eps|
  {
    && (!s.phases[d].Idle? ==> !Locked(s, d))
    && match s.phases[d]
       case Allocating(mine) => s.slot == mine
       case Loaded(_, k) => k < 2
       case Replacing(_, k, _) => k < 2 && s.eps[2 * d + k].last == None
       case FreeingPrev(_, k, _) => k < 2 && s.eps[2 * d + k].last == None
       case Zeroing(_, k) => k < 2 && s.eps[2 * d + k].last == None
       case Retaining(_, k) => k < 2 && s.eps[2 * d + k].last == None
       case Storing(_, k) => k < 2 && s.eps[2 * d + k].last == None
       case Locking(ev, k) => k < 2 && s.eps[2 * d + k].last == Some(ev)
       case Notifying(ev, k, todo) =>
         k < 2 && s.eps[2 * d + k].last == Some(ev) && s.lock == Some(d) && AllListed(s.subs, todo)
       case Queueing(ev, k, todo) =>
         k < 2 && s.eps[2 * d + k].last == Some(ev) && s.lock == Some(d) && AllListed(s.subs, todo) && todo != []
       case Testing(ev, k) => k < 2 && s.eps[2 * d + k].last == Some(ev)
       case _ => true
  }

  predicate Sized(cfg: Config, s: Bus) {
    |s.blocks| == cfg.pool && |s.eps| == 2 * cfg.devices && |s.phases| == cfg.devices && |s.subs| == cfg.maxSubs
    && |s.subscribers| == cfg.threads
  }

  predicate OneAllocating(s: Bus) {
    forall d, d' :: 0 <= d < |s.phases| && 0 <= d' < |s.phases| && s.phases[d].Allocating? && s.phases[d'].Allocating?
      ==> d == d'
  }

  predicate Disciplined(cfg: Config, s: Bus) {
    && Sized(cfg, s)
    && (forall d :: 0 <= d < |s.phases| ==> PhaseOk(s, d))
    && OneAllocating(s)
    && AllListed(s.subs, s.list)
    && NoRepeat(s.list)
  }

  // ---------------------------------------------------------------- invariant of the subscriptions

  /** The subscription block a subscribing thread works on. */
  function HeldBy(p: Subscriber): Option<nat> {
    match p
    case Outside => None
    case SubAllocating(mine) => mine
    case SubFresh(i) => Some(i)
    case SubReady(i) => Some(i)
  }

  predicate SubscriberOk(s: Bus, t: nat)
    requires t < |s.subscribers|
  {
    match s.subscribers[t]
    case Outside => true
    case SubAllocating(mine) => s.subSlot == mine && (mine.Some? ==> mine.value < |s.subs| && s.subs[mine.value].Raw?)
    case SubFresh(i) => i < |s.subs| && s.subs[i].Raw?
    case SubReady(i) => i < |s.subs| && s.subs[i].Ready?
  }

  /** No two threads work on the same block, and one at most has not read the static variable back. */
  predicate Apart(ps: seq<Subscriber>) {
    && (forall t, t' :: 0 <= t < |ps| && 0 <= t' < |ps| && t != t' && HeldBy(ps[t]).Some? ==> HeldBy(ps[t]) != HeldBy(ps[t']))
    && (forall t, t' :: 0 <= t < |ps| && 0 <= t' < |ps| && ps[t].SubAllocating? && ps[t'].SubAllocating? ==> t == t')
  }

  /** A subscription has one handle while it is on the list, and none otherwise. */
  ghost predicate Handled(s: Bus) {
    forall i: nat :: s.handles[i] == if i < |s.subs| && s.subs[i].Listed? then 1 else 0
  }

  ghost predicate Subscribed(s: Bus) {
    (forall t :: 0 <= t < |s.subscribers| ==> SubscriberOk(s, t)) && Apart(s.subscribers) && Handled(s)
  }

  predicate Retains(cfg: Config) {
    ValidConfig(cfg) && forall i :: 0 <= i < |cfg.retain| ==> cfg.retain[i]
  }

  ghost predicate Inv(cfg: Config, s: Bus) {
    Counted(s) && Disciplined(cfg, s) && Subscribed(s) && !s.fault
  }

  // ---------------------------------------------------------------- counting lemmas

  lemma {:induction false} PhaseUpdate(phases: seq<Phase>, d: nat, p: Phase, e: nat)
    requires d < |phases|
    ensures ProducerRefs(phases[d := p], e) == ProducerRefs(phases, e) - PhaseRef(phases[d], e) + PhaseRef(p, e)
    ensures ProducerOwns(phases[d := p], e) == ProducerOwns(phases, e) - PhaseOwn(phases[d], e) + PhaseOwn(p, e)
  {
    if d == 0 {
      assert phases[d := p][1..] == phases[1..];
    } else {
      assert phases[d := p][1..] == phases[1..][d - 1 := p];
      PhaseUpdate(phases[1..], d - 1, p, e);
    }
  }

  function EndpointRef(ep: Endpoint, e: nat): nat {
    if ep.last == Some(e) then 1 + ep.locks else 0
  }

  lemma {:induction false} EndpointUpdate(eps: seq<Endpoint>, i: nat, v: Endpoint, e: nat)
    requires i < |eps|
    ensures EndpointRefs(eps[i := v], e) == EndpointRefs(eps, e) - EndpointRef(eps[i], e) + EndpointRef(v, e)
  {
    if i == 0 {
      assert eps[i := v][1..] == eps[1..];
    } else {
      assert eps[i := v][1..] == eps[1..][i - 1 := v];
      EndpointUpdate(eps[1..], i - 1, v, e);
    }
  }

  lemma {:induction false} QueueUpdate(subs: seq<Sub>, i: nat, v: Sub, e: nat)
    requires i < |subs|
    ensures QueueRefs(subs[i := v], e)
         == QueueRefs(subs, e) - Occurrences(QueueOf(subs[i]), e) + Occurrences(QueueOf(v), e)
  {
    if i == 0 {
      assert subs[i := v][1..] == subs[1..];
    } else {
      assert subs[i := v][1..] == subs[1..][i - 1 := v];
      QueueUpdate(subs[1..], i - 1, v, e);
    }
  }

  /** What a producer's phase holds is part of the totals. */
  lemma PhaseHolds(s: Bus, d: nat, e: nat)
    requires d < |s.phases|
    ensures Refs(s, e) >= PhaseRef(s.phases[d], e)
    ensures Owns(s, e) >= PhaseOwn(s.phases[d], e)
  {
    PhaseUpdate(s.phases, d, Idle, e);
  }

  /** An endpoint that holds an event accounts for at least one reference to it. */
  lemma EndpointHolds(s: Bus, i: nat)
    requires i < |s.eps| && s.eps[i].last.Some?
    ensures EndpointRefs(s.eps, s.eps[i].last.value) >= 1 + s.eps[i].locks
  {
    EndpointUpdate(s.eps, i, Endpoint(None, 0), s.eps[i].last.value);
  }

  // ---------------------------------------------------------------- counts, step by step

  lemma BeginCounted(s: Bus, d: nat, b: nat, e: nat)
    requires BlockOk(s, e)
    ensures BlockOk(StepBegin(s, d, b), e)
  {
    if d < |s.phases| {
      PhaseUpdate(s.phases, d, Allocating(Some(b)), e);
      PhaseUpdate(s.phases, d, Allocating(None), e);
    }
  }

  lemma ReturnedCounted(s: Bus, d: nat, e: nat)
    requires BlockOk(s, e)
    requires d < |s.phases| && s.phases[d].Allocating? ==> s.slot == s.phases[d].mine
    ensures BlockOk(StepReturned(s, d), e)
  {
    if d < |s.phases| {
      PhaseUpdate(s.phases, d, if s.slot.Some? then Fresh(s.slot.value) else Idle, e);
    }
  }

  lemma RejectCounted(s: Bus, d: nat, r: Reason, e: nat)
    requires BlockOk(s, e)
    ensures BlockOk(StepReject(s, d, r), e)
  {
    if d < |s.phases| && s.phases[d].Fresh? {
      PhaseUpdate(s.phases, d, Failing(s.phases[d].ev), e);
    }
  }

  lemma RejectDataCounted(s: Bus, d: nat, e: nat)
    requires BlockOk(s, e)
    ensures BlockOk(StepRejectData(s, d), e)
  {
    if d < |s.phases| && s.phases[d].Loaded? {
      PhaseUpdate(s.phases, d, Failing(s.phases[d].ev), e);
    }
  }

  lemma AcceptCounted(s: Bus, d: nat, k: nat, size: nat, e: nat)
    requires BlockOk(s, e)
    ensures BlockOk(StepAccept(s, d, k, size), e)
  {
    if d < |s.phases| && s.phases[d].Fresh? {
      PhaseUpdate(s.phases, d, Loaded(s.phases[d].ev, k), e);
    }
  }

  lemma MatchCounted(s: Bus, d: nat, yes: bool, e: nat)
    requires BlockOk(s, e)
    requires d < |s.phases| && s.phases[d].Notifying? ==> EndpointRefs(s.eps, s.phases[d].ev) > 0
    requires d < |s.phases| && s.phases[d].Notifying? ==> BlockOk(s, s.phases[d].ev)
    ensures BlockOk(StepMatch(s, d, yes), e)
  {
    if d < |s.phases| && s.phases[d].Notifying? {
      var Notifying(ev, k, todo) := s.phases[d];
      PhaseUpdate(s.phases, d, Queueing(ev, k, todo), e);
      if todo != [] {
        PhaseUpdate(s.phases, d, Notifying(ev, k, todo[1..]), e);
      }
    }
  }

  lemma ClearCounted(s: Bus, d: nat, ev: nat, k: nat, e: nat)
    requires d < |s.phases| && s.phases[d] == Loaded(ev, k) && BlockOk(s, e)
    requires 2 * d + k < |s.eps| && s.eps[2 * d + k].locks == 0
    ensures BlockOk(StepClear(s, d, ev, k), e)
  {
    var ep := s.eps[2 * d + k];
    PhaseUpdate(s.phases, d, if ep.last.Some? then Replacing(ev, k, ep.last.value) else Zeroing(ev, k), e);
    EndpointUpdate(s.eps, 2 * d + k, ep.(last := None), e);
  }

  lemma DropPrevCounted(s: Bus, d: nat, ev: nat, k: nat, prev: nat, e: nat)
    requires d < |s.phases| && s.phases[d] == Replacing(ev, k, prev) && BlockOk(s, e) && BlockOk(s, prev)
    ensures BlockOk(StepDropPrev(s, d, ev, k, prev), e)
  {
    PhaseHolds(s, d, prev);
    PhaseUpdate(s.phases, d, if Count(s, prev) == 1 then FreeingPrev(ev, k, prev) else Zeroing(ev, k), e);
  }

  lemma FreePrevCounted(s: Bus, d: nat, ev: nat, k: nat, prev: nat, e: nat)
    requires d < |s.phases| && s.phases[d] == FreeingPrev(ev, k, prev) && BlockOk(s, e) && BlockOk(s, prev)
    ensures BlockOk(SetPhase(FreeEvent(s, prev), d, Zeroing(ev, k)), e)
  {
    PhaseHolds(s, d, prev);
    PhaseUpdate(s.phases, d, Zeroing(ev, k), e);
  }

  lemma ZeroCounted(cfg: Config, s: Bus, d: nat, ev: nat, k: nat, e: nat)
    requires d < |s.phases| && s.phases[d] == Zeroing(ev, k) && BlockOk(s, e) && BlockOk(s, ev)
    requires 2 * d + k < |cfg.retain| && cfg.retain[2 * d + k]
    ensures BlockOk(StepZero(cfg, s, d, ev, k), e)
  {
    PhaseHolds(s, d, ev);
    PhaseUpdate(s.phases, d, Retaining(ev, k), e);
  }

  lemma RetainCounted(s: Bus, d: nat, ev: nat, k: nat, e: nat)
    requires d < |s.phases| && s.phases[d] == Retaining(ev, k) && BlockOk(s, e) && BlockOk(s, ev)
    ensures BlockOk(SetPhase(SetCount(s, ev, Count(s, ev) + 1), d, Storing(ev, k)), e)
  {
    PhaseHolds(s, d, ev);
    PhaseUpdate(s.phases, d, Storing(ev, k), e);
  }

  lemma StoreCounted(s: Bus, d: nat, ev: nat, k: nat, e: nat)
    requires d < |s.phases| && s.phases[d] == Storing(ev, k) && BlockOk(s, e)
    requires 2 * d + k < |s.eps| && s.eps[2 * d + k] == Endpoint(None, 0)
    ensures BlockOk(StepStore(s, d, ev, k), e)
  {
    PhaseUpdate(s.phases, d, Locking(ev, k), e);
    EndpointUpdate(s.eps, 2 * d + k, s.eps[2 * d + k].(last := Some(ev)), e);
  }

  lemma {:induction false} OccurrencesSnoc(q: seq<nat>, x: nat, e: nat)
    ensures Occurrences(q + [x], e) == Occurrences(q, e) + (if x == e then 1 else 0)
  {
    if q == [] {
      assert q + [x] == [x] && [x][1..] == [];
    } else {
      assert (q + [x])[1..] == q[1..] + [x];
      OccurrencesSnoc(q[1..], x, e);
    }
  }

  lemma PutQueues(subs: seq<Sub>, i: nat, ev: nat, e: nat)
    requires i < |subs| && subs[i].Listed?
    ensures QueueRefs(subs[i := Listed(subs[i].queue + [ev])], e)
         == QueueRefs(subs, e) + (if ev == e then 1 else 0)
  {
    QueueUpdate(subs, i, Listed(subs[i].queue + [ev]), e);
    OccurrencesSnoc(subs[i].queue, ev, e);
  }

  lemma PutCounted(s: Bus, d: nat, ev: nat, k: nat, todo: seq<nat>, e: nat)
    requires d < |s.phases| && s.phases[d] == Queueing(ev, k, todo) && BlockOk(s, e)
    ensures BlockOk(StepPut(s, d, ev, k, todo), e)
  {
    if todo != [] && todo[0] < |s.subs| && s.subs[todo[0]].Listed? {
      PhaseUpdate(s.phases, d, Notifying(ev, k, todo[1..]), e);
      PutQueues(s.subs, todo[0], ev, e);
    }
  }

  lemma TestCounted(s: Bus, d: nat, ev: nat, k: nat, e: nat)
    requires d < |s.phases| && s.phases[d] == Testing(ev, k) && BlockOk(s, e) && BlockOk(s, ev)
    requires Refs(s, ev) > 0
    ensures BlockOk(StepTest(s, d, ev), e)
  {
    PhaseUpdate(s.phases, d, Idle, e);
  }

  lemma FreeCounted(s: Bus, d: nat, ev: nat, e: nat)
    requires d < |s.phases| && BlockOk(s, e) && BlockOk(s, ev)
    requires s.phases[d] == Failing(ev) || s.phases[d] == FreeingLast(ev)
    ensures BlockOk(StepDrop(s, d, ev), e)
    ensures BlockOk(StepFreeLast(s, d, ev), e)
  {
    PhaseHolds(s, d, ev);
    PhaseUpdate(s.phases, d, Idle, e);
  }

  lemma MutexCounted(cfg: Config, s: Bus, d: nat, e: nat)
    requires d < |s.phases| && BlockOk(s, e) && (s.phases[d].Locking? || s.phases[d].Notifying?)
    ensures BlockOk(StepAdvance(cfg, s, d), e)
  {
    PhaseUpdate(s.phases, d, StepAdvance(cfg, s, d).phases[d], e);
  }

  lemma PreviousCounted(cfg: Config, s: Bus, d: nat, e: nat)
    requires d < |s.phases| && 2 * d + 1 < |s.eps| && PhaseOk(s, d) && BlockOk(s, e) && Counted(s)
    requires s.phases[d].Loaded? || s.phases[d].Replacing? || s.phases[d].FreeingPrev?
    ensures BlockOk(StepAdvance(cfg, s, d), e)
  {
    if s.phases[d].Loaded? {
      ClearCounted(s, d, s.phases[d].ev, s.phases[d].k, e);
    } else {
      assert BlockOk(s, s.phases[d].prev);
      hide BlockOk, Counted, StepDropPrev, FreeEvent;
      if s.phases[d].Replacing? {
        DropPrevCounted(s, d, s.phases[d].ev, s.phases[d].k, s.phases[d].prev, e);
      } else {
        FreePrevCounted(s, d, s.phases[d].ev, s.phases[d].k, s.phases[d].prev, e);
      }
    }
  }

  lemma RetainingCounted(cfg: Config, s: Bus, d: nat, e: nat)
    requires d < |s.phases| && 2 * d + 1 < |s.eps| <= |cfg.retain| && PhaseOk(s, d) && BlockOk(s, e) && Counted(s)
    requires Retains(cfg) && (s.phases[d].Zeroing? || s.phases[d].Retaining?)
    ensures BlockOk(StepAdvance(cfg, s, d), e)
  {
    var ev, k := s.phases[d].ev, s.phases[d].k;
    assert BlockOk(s, ev) && k < 2 && cfg.retain[2 * d + k];
    hide BlockOk, Counted, PhaseOk, StepZero, SetCount, Retains;
    if s.phases[d].Zeroing? {
      ZeroCounted(cfg, s, d, ev, k, e);
    } else {
      RetainCounted(s, d, ev, k, e);
    }
  }

  lemma StoringCounted(cfg: Config, s: Bus, d: nat, e: nat)
    requires d < |s.phases| && 2 * d + 1 < |s.eps| && PhaseOk(s, d) && BlockOk(s, e) && s.phases[d].Storing?
    ensures BlockOk(StepAdvance(cfg, s, d), e)
  {
    var ev, k := s.phases[d].ev, s.phases[d].k;
    assert k < 2 && s.eps[2 * d + k] == Endpoint(None, 0);
    hide BlockOk, PhaseOk, StepStore;
    StoreCounted(s, d, ev, k, e);
  }

  lemma EndingCounted(cfg: Config, s: Bus, d: nat, e: nat)
    requires d < |s.phases| && 2 * d + 1 < |s.eps| && PhaseOk(s, d) && BlockOk(s, e) && Counted(s)
    requires s.phases[d].Testing? || s.phases[d].FreeingLast? || s.phases[d].Failing?
    ensures BlockOk(StepAdvance(cfg, s, d), e)
  {
    var ev := s.phases[d].ev;
    assert BlockOk(s, ev);
    if s.phases[d].Testing? {
      EndpointHolds(s, 2 * d + s.phases[d].k);
      TestCounted(s, d, ev, s.phases[d].k, e);
    } else {
      hide BlockOk, Counted, StepFreeLast, StepDrop;
      FreeCounted(s, d, ev, e);
    }
  }

  lemma AdvanceCounted(cfg: Config, s: Bus, d: nat, e: nat)
    requires Disciplined(cfg, s) && Counted(s) && Retains(cfg)
    ensures BlockOk(StepAdvance(cfg, s, d), e)
  {
    assert BlockOk(s, e);
    if d < |s.phases| {
      assert PhaseOk(s, d) && 2 * d + 1 < |s.eps| <= |cfg.retain|;
      hide BlockOk, Counted, Disciplined, PhaseOk, Retains, StepPut;
      match s.phases[d]
      case Loaded(_, _) => PreviousCounted(cfg, s, d, e);
      case Replacing(_, _, _) => PreviousCounted(cfg, s, d, e);
      case FreeingPrev(_, _, _) => PreviousCounted(cfg, s, d, e);
      case Zeroing(_, _) => RetainingCounted(cfg, s, d, e);
      case Retaining(_, _) => RetainingCounted(cfg, s, d, e);
      case Storing(_, _) => StoringCounted(cfg, s, d, e);
      case Locking(_, _) => MutexCounted(cfg, s, d, e);
      case Notifying(_, _, _) => MutexCounted(cfg, s, d, e);
      case Queueing(ev, k, todo) => PutCounted(s, d, ev, k, todo, e);
      case Testing(_, _) => EndingCounted(cfg, s, d, e);
      case FreeingLast(_) => EndingCounted(cfg, s, d, e);
      case Failing(_) => EndingCounted(cfg, s, d, e);
      case _ =>
    }
  }

  lemma TakenCounted(s: Bus, i: nat, e: nat)
    requires BlockOk(s, e) && i < |s.subs| && QueueOf(s.subs[i]) != []
    ensures BlockOk(Taken(s, i), e)
  {
    var q := s.subs[i].queue;
    QueueUpdate(s.subs, i, s.subs[i].(queue := q[1..]), e);
  }

  lemma TakeCounted(s: Bus, i: nat, e: nat)
    requires BlockOk(s, e)
    ensures BlockOk(StepTake(s, i), e)
    ensures BlockOk(StepDrain(s, i), e)
  {
    if i < |s.subs| && QueueOf(s.subs[i]) != [] {
      TakenCounted(s, i, e);
    }
  }

  lemma RefCounted(s: Bus, x: nat, e: nat)
    requires BlockOk(s, e) && BlockOk(s, x)
    ensures BlockOk(StepRef(s, x), e)
  {
  }

  lemma UnrefCounted(s: Bus, x: nat, e: nat)
    requires BlockOk(s, e) && BlockOk(s, x)
    ensures BlockOk(StepUnref(s, x), e)
  {
  }

  lemma ReapCounted(s: Bus, x: nat, e: nat)
    requires BlockOk(s, e) && BlockOk(s, x)
    ensures BlockOk(StepReap(s, x), e)
  {
  }

  /** Steps that change one subscription without changing any queue. */
  lemma SubCounted(s: Bus, s': Bus, i: nat, v: Sub, e: nat)
    requires BlockOk(s, e) && i < |s.subs| && QueueOf(v) == QueueOf(s.subs[i]) && s'.subs == s.subs[i := v]
    requires s'.blocks == s.blocks && s'.eps == s.eps && s'.phases == s.phases && s'.held == s.held && s'.dying == s.dying
    ensures BlockOk(s', e)
  {
    QueueUpdate(s.subs, i, v, e);
  }

  lemma SubBeginCounted(s: Bus, t: nat, i: nat, e: nat)
    requires BlockOk(s, e)
    ensures BlockOk(StepSubBegin(s, t, i), e)
  {
    var s' := StepSubBegin(s, t, i);
    if s'.subs != s.subs {
      SubCounted(s, s', i, Raw, e);
    }
  }

  lemma SubInitCounted(s: Bus, t: nat, i: nat, e: nat)
    requires BlockOk(s, e) && t < |s.subscribers|
    ensures BlockOk(StepSubInit(s, t, i), e)
  {
    if i < |s.subs| && (s.subs[i].Raw? || s.subs[i].Ready?) {
      SubCounted(s, StepSubInit(s, t, i), i, Ready, e);
    }
  }

  lemma SubAppendCounted(s: Bus, t: nat, i: nat, e: nat)
    requires BlockOk(s, e) && t < |s.subscribers|
    ensures BlockOk(StepSubAppend(s, t, i), e)
  {
    if s.lock.None? && i < |s.subs| && s.subs[i].Ready? {
      SubCounted(s, StepSubAppend(s, t, i), i, Listed([]), e);
    }
  }

  lemma SubAdvanceCounted(s: Bus, t: nat, e: nat)
    requires BlockOk(s, e)
    ensures BlockOk(StepSubAdvance(s, t), e)
  {
    if t < |s.subscribers| {
      match s.subscribers[t]
      case SubFresh(i) => SubInitCounted(s, t, i, e);
      case SubReady(i) => SubAppendCounted(s, t, i, e);
      case _ =>
    }
  }

  lemma UnsubscribeCounted(s: Bus, i: nat, e: nat)
    requires BlockOk(s, e)
    ensures BlockOk(StepUnsubscribe(s, i), e)
    ensures BlockOk(StepRelease(s, i), e)
  {
    if i < |s.subs| {
      QueueUpdate(s.subs, i, Draining(QueueOf(s.subs[i])), e);
      QueueUpdate(s.subs, i, NoSub, e);
    }
  }

  lemma LockCounted(s: Bus, i: nat, e: nat)
    requires i < |s.eps| && s.eps[i].last.Some?
    requires BlockOk(s, e) && BlockOk(s, s.eps[i].last.value)
    ensures BlockOk(StepLockLast(s, i), e)
  {
    EndpointHolds(s, i);
    EndpointUpdate(s.eps, i, s.eps[i].(locks := s.eps[i].locks + 1), e);
  }

  lemma KeepCounted(s: Bus, i: nat, e: nat)
    requires i < |s.eps| && s.eps[i].last.Some?
    requires BlockOk(s, e) && BlockOk(s, s.eps[i].last.value)
    ensures BlockOk(StepKeepLast(s, i), e)
  {
    EndpointHolds(s, i);
  }

  lemma UnlockCounted(s: Bus, i: nat, e: nat)
    requires i < |s.eps| && s.eps[i].last.Some? && s.eps[i].locks > 0
    requires BlockOk(s, e) && BlockOk(s, s.eps[i].last.value)
    ensures BlockOk(StepUnlockLast(s, i), e)
  {
    EndpointHolds(s, i);
    EndpointUpdate(s.eps, i, s.eps[i].(locks := s.eps[i].locks - 1), e);
  }

  lemma UnmarkedCounted(s: Bus, i: nat, locks: nat, e: nat)
    requires i < |s.eps| && s.eps[i].last.None? && BlockOk(s, e)
    ensures BlockOk(s.(eps := s.eps[i := s.eps[i].(locks := locks)]), e)
  {
    EndpointUpdate(s.eps, i, s.eps[i].(locks := locks), e);
  }

  lemma IterationCounted(s: Bus, i: nat, e: nat)
    requires Counted(s)
    ensures BlockOk(StepLockLast(s, i), e)
    ensures BlockOk(StepKeepLast(s, i), e)
    ensures BlockOk(StepUnlockLast(s, i), e)
  {
    assert BlockOk(s, e);
    if i < |s.eps| && s.eps[i].last.Some? {
      assert BlockOk(s, s.eps[i].last.value);
      LockCounted(s, i, e);
      KeepCounted(s, i, e);
      if s.eps[i].locks > 0 {
        UnlockCounted(s, i, e);
      }
    } else if i < |s.eps| {
      UnmarkedCounted(s, i, s.eps[i].locks + 1, e);
      if s.eps[i].locks > 0 {
        UnmarkedCounted(s, i, s.eps[i].locks - 1, e);
      }
    }
  }

  predicate OfProducer(a: Action) {
    a.Begin? || a.Returned? || a.Reject? || a.Accept? || a.RejectData? || a.Advance? || a.Match?
  }

  lemma ProducerCounted(cfg: Config, s: Bus, a: Action, e: nat)
    requires Disciplined(cfg, s) && Counted(s) && Retains(cfg) && OfProducer(a)
    ensures BlockOk(Step(cfg, s, a), e)
  {
    assert BlockOk(s, e);
    match a
    case Begin(d, b) => BeginCounted(s, d, b, e);
    case Returned(d) => if d < |s.phases| { assert PhaseOk(s, d); } ReturnedCounted(s, d, e);
    case Reject(d, r) => RejectCounted(s, d, r, e);
    case Accept(d, k, size) => AcceptCounted(s, d, k, size, e);
    case RejectData(d) => RejectDataCounted(s, d, e);
    case Advance(d) => AdvanceCounted(cfg, s, d, e);
    case Match(d, yes) =>
      if d < |s.phases| && s.phases[d].Notifying? {
        assert PhaseOk(s, d) && BlockOk(s, s.phases[d].ev);
        EndpointHolds(s, 2 * d + s.phases[d].k);
      }
      MatchCounted(s, d, yes, e);
  }

  lemma ConsumerCounted(cfg: Config, s: Bus, a: Action, e: nat)
    requires Counted(s) && !OfProducer(a)
    ensures BlockOk(Step(cfg, s, a), e)
  {
    assert BlockOk(s, e);
    hide BlockOk;
    hide StepTake, StepDrain, StepRef, StepUnref, StepReap, StepSubBegin, StepSubAdvance, StepUnsubscribe, StepRelease;
    hide StepLockLast, StepKeepLast, StepUnlockLast;
    match a
    case Take(i) => TakeCounted(s, i, e);
    case Drain(i) => TakeCounted(s, i, e);
    case Ref(x) => assert BlockOk(s, x); RefCounted(s, x, e);
    case Unref(x) => assert BlockOk(s, x); UnrefCounted(s, x, e);
    case Reap(x) => assert BlockOk(s, x); ReapCounted(s, x, e);
    case SubBegin(t, i) => SubBeginCounted(s, t, i, e);
    case SubAdvance(t) => SubAdvanceCounted(s, t, e);
    case Unsubscribe(i) => UnsubscribeCounted(s, i, e);
    case Release(i) => UnsubscribeCounted(s, i, e);
    case LockLast(i) => IterationCounted(s, i, e);
    case KeepLast(i) => IterationCounted(s, i, e);
    case UnlockLast(i) => IterationCounted(s, i, e);
  }

  lemma CountedStep(cfg: Config, s: Bus, a: Action)
    requires Disciplined(cfg, s) && Counted(s) && Retains(cfg)
    ensures Counted(Step(cfg, s, a))
  {
    forall e: nat
      ensures BlockOk(Step(cfg, s, a), e)
    {
      if OfProducer(a) { ProducerCounted(cfg, s, a, e); } else { ConsumerCounted(cfg, s, a, e); }
    }
  }

  // ---------------------------------------------------------------- discipline, step by step

  lemma {:induction false} WithoutKeeps(list: seq<nat>, i: nat)
    requires NoRepeat(list)
    ensures NoRepeat(Without(list, i)) && i !in Without(list, i)
    ensures forall x :: x in Without(list, i) ==> x in list
  {
    if list != [] {
      if list[0] == i {
        assert forall x :: x in list[1..] ==> exists j :: 1 <= j < |list| && list[j] == x;
      } else {
        WithoutKeeps(list[1..], i);
        assert list[0] !in list[1..];
      }
    }
  }

  lemma TailListed(subs: seq<Sub>, subs': seq<Sub>, todo: seq<nat>)
    requires AllListed(subs, todo) && todo != []
    requires |subs'| == |subs| && forall i :: 0 <= i < |subs| && subs[i].Listed? ==> subs'[i].Listed?
    ensures AllListed(subs', todo[1..])
  {
    assert forall x :: x in todo[1..] ==> x in todo;
  }

  /** A listed subscription stays listed. */
  predicate StillListed(s: Bus, s': Bus) {
    |s'.subs| == |s.subs| && forall i :: 0 <= i < |s.subs| && s.subs[i].Listed? ==> s'.subs[i].Listed?
  }

  /** A step that leaves a producer's phase and endpoints alone keeps what they say. */
  lemma OtherPhase(s: Bus, s': Bus, d: nat)
    requires d < |s.phases| && d < |s'.phases| && 2 * d + 1 < |s.eps| && |s'.eps| == |s.eps|
    requires PhaseOk(s, d) && s'.phases[d] == s.phases[d]
    requires s'.eps[2 * d] == s.eps[2 * d] && s'.eps[2 * d + 1] == s.eps[2 * d + 1]
    requires s.phases[d].Allocating? ==> s'.slot == s.slot
    requires s.lock == Some(d) ==> s'.lock == s.lock && StillListed(s, s')
    ensures PhaseOk(s', d)
  {
  }

  /** The shape of a producer's step: only its own phase and endpoints change, and the mutex only by its holder. */
  predicate OwnStep(s: Bus, s': Bus, d: nat) {
    && d < |s.phases| && |s'.phases| == |s.phases| && |s'.eps| == |s.eps| && |s'.blocks| == |s.blocks|
    && |s'.subscribers| == |s.subscribers|
    && (forall i :: 0 <= i < |s.phases| && i != d ==> s'.phases[i] == s.phases[i])
    && (forall i :: 0 <= i < |s.eps| && i / 2 != d ==> s'.eps[i] == s.eps[i])
    && (s'.lock == s.lock || s.lock == None || s.lock == Some(d))
    && StillListed(s, s')
    && s'.list == s.list
  }

  lemma OwnStepKeeps(cfg: Config, s: Bus, s': Bus, d: nat)
    requires Disciplined(cfg, s) && OwnStep(s, s', d) && PhaseOk(s', d)
    requires s'.slot == s.slot || (forall i :: 0 <= i < |s.phases| && i != d ==> !s.phases[i].Allocating?)
    requires s'.phases[d].Allocating? ==> forall i :: 0 <= i < |s.phases| && i != d ==> !s.phases[i].Allocating?
    ensures Disciplined(cfg, s')
  {
    forall i | 0 <= i < |s'.phases|
      ensures PhaseOk(s', i)
    {
      if i != d {
        assert PhaseOk(s, i);
        assert (2 * i) / 2 == i && (2 * i + 1) / 2 == i;
        OtherPhase(s, s', i);
      }
    }
  }

  lemma BeginKeeps(cfg: Config, s: Bus, d: nat, b: nat)
    requires Disciplined(cfg, s) && Serial(s, Begin(d, b)) && Calm(s, Begin(d, b))
    ensures Disciplined(cfg, StepBegin(s, d, b))
  {
    var s' := StepBegin(s, d, b);
    if d < |s.phases| {
      assert PhaseOk(s, d);
      if s'.phases != s.phases {
        OwnStepKeeps(cfg, s, s', d);
      } else {
        forall i | 0 <= i < |s'.phases| ensures PhaseOk(s', i) { assert PhaseOk(s, i); }
      }
    }
  }

  lemma MatchKeeps(cfg: Config, s: Bus, d: nat, yes: bool)
    requires Disciplined(cfg, s)
    ensures Disciplined(cfg, StepMatch(s, d, yes))
  {
    if d < |s.phases| && s.phases[d].Notifying? && s.phases[d].todo != [] {
      assert PhaseOk(s, d);
      TailListed(s.subs, s.subs, s.phases[d].todo);
      OwnStepKeeps(cfg, s, StepMatch(s, d, yes), d);
    }
  }

  /** A step that changes only blocks, counters, the mutex and the producer's own phase. */
  predicate PhaseStep(s: Bus, s': Bus, d: nat) {
    && d < |s.phases| && |s'.phases| == |s.phases| && s'.phases == s.phases[d := s'.phases[d]]
    && s'.eps == s.eps && s'.subs == s.subs && s'.list == s.list && s'.slot == s.slot
    && |s'.blocks| == |s.blocks| && !s'.phases[d].Allocating?
    && s'.subscribers == s.subscribers && s'.subSlot == s.subSlot && s'.handles == s.handles
  }

  predicate PhaseOnly(s: Bus, s': Bus, d: nat) {
    PhaseStep(s, s', d) && s'.lock == s.lock
  }

  lemma CountSteps(s: Bus, d: nat, e: nat, rc: int, p: Phase)
    requires d < |s.phases| && !p.Allocating?
    ensures PhaseOnly(s, SetPhase(SetCount(s, e, rc), d, p), d)
    ensures PhaseOnly(s, SetPhase(FreeEvent(s, e), d, p), d)
  {
  }

  lemma DropPrevPhase(s: Bus, d: nat, ev: nat, k: nat, prev: nat)
    requires d < |s.phases|
    ensures PhaseOnly(s, StepDropPrev(s, d, ev, k, prev), d)
  {
  }

  lemma EndPhase(s: Bus, d: nat, ev: nat)
    requires d < |s.phases|
    ensures PhaseOnly(s, StepTest(s, d, ev), d)
    ensures PhaseOnly(s, StepFreeLast(s, d, ev), d)
    ensures PhaseOnly(s, StepDrop(s, d, ev), d)
  {
  }

  lemma AdvancePhase(cfg: Config, s: Bus, d: nat)
    requires d < |s.phases| && !s.phases[d].Loaded? && !s.phases[d].Storing? && !s.phases[d].Queueing?
    requires !s.phases[d].Locking? && !s.phases[d].Notifying?
    ensures var s' := StepAdvance(cfg, s, d); s' == s || PhaseOnly(s, s', d)
  {
    hide Count, SetCount, FreeEvent, PhaseOnly, StepDropPrev, StepTest, StepFreeLast, StepDrop;
    match s.phases[d]
    case Replacing(ev, k, prev) => DropPrevPhase(s, d, ev, k, prev);
    case FreeingPrev(ev, k, prev) => CountSteps(s, d, prev, 0, Zeroing(ev, k));
    case Zeroing(ev, k) =>
      CountSteps(s, d, ev, 0, if 2 * d + k < |cfg.retain| && cfg.retain[2 * d + k] then Retaining(ev, k) else Locking(ev, k));
    case Retaining(ev, k) => CountSteps(s, d, ev, Count(s, ev) + 1, Storing(ev, k));
    case Testing(ev, _) => EndPhase(s, d, ev);
    case FreeingLast(ev) => EndPhase(s, d, ev);
    case Failing(ev) => EndPhase(s, d, ev);
    case _ =>
  }

  lemma AdvanceMutex(cfg: Config, s: Bus, d: nat)
    requires d < |s.phases| && (s.phases[d].Locking? || s.phases[d].Notifying?)
    ensures var s' := StepAdvance(cfg, s, d); s' == s || PhaseStep(s, s', d)
  {
  }

  lemma PhaseIsOwn(s: Bus, s': Bus, d: nat)
    requires PhaseStep(s, s', d) && (s'.lock == s.lock || s.lock == None || s.lock == Some(d))
    ensures OwnStep(s, s', d)
  {
  }

  /** The phases in which a call has not touched its endpoint yet. */
  predicate EarlyPhase(p: Phase) {
    p.Idle? || p.Fresh? || p.Failing? || (p.Loaded? && p.k < 2)
  }

  lemma ReturnedShape(s: Bus, d: nat)
    requires d < |s.phases|
    ensures var s' := StepReturned(s, d); s' == s || (PhaseStep(s, s', d) && s'.lock == s.lock && EarlyPhase(s'.phases[d]))
  {
  }

  lemma RejectShape(s: Bus, d: nat, r: Reason)
    requires d < |s.phases|
    ensures var s' := StepReject(s, d, r); s' == s || (PhaseStep(s, s', d) && s'.lock == s.lock && EarlyPhase(s'.phases[d]))
    ensures var s' := StepRejectData(s, d); s' == s || (PhaseStep(s, s', d) && s'.lock == s.lock && EarlyPhase(s'.phases[d]))
  {
    hide CountReason;
  }

  lemma AcceptShape(s: Bus, d: nat, k: nat, size: nat)
    requires d < |s.phases|
    ensures var s' := StepAccept(s, d, k, size); s' == s || (PhaseStep(s, s', d) && s'.lock == s.lock && EarlyPhase(s'.phases[d]))
  {
  }

  lemma BuildingOk(s: Bus, s': Bus, d: nat)
    requires d < |s.phases| && 2 * d + 1 < |s.eps| && PhaseOk(s, d) && !s.phases[d].Idle?
    requires PhaseStep(s, s', d) && EarlyPhase(s'.phases[d])
    ensures PhaseOk(s', d)
  {
    hide AllListed;
  }

  lemma ChooseOwn(cfg: Config, s: Bus, a: Action)
    requires (a.Returned? || a.Reject? || a.Accept? || a.RejectData?) && a.dev < |s.phases|
    ensures var s' := Step(cfg, s, a);
      s' == s || (PhaseStep(s, s', a.dev) && s'.lock == s.lock && EarlyPhase(s'.phases[a.dev]) && !s.phases[a.dev].Idle?)
  {
    hide PhaseStep, EarlyPhase;
    match a
    case Returned(d) => ReturnedShape(s, d);
    case Reject(d, r) => RejectShape(s, d, r);
    case RejectData(d) => RejectShape(s, d, NoEndpoint);
    case Accept(d, k, size) => AcceptShape(s, d, k, size);
  }

  lemma ChooseKeeps(cfg: Config, s: Bus, a: Action)
    requires Disciplined(cfg, s) && (a.Returned? || a.Reject? || a.Accept? || a.RejectData?)
    ensures Disciplined(cfg, Step(cfg, s, a))
  {
    if a.dev < |s.phases| {
      assert PhaseOk(s, a.dev);
      ChooseOwn(cfg, s, a);
      var s' := Step(cfg, s, a);
      hide Step;
      if s' != s {
        BuildingOk(s, s', a.dev);
        PhaseIsOwn(s, s', a.dev);
        OwnStepKeeps(cfg, s, s', a.dev);
      }
    }
  }

  lemma EndpointOwn(s: Bus, d: nat, ev: nat, k: nat)
    requires d < |s.phases| && k < 2
    ensures OwnStep(s, StepClear(s, d, ev, k), d) && OwnStep(s, StepStore(s, d, ev, k), d)
  {
    assert (2 * d + k) / 2 == d;
  }

  lemma AdvanceOwn(cfg: Config, s: Bus, d: nat)
    requires d < |s.phases| && 2 * d + 1 < |s.eps| && PhaseOk(s, d)
    ensures var s' := StepAdvance(cfg, s, d);
            OwnStep(s, s', d) && s'.slot == s.slot && (s'.phases[d].Allocating? ==> s.phases[d].Allocating?)
  {
    var s' := StepAdvance(cfg, s, d);
    if s.phases[d].Loaded? || s.phases[d].Storing? {
      EndpointOwn(s, d, s.phases[d].ev, s.phases[d].k);
      hide OwnStep;
    } else if s.phases[d].Queueing? {
      PutOwn(s, d, s.phases[d].ev, s.phases[d].k, s.phases[d].todo);
      hide OwnStep;
    } else if s' != s {
      if s.phases[d].Locking? || s.phases[d].Notifying? {
        AdvanceMutex(cfg, s, d);
        assert s.lock == None || s.lock == Some(d);
      } else {
        AdvancePhase(cfg, s, d);
      }
      hide StepAdvance;
      PhaseIsOwn(s, s', d);
    }
  }

  lemma PutOwn(s: Bus, d: nat, ev: nat, k: nat, todo: seq<nat>)
    requires d < |s.phases|
    ensures OwnStep(s, StepPut(s, d, ev, k, todo), d)
  {
  }

  predicate StillOk(s: Bus, d: nat) {
    d < |s.phases| && 2 * d + 1 < |s.eps| && PhaseOk(s, d)
  }

  lemma AdvanceOk(cfg: Config, s: Bus, d: nat)
    requires d < |s.phases| && 2 * d + 1 < |s.eps| && |s.eps| <= |cfg.retain| && Retains(cfg)
    requires PhaseOk(s, d) && AllListed(s.subs, s.list)
    ensures StillOk(StepAdvance(cfg, s, d), d)
  {
    hide PhaseOk, StillOk, AllListed, Retains, StepAdvance;
    if s.phases[d].Queueing? {
      PutOk(cfg, s, d);
    } else if s.phases[d].Locking? || s.phases[d].Notifying? || s.phases[d].Storing? || s.phases[d].Testing? {
      MiddleOk(cfg, s, d);
    } else if s.phases[d].Loaded? || s.phases[d].Replacing? || s.phases[d].FreeingPrev? {
      PreviousOk(cfg, s, d);
    } else if s.phases[d].Zeroing? || s.phases[d].Retaining? {
      RetainOk(cfg, s, d);
    } else {
      LastOk(cfg, s, d);
    }
  }

  lemma PutOk(cfg: Config, s: Bus, d: nat)
    requires d < |s.phases| && 2 * d + 1 < |s.eps| && PhaseOk(s, d) && s.phases[d].Queueing?
    ensures StillOk(StepAdvance(cfg, s, d), d)
  {
    assert s.phases[d].todo[0] in s.phases[d].todo;
    TailListed(s.subs, StepAdvance(cfg, s, d).subs, s.phases[d].todo);
  }

  lemma MiddleOk(cfg: Config, s: Bus, d: nat)
    requires d < |s.phases| && 2 * d + 1 < |s.eps| && PhaseOk(s, d) && AllListed(s.subs, s.list)
    requires s.phases[d].Locking? || s.phases[d].Notifying? || s.phases[d].Storing? || s.phases[d].Testing?
    ensures StillOk(StepAdvance(cfg, s, d), d)
  {
    hide AllListed, Count, SetCount, FreeEvent;
  }

  lemma PreviousOk(cfg: Config, s: Bus, d: nat)
    requires d < |s.phases| && 2 * d + 1 < |s.eps| && PhaseOk(s, d)
    requires s.phases[d].Loaded? || s.phases[d].Replacing? || s.phases[d].FreeingPrev?
    ensures StillOk(StepAdvance(cfg, s, d), d)
  {
    hide AllListed, Count;
  }

  lemma RetainOk(cfg: Config, s: Bus, d: nat)
    requires d < |s.phases| && 2 * d + 1 < |s.eps| && |s.eps| <= |cfg.retain| && Retains(cfg) && PhaseOk(s, d)
    requires s.phases[d].Zeroing? || s.phases[d].Retaining?
    ensures StillOk(StepAdvance(cfg, s, d), d)
  {
    hide AllListed, Count;
  }

  lemma LastOk(cfg: Config, s: Bus, d: nat)
    requires d < |s.phases| && 2 * d + 1 < |s.eps| && PhaseOk(s, d)
    requires s.phases[d].FreeingLast? || s.phases[d].Failing? || s.phases[d].Idle? || s.phases[d].Allocating? || s.phases[d].Fresh?
    ensures StillOk(StepAdvance(cfg, s, d), d)
  {
    hide AllListed, Count;
  }

  lemma ProducerKeeps(cfg: Config, s: Bus, a: Action)
    requires Disciplined(cfg, s) && Retains(cfg) && Serial(s, a) && Calm(s, a) && OfProducer(a)
    ensures Disciplined(cfg, Step(cfg, s, a))
  {
    match a
    case Begin(d, b) => BeginKeeps(cfg, s, d, b);
    case Match(d, yes) => MatchKeeps(cfg, s, d, yes);
    case Advance(d) =>
      if d < |s.phases| {
        assert PhaseOk(s, d);
        AdvanceOwn(cfg, s, d);
        AdvanceOk(cfg, s, d);
        OwnStepKeeps(cfg, s, StepAdvance(cfg, s, d), d);
      }
    case _ => ChooseKeeps(cfg, s, a);
  }

  predicate Quiet(a: Action) {
    a.Take? || a.Drain? || a.Ref? || a.Unref? || a.Reap? || a.KeepLast? || a.Release? || a.SubBegin?
  }

  /** A step that leaves phases, endpoints, list and mutex alone, and delists nothing. */
  predicate QuietStep(s: Bus, s': Bus) {
    && s'.phases == s.phases && s'.eps == s.eps && s'.slot == s.slot && s'.lock == s.lock && s'.list == s.list
    && |s'.blocks| == |s.blocks| && |s'.subscribers| == |s.subscribers| && StillListed(s, s')
  }

  lemma QuietShape(cfg: Config, s: Bus, a: Action)
    requires Quiet(a)
    ensures QuietStep(s, Step(cfg, s, a))
  {
    hide QuietStep, StepTake, StepDrain, StepSubBegin, StepRef, StepUnref, StepReap, StepKeepLast, StepRelease;
    match a
    case Take(i) => TakeShape(s, i);
    case Drain(i) => TakeShape(s, i);
    case SubBegin(t, i) => SubBeginShape(s, t, i);
    case Ref(e) => RefShape(s, e);
    case Unref(e) => UnrefShape(s, e);
    case Reap(e) => ReapShape(s, e);
    case KeepLast(i) => KeepShape(s, i);
    case Release(i) => ReleaseShape(s, i);
  }

  lemma TakeShape(s: Bus, i: nat)
    ensures QuietStep(s, StepTake(s, i)) && QuietStep(s, StepDrain(s, i))
  {
  }

  lemma SubBeginShape(s: Bus, t: nat, i: nat)
    ensures QuietStep(s, StepSubBegin(s, t, i))
  {
  }

  lemma RefShape(s: Bus, e: nat)
    ensures QuietStep(s, StepRef(s, e))
  {
  }

  lemma UnrefShape(s: Bus, e: nat)
    ensures QuietStep(s, StepUnref(s, e))
  {
  }

  lemma ReapShape(s: Bus, e: nat)
    ensures QuietStep(s, StepReap(s, e))
  {
  }

  lemma ReleaseShape(s: Bus, i: nat)
    ensures QuietStep(s, StepRelease(s, i))
  {
  }

  lemma KeepShape(s: Bus, i: nat)
    ensures QuietStep(s, StepKeepLast(s, i))
  {
  }

  lemma QuietKeeps(cfg: Config, s: Bus, s': Bus)
    requires Disciplined(cfg, s) && QuietStep(s, s')
    ensures Disciplined(cfg, s')
  {
    forall d | 0 <= d < |s'.phases|
      ensures PhaseOk(s', d)
    {
      assert PhaseOk(s, d);
      OtherPhase(s, s', d);
    }
  }

  lemma AppendKeeps(cfg: Config, s: Bus, t: nat, i: nat)
    requires Disciplined(cfg, s) && t < |s.subscribers| && s.lock.None? && i < |s.subs| && s.subs[i].Ready?
    ensures Disciplined(cfg, StepSubAppend(s, t, i))
  {
    var s' := StepSubAppend(s, t, i);
    assert i !in s.list;
    forall d | 0 <= d < |s.phases|
      ensures PhaseOk(s', d)
    {
      assert PhaseOk(s, d);
      OtherPhase(s, s', d);
    }
  }

  lemma ReadBackShape(s: Bus, t: nat)
    requires t < |s.subscribers| ==> !s.subscribers[t].SubReady?
    ensures QuietStep(s, StepSubAdvance(s, t))
  {
  }

  /** Reading back and initialising are quiet; listing adds a subscription that was not listed. */
  lemma SubscribeKeeps(cfg: Config, s: Bus, t: nat)
    requires Disciplined(cfg, s)
    ensures Disciplined(cfg, StepSubAdvance(s, t))
  {
    if t < |s.subscribers| && s.subscribers[t].SubReady? {
      var i := s.subscribers[t].sub;
      if s.lock.None? {
        if i < |s.subs| && s.subs[i].Ready? {
          AppendKeeps(cfg, s, t, i);
        } else {
          QuietKeeps(cfg, s, s.(fault := true));
        }
      }
    } else {
      ReadBackShape(s, t);
      QuietKeeps(cfg, s, StepSubAdvance(s, t));
    }
    hide Disciplined;
  }

  lemma UnsubscribeKeeps(cfg: Config, s: Bus, i: nat)
    requires Disciplined(cfg, s)
    ensures Disciplined(cfg, StepUnsubscribe(s, i))
  {
    WithoutKeeps(s.list, i);
    forall d | 0 <= d < |s.phases|
      ensures PhaseOk(StepUnsubscribe(s, i), d)
    {
      assert PhaseOk(s, d);
      OtherPhase(s, StepUnsubscribe(s, i), d);
    }
  }

  /** Device iteration touches the endpoints of a device whose thread is idle. */
  predicate LockStep(s: Bus, s': Bus, d: nat) {
    && d < |s.phases| && s.phases[d].Idle? && s'.phases == s.phases
    && |s'.eps| == |s.eps| && (forall i :: 0 <= i < |s.eps| && i / 2 != d ==> s'.eps[i] == s.eps[i])
    && s'.slot == s.slot && s'.lock == s.lock && s'.list == s.list && s'.subs == s.subs && |s'.blocks| == |s.blocks|
    && s'.subscribers == s.subscribers
  }

  lemma LockShape(cfg: Config, s: Bus, i: nat)
    requires Disciplined(cfg, s)
    ensures Calm(s, LockLast(i)) ==> StepLockLast(s, i) == s || LockStep(s, StepLockLast(s, i), i / 2)
    ensures StepUnlockLast(s, i) == s || LockStep(s, StepUnlockLast(s, i), i / 2)
  {
    if i < |s.eps| {
      assert i == 2 * (i / 2) || i == 2 * (i / 2) + 1;
      assert PhaseOk(s, i / 2);
    }
  }

  lemma LockKeeps(cfg: Config, s: Bus, s': Bus, d0: nat)
    requires Disciplined(cfg, s) && LockStep(s, s', d0)
    ensures Disciplined(cfg, s')
  {
    forall d | 0 <= d < |s'.phases|
      ensures PhaseOk(s', d)
    {
      assert PhaseOk(s, d);
      if d != d0 {
        assert (2 * d) / 2 == d && (2 * d + 1) / 2 == d;
        OtherPhase(s, s', d);
      }
    }
  }

  lemma ConsumerKeeps(cfg: Config, s: Bus, a: Action)
    requires Disciplined(cfg, s) && !OfProducer(a) && Calm(s, a)
    ensures Disciplined(cfg, Step(cfg, s, a))
  {
    var s' := Step(cfg, s, a);
    hide Disciplined, StepSubAdvance, StepUnsubscribe, StepLockLast, StepUnlockLast;
    match a
    case SubAdvance(t) => SubscribeKeeps(cfg, s, t);
    case Unsubscribe(i) => UnsubscribeKeeps(cfg, s, i);
    case LockLast(i) => LockShape(cfg, s, i); if s' != s { LockKeeps(cfg, s, s', i / 2); }
    case UnlockLast(i) => LockShape(cfg, s, i); if s' != s { LockKeeps(cfg, s, s', i / 2); }
    case _ => QuietShape(cfg, s, a); QuietKeeps(cfg, s, s');
  }

  // ---------------------------------------------------------------- subscriptions, step by step

  /** A step that does not concern subscribing: at most the queues of subscriptions change. */
  predicate SubsAlone(s: Bus, s': Bus) {
    && s'.subscribers == s.subscribers && s'.subSlot == s.subSlot && s'.handles == s.handles && |s'.subs| == |s.subs|
    && forall i :: 0 <= i < |s.subs| ==>
         && s'.subs[i].Raw? == s.subs[i].Raw? && s'.subs[i].Ready? == s.subs[i].Ready?
         && s'.subs[i].Listed? == s.subs[i].Listed?
  }

  lemma AloneKeeps(s: Bus, s': Bus)
    requires Subscribed(s) && SubsAlone(s, s')
    ensures Subscribed(s')
  {
    forall t | 0 <= t < |s'.subscribers|
      ensures SubscriberOk(s', t)
    {
      assert SubscriberOk(s, t);
    }
  }

  predicate OfSubscriber(a: Action) {
    a.SubBegin? || a.SubAdvance? || a.Unsubscribe?
  }

  lemma PrimitiveAlone(s: Bus, e: nat, rc: int)
    ensures SubsAlone(s, SetCount(s, e, rc)) && SubsAlone(s, FreeEvent(s, e)) && SubsAlone(s, Dropped(s, e))
  {
  }

  lemma PhaseAlone(s: Bus, s': Bus, d: nat)
    requires PhaseStep(s, s', d)
    ensures SubsAlone(s, s')
  {
  }

  lemma EndpointAlone(s: Bus, d: nat, ev: nat, k: nat, todo: seq<nat>)
    requires d < |s.phases|
    ensures SubsAlone(s, StepClear(s, d, ev, k)) && SubsAlone(s, StepStore(s, d, ev, k)) && SubsAlone(s, StepPut(s, d, ev, k, todo))
  {
  }

  lemma AdvanceAlone(cfg: Config, s: Bus, d: nat)
    ensures SubsAlone(s, StepAdvance(cfg, s, d))
  {
    var s' := StepAdvance(cfg, s, d);
    if d < |s.phases| && s' != s {
      if s.phases[d].Loaded? || s.phases[d].Storing? {
        EndpointAlone(s, d, s.phases[d].ev, s.phases[d].k, []);
      } else if s.phases[d].Queueing? {
        EndpointAlone(s, d, s.phases[d].ev, s.phases[d].k, s.phases[d].todo);
      } else {
        if s.phases[d].Locking? || s.phases[d].Notifying? { AdvanceMutex(cfg, s, d); } else { AdvancePhase(cfg, s, d); }
        hide StepAdvance;
        PhaseAlone(s, s', d);
      }
    }
    hide SubsAlone;
    SameAlone(s);
  }

  lemma CountingAlone(cfg: Config, s: Bus, a: Action)
    requires a.Match? || a.Ref? || a.Unref? || a.Reap? || a.LockLast? || a.KeepLast? || a.UnlockLast?
    ensures SubsAlone(s, Step(cfg, s, a))
  {
    hide SetCount, FreeEvent, Count, SubsAlone;
    match a
    case Match(d, _) => if d < |s.phases| && s.phases[d].Notifying? { MatchAlone(s, d, a.yes); } else { SameAlone(s); }
    case Ref(e) => RefAlone(s, e);
    case Unref(e) => UnrefAlone(s, e);
    case Reap(e) => ReapAlone(s, e);
    case LockLast(i) => LockAlone(s, i);
    case KeepLast(i) => LockAlone(s, i);
    case UnlockLast(i) => LockAlone(s, i);
  }

  lemma SameAlone(s: Bus)
    ensures SubsAlone(s, s)
  {
  }

  lemma MatchAlone(s: Bus, d: nat, yes: bool)
    requires d < |s.phases| && s.phases[d].Notifying?
    ensures SubsAlone(s, StepMatch(s, d, yes))
  {
    PrimitiveAlone(s, s.phases[d].ev, Count(s, s.phases[d].ev) + 1);
    hide SetCount, Count;
  }

  lemma RefAlone(s: Bus, e: nat)
    ensures SubsAlone(s, StepRef(s, e))
  {
  }

  lemma UnrefAlone(s: Bus, e: nat)
    ensures SubsAlone(s, StepUnref(s, e))
  {
  }

  lemma ReapAlone(s: Bus, e: nat)
    ensures SubsAlone(s, StepReap(s, e))
  {
  }

  lemma LockAlone(s: Bus, i: nat)
    ensures SubsAlone(s, StepLockLast(s, i)) && SubsAlone(s, StepKeepLast(s, i)) && SubsAlone(s, StepUnlockLast(s, i))
  {
    if i < |s.eps| && s.eps[i].last.Some? {
      var e := s.eps[i].last.value;
      PrimitiveAlone(s, e, Count(s, e) + 1);
      CarryAlone(s, SetCount(s, e, Count(s, e) + 1), StepLockLast(s, i));
      CarryAlone(s, SetCount(s, e, Count(s, e) + 1), if s.eps[i].locks > 0 then StepKeepLast(s, i) else StepLockLast(s, i));
      CarryAlone(s, Dropped(s, e), if s.eps[i].locks > 0 then StepUnlockLast(s, i) else Dropped(s, e));
      hide SubsAlone, SetCount, Dropped;
      SameAlone(s);
    } else {
      hide SetCount;
    }
  }

  lemma CarryAlone(s: Bus, m: Bus, s': Bus)
    requires SubsAlone(s, m) && s'.subs == m.subs && s'.subscribers == m.subscribers && s'.subSlot == m.subSlot && s'.handles == m.handles
    ensures SubsAlone(s, s')
  {
  }

  lemma BuildAlone(cfg: Config, s: Bus, a: Action)
    requires a.Begin? || a.Returned? || a.Reject? || a.Accept? || a.RejectData?
    ensures SubsAlone(s, Step(cfg, s, a))
  {
  }

  lemma QueueAlone(s: Bus, i: nat)
    ensures SubsAlone(s, StepTake(s, i)) && SubsAlone(s, StepDrain(s, i)) && SubsAlone(s, StepRelease(s, i))
  {
  }

  lemma StepAlone(cfg: Config, s: Bus, a: Action)
    requires !OfSubscriber(a)
    ensures SubsAlone(s, Step(cfg, s, a))
  {
    if a.Begin? || a.Returned? || a.Reject? || a.Accept? || a.RejectData? {
      BuildAlone(cfg, s, a);
    } else if a.Match? || a.Ref? || a.Unref? || a.Reap? || a.LockLast? || a.KeepLast? || a.UnlockLast? {
      CountingAlone(cfg, s, a);
    } else {
      hide SubsAlone, StepAdvance, StepTake, StepDrain, StepRelease;
      match a
      case Advance(d) => AdvanceAlone(cfg, s, d);
      case Take(i) => QueueAlone(s, i);
      case Drain(i) => QueueAlone(s, i);
      case Release(i) => QueueAlone(s, i);
    }
  }

  lemma SubBeginSubscribed(s: Bus, t: nat, i: nat)
    requires Subscribed(s) && SerialSub(s, SubBegin(t, i))
    ensures Subscribed(StepSubBegin(s, t, i))
  {
    var s' := StepSubBegin(s, t, i);
    forall u | 0 <= u < |s'.subscribers|
      ensures SubscriberOk(s', u)
    {
      assert SubscriberOk(s, u);
    }
    forall u | 0 <= u < |s.subscribers| && u != t
      ensures HeldBy(s.subscribers[u]) != Some(i) || i >= |s.subs| || !s.subs[i].NoSub?
    {
      assert SubscriberOk(s, u);
    }
  }

  /** Replacing one thread's block by the same or none keeps the threads apart. */
  lemma StillApart(ps: seq<Subscriber>, t: nat, p: Subscriber)
    requires t < |ps| && Apart(ps) && !p.SubAllocating? && (HeldBy(p).Some? ==> HeldBy(p) == HeldBy(ps[t]))
    ensures Apart(ps[t := p])
  {
  }

  lemma SubAdvanceSubscribed(s: Bus, t: nat)
    requires Subscribed(s)
    ensures Subscribed(StepSubAdvance(s, t))
  {
    if t < |s.subscribers| {
      var s' := StepSubAdvance(s, t);
      assert SubscriberOk(s, t);
      if s'.subscribers != s.subscribers {
        StillApart(s.subscribers, t, s'.subscribers[t]);
      }
      forall u | 0 <= u < |s'.subscribers|
        ensures SubscriberOk(s', u)
      {
        assert SubscriberOk(s, u);
      }
    }
  }

  lemma UnsubscribeSubscribed(s: Bus, i: nat)
    requires Subscribed(s)
    ensures Subscribed(StepUnsubscribe(s, i))
  {
    forall t | 0 <= t < |s.subscribers|
      ensures SubscriberOk(StepUnsubscribe(s, i), t)
    {
      assert SubscriberOk(s, t);
    }
  }

  lemma SubscribedStep(cfg: Config, s: Bus, a: Action)
    requires Subscribed(s) && SerialSub(s, a)
    ensures Subscribed(Step(cfg, s, a))
  {
    hide Subscribed, StepSubBegin, StepSubAdvance, StepUnsubscribe;
    match a
    case SubBegin(t, i) => SubBeginSubscribed(s, t, i);
    case SubAdvance(t) => SubAdvanceSubscribed(s, t);
    case Unsubscribe(i) => UnsubscribeSubscribed(s, i);
    case _ => StepAlone(cfg, s, a); AloneKeeps(s, Step(cfg, s, a));
  }

  // ---------------------------------------------------------------- no fault

  /** Every event a producer's next step reads, counts or frees is live, and what it frees has count 0. */
  lemma AdvanceNoFault(cfg: Config, s: Bus, d: nat)
    requires Inv(cfg, s) && d < |s.phases|
    ensures !StepAdvance(cfg, s, d).fault
  {
    assert PhaseOk(s, d);
    match s.phases[d]
    case Replacing(_, _, prev) => assert BlockOk(s, prev); PhaseHolds(s, d, prev);
    case FreeingPrev(_, _, prev) => assert BlockOk(s, prev); PhaseHolds(s, d, prev);
    case Zeroing(ev, _) => assert BlockOk(s, ev); PhaseHolds(s, d, ev);
    case Retaining(ev, _) => assert BlockOk(s, ev); PhaseHolds(s, d, ev);
    case Queueing(_, _, todo) => assert todo[0] in todo;
    case Testing(ev, k) => assert BlockOk(s, ev); EndpointHolds(s, 2 * d + k);
    case FreeingLast(ev) => assert BlockOk(s, ev); PhaseHolds(s, d, ev);
    case Failing(ev) => assert BlockOk(s, ev); PhaseHolds(s, d, ev);
    case _ =>
  }

  lemma SubscriberNoFault(s: Bus, t: nat)
    requires Subscribed(s) && !s.fault
    ensures !StepSubAdvance(s, t).fault
  {
    if t < |s.subscribers| {
      assert SubscriberOk(s, t);
    }
  }

  lemma HandleNoFault(s: Bus, i: nat)
    requires Subscribed(s) && !s.fault
    ensures !StepTake(s, i).fault && !StepUnsubscribe(s, i).fault
  {
    assert i in s.handles ==> s.handles[i] > 0;
  }

  lemma AcceptNoFault(cfg: Config, s: Bus, d: nat, k: nat, size: nat)
    requires Inv(cfg, s)
    ensures !StepAccept(s, d, k, size).fault
  {
    if d < |s.phases| && s.phases[d].Fresh? {
      assert BlockOk(s, s.phases[d].ev);
      PhaseHolds(s, d, s.phases[d].ev);
    }
  }

  lemma MatchNoFault(cfg: Config, s: Bus, d: nat, yes: bool)
    requires Inv(cfg, s)
    ensures !StepMatch(s, d, yes).fault
  {
    if d < |s.phases| && s.phases[d].Notifying? {
      assert PhaseOk(s, d) && BlockOk(s, s.phases[d].ev);
      EndpointHolds(s, 2 * d + s.phases[d].k);
    }
  }

  lemma ConsumerNoFault(s: Bus, e: nat)
    requires Counted(s) && !s.fault
    ensures !StepRef(s, e).fault && !StepUnref(s, e).fault && !StepReap(s, e).fault
  {
    assert BlockOk(s, e);
  }

  lemma IterationNoFault(s: Bus, i: nat)
    requires Counted(s) && !s.fault
    ensures !StepLockLast(s, i).fault && !StepKeepLast(s, i).fault && !StepUnlockLast(s, i).fault
  {
    LastLive(s, i);
    hide Counted;
  }

  lemma NoFaultStep(cfg: Config, s: Bus, a: Action)
    requires Inv(cfg, s)
    ensures !Step(cfg, s, a).fault
  {
    assert !s.fault && Counted(s) && Subscribed(s);
    hide Inv, Counted, Subscribed, StepAdvance, StepAccept, StepMatch, StepRef, StepUnref, StepReap, StepTake;
    hide StepSubAdvance, StepUnsubscribe, StepLockLast, StepKeepLast, StepUnlockLast;
    match a
    case Advance(d) => if d < |s.phases| { AdvanceNoFault(cfg, s, d); } else { OutOfRange(cfg, s, d); }
    case Accept(d, k, size) => AcceptNoFault(cfg, s, d, k, size);
    case Match(d, yes) => MatchNoFault(cfg, s, d, yes);
    case Take(i) => HandleNoFault(s, i);
    case Unsubscribe(i) => HandleNoFault(s, i);
    case SubAdvance(t) => SubscriberNoFault(s, t);
    case Ref(e) => ConsumerNoFault(s, e);
    case Unref(e) => ConsumerNoFault(s, e);
    case Reap(e) => ConsumerNoFault(s, e);
    case LockLast(i) => IterationNoFault(s, i);
    case KeepLast(i) => IterationNoFault(s, i);
    case UnlockLast(i) => IterationNoFault(s, i);
    case _ =>
  }

  lemma OutOfRange(cfg: Config, s: Bus, d: nat)
    requires d >= |s.phases|
    ensures StepAdvance(cfg, s, d) == s
  {
  }

  lemma LastLive(s: Bus, i: nat)
    requires Counted(s)
    ensures i < |s.eps| && s.eps[i].last.Some? ==> At(s.blocks, s.eps[i].last.value).Live?
  {
    if i < |s.eps| && s.eps[i].last.Some? {
      assert BlockOk(s, s.eps[i].last.value);
      EndpointHolds(s, i);
    }
  }

  lemma StepKeeps(cfg: Config, s: Bus, a: Action)
    requires Inv(cfg, s) && Retains(cfg) && Obeys(ALL, s, a)
    ensures Inv(cfg, Step(cfg, s, a))
  {
    CountedStep(cfg, s, a);
    NoFaultStep(cfg, s, a);
    SubscribedStep(cfg, s, a);
    hide Counted, Disciplined, Subscribed, Step;
    if OfProducer(a) { ProducerKeeps(cfg, s, a); } else { ConsumerKeeps(cfg, s, a); }
  }

  lemma {:induction false} RunKeeps(cfg: Config, s: Bus, acts: seq<Action>)
    requires Inv(cfg, s) && Retains(cfg) && ObeyingRun(ALL, cfg, s, acts)
    ensures Inv(cfg, Run(cfg, s, acts))
    decreases |acts|
  {
    if acts != [] {
      StepKeeps(cfg, s, acts[0]);
      RunKeeps(cfg, Step(cfg, s, acts[0]), acts[1..]);
    }
  }

  // ---------------------------------------------------------------- main results

  lemma {:induction false} NothingHeld(n: nat, m: nat, k: nat, e: nat)
    ensures EndpointRefs(seq(n, _ => Endpoint(None, 0)), e) == 0
    ensures QueueRefs(seq(m, _ => NoSub), e) == 0
    ensures ProducerRefs(seq(k, _ => Idle), e) == 0 && ProducerOwns(seq(k, _ => Idle), e) == 0
    decreases n + m + k
  {
    if n > 0 {
      assert seq(n, _ => Endpoint(None, 0))[1..] == seq(n - 1, _ => Endpoint(None, 0));
      NothingHeld(n - 1, m, k, e);
    } else if m > 0 {
      assert seq(m, _ => NoSub)[1..] == seq(m - 1, _ => NoSub);
      NothingHeld(n, m - 1, k, e);
    } else if k > 0 {
      assert seq(k, _ => Idle)[1..] == seq(k - 1, _ => Idle);
      NothingHeld(n, m, k - 1, e);
    }
  }

  lemma StartOk(cfg: Config)
    ensures Inv(cfg, Start(cfg))
  {
    forall e: nat
      ensures BlockOk(Start(cfg), e)
    {
      NothingHeld(2 * cfg.devices, cfg.maxSubs, cfg.devices, e);
    }
  }

  /**
   In every interleaving that keeps to the rules, when every endpoint retains its
   last event: no step touches a freed event or subscription, frees twice, frees a
   referenced event or lists a subscription twice; each count is the number of
   references; a block is free exactly when nobody refers to it and no thread is
   building or freeing it; a subscription is on the list exactly while somebody
   has its handle, and then one does.
   */
  lemma OwnershipSafety(cfg: Config, acts: seq<Action>)
    requires Retains(cfg) && ObeyingRun(ALL, cfg, Start(cfg), acts)
    ensures var s := Run(cfg, Start(cfg), acts);
            && !s.fault
            && (forall e: nat :: At(s.blocks, e).Live? ==> s.blocks[e].rc == Refs(s, e))
            && (forall e: nat :: At(s.blocks, e).Unused? <==> Refs(s, e) == 0 && Owns(s, e) == 0)
            && (forall e: nat :: Owns(s, e) <= 1)
            && (forall i: nat :: s.handles[i] == if i < |s.subs| && s.subs[i].Listed? then 1 else 0)
  {
    StartOk(cfg);
    RunKeeps(cfg, Start(cfg), acts);
    var s := Run(cfg, Start(cfg), acts);
    forall e: nat
      ensures At(s.blocks, e).Live? ==> s.blocks[e].rc == Refs(s, e)
      ensures At(s.blocks, e).Unused? <==> Refs(s, e) == 0 && Owns(s, e) == 0
      ensures Owns(s, e) <= 1
    {
      assert BlockOk(s, e);
    }
  }
}
