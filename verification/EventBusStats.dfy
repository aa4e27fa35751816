/**
 What the event counters of `struct ha_stats` are due to hold. The bus keeps the
 sum of all updates that its steps have called for; here these sums are tied to
 the state of the bus. EventBusCounters says when the counters hold them.
 */
module EventBusStats {
  import opened Common
  import opened EventBus
  import opened EventBusSafety

  /** Processing calls that have been counted neither as processed nor as dropped yet. */
  function InProgress(phases: seq<Phase>): nat {
    if phases == [] then 0 else Pending(phases[0]) + InProgress(phases[1..])
  }

  function Pending(p: Phase): nat {
    if p.Idle? || p.Testing? || p.FreeingLast? then 0 else 1
  }

  /** Calls whose reason has been counted and whose drop has not. */
  function Dropping(phases: seq<Phase>): nat {
    if phases == [] then 0 else (if phases[0].Failing? then 1 else 0) + Dropping(phases[1..])
  }

  function LiveEvents(blocks: seq<Block>): nat {
    if blocks == [] then 0 else (if blocks[0].Live? then 1 else 0) + LiveEvents(blocks[1..])
  }

  function Reasons(st: Stats): nat {
    st.noMem + st.noEp + st.badEp + st.badSize + st.noDataMem + st.ingest
  }

  predicate CallsBalance(s: Bus) {
    && s.stats.calls == s.stats.ev + s.stats.dropped + InProgress(s.phases)
    && Reasons(s.stats) == s.stats.dropped + Dropping(s.phases)
  }

  predicate EventsBalance(cfg: Config, s: Bus) {
    && s.stats.evCount == LiveEvents(s.blocks)
    && s.stats.evCount + s.stats.evRemaining == cfg.pool
  }

  lemma {:induction false} PhaseChange(phases: seq<Phase>, d: nat, p: Phase)
    requires d < |phases|
    ensures InProgress(phases[d := p]) == InProgress(phases) - Pending(phases[d]) + Pending(p)
    ensures Dropping(phases[d := p])
         == Dropping(phases) - (if phases[d].Failing? then 1 else 0) + (if p.Failing? then 1 else 0)
  {
    if d == 0 {
      assert phases[d := p][1..] == phases[1..];
    } else {
      assert phases[d := p][1..] == phases[1..][d - 1 := p];
      PhaseChange(phases[1..], d - 1, p);
    }
  }

  lemma {:induction false} BlockChange(blocks: seq<Block>, e: nat, b: Block)
    requires e < |blocks|
    ensures LiveEvents(blocks[e := b])
         == LiveEvents(blocks) - (if blocks[e].Live? then 1 else 0) + (if b.Live? then 1 else 0)
  {
    if e == 0 {
      assert blocks[e := b][1..] == blocks[1..];
    } else {
      assert blocks[e := b][1..] == blocks[1..][e - 1 := b];
      BlockChange(blocks[1..], e - 1, b);
    }
  }

  predicate SameLive(blocks: seq<Block>, blocks': seq<Block>) {
    |blocks'| == |blocks| && forall e :: 0 <= e < |blocks| ==> blocks'[e].Live? == blocks[e].Live?
  }

  lemma {:induction false} SameLiveEvents(blocks: seq<Block>, blocks': seq<Block>)
    requires SameLive(blocks, blocks')
    ensures LiveEvents(blocks') == LiveEvents(blocks)
  {
    if blocks != [] {
      assert forall e :: 0 <= e < |blocks| - 1 ==> blocks[1..][e] == blocks[e + 1] && blocks'[1..][e] == blocks'[e + 1];
      SameLiveEvents(blocks[1..], blocks'[1..]);
    }
  }

  // ---------------------------------------------------------------- steps that count neither calls nor events

  predicate SameCounters(st: Stats, st': Stats) {
    && st'.calls == st.calls && st'.ev == st.ev && st'.dropped == st.dropped && Reasons(st') == Reasons(st)
    && st'.evCount == st.evCount && st'.evRemaining == st.evRemaining
  }

  predicate Unmoved(s: Bus, s': Bus) {
    SameCounters(s.stats, s'.stats) && SameLive(s.blocks, s'.blocks)
  }

  lemma UnmovedKeeps(cfg: Config, s: Bus, s': Bus)
    requires Unmoved(s, s') && s'.phases == s.phases && CallsBalance(s) && EventsBalance(cfg, s)
    ensures CallsBalance(s') && EventsBalance(cfg, s')
  {
    SameLiveEvents(s.blocks, s'.blocks);
  }

  lemma PrimitiveMoves(s: Bus, e: nat, rc: int)
    ensures Unmoved(s, SetCount(s, e, rc)) && SetCount(s, e, rc).phases == s.phases
    ensures Unmoved(s, Dropped(s, e)) && Dropped(s, e).phases == s.phases
  {
  }

  lemma QueueMoves(s: Bus, i: nat)
    ensures Unmoved(s, StepTake(s, i)) && StepTake(s, i).phases == s.phases
    ensures Unmoved(s, StepDrain(s, i)) && StepDrain(s, i).phases == s.phases
  {
  }

  lemma SubscribeMoves(s: Bus, t: nat, i: nat)
    ensures Unmoved(s, StepSubBegin(s, t, i)) && StepSubBegin(s, t, i).phases == s.phases
    ensures Unmoved(s, StepSubAdvance(s, t)) && StepSubAdvance(s, t).phases == s.phases
  {
  }

  lemma UnsubscribeMoves(s: Bus, i: nat)
    ensures Unmoved(s, StepUnsubscribe(s, i)) && StepUnsubscribe(s, i).phases == s.phases
    ensures Unmoved(s, StepRelease(s, i)) && StepRelease(s, i).phases == s.phases
  {
  }

  lemma ReferenceMoves(s: Bus, e: nat)
    ensures Unmoved(s, StepRef(s, e)) && StepRef(s, e).phases == s.phases
    ensures Unmoved(s, StepUnref(s, e)) && StepUnref(s, e).phases == s.phases
  {
    PrimitiveMoves(s, e, Count(s, e) + 1);
    hide Count, SetCount, Dropped;
  }

  lemma IterationMoves(s: Bus, i: nat)
    ensures Unmoved(s, StepLockLast(s, i)) && StepLockLast(s, i).phases == s.phases
    ensures Unmoved(s, StepKeepLast(s, i)) && StepKeepLast(s, i).phases == s.phases
    ensures Unmoved(s, StepUnlockLast(s, i)) && StepUnlockLast(s, i).phases == s.phases
  {
    if i < |s.eps| && s.eps[i].last.Some? {
      var e := s.eps[i].last.value;
      PrimitiveMoves(s, e, Count(s, e) + 1);
    }
    hide Count, SetCount, Dropped;
  }

  lemma ConsumerMoves(cfg: Config, s: Bus, a: Action)
    requires !OfProducer(a) && !a.Reap?
    ensures Unmoved(s, Step(cfg, s, a)) && Step(cfg, s, a).phases == s.phases
  {
    hide Unmoved, StepTake, StepDrain, StepRef, StepUnref, StepSubBegin, StepSubAdvance, StepUnsubscribe, StepRelease;
    hide StepLockLast, StepKeepLast, StepUnlockLast;
    match a
    case Take(i) => QueueMoves(s, i);
    case Drain(i) => QueueMoves(s, i);
    case Ref(e) => ReferenceMoves(s, e);
    case Unref(e) => ReferenceMoves(s, e);
    case SubBegin(t, i) => SubscribeMoves(s, t, i);
    case SubAdvance(t) => SubscribeMoves(s, t, 0);
    case Unsubscribe(i) => UnsubscribeMoves(s, i);
    case Release(i) => UnsubscribeMoves(s, i);
    case LockLast(i) => IterationMoves(s, i);
    case KeepLast(i) => IterationMoves(s, i);
    case UnlockLast(i) => IterationMoves(s, i);
  }

  lemma FreeBalance(cfg: Config, s: Bus, e: nat)
    requires CallsBalance(s) && EventsBalance(cfg, s)
    ensures CallsBalance(FreeEvent(s, e)) && EventsBalance(cfg, FreeEvent(s, e)) && FreeEvent(s, e).phases == s.phases
  {
    if e < |s.blocks| {
      BlockChange(s.blocks, e, Unused);
    }
  }

  // ---------------------------------------------------------------- producer steps

  /** A step of one device's thread that keeps its call pending, or not pending. */
  predicate Middle(s: Bus, s': Bus, d: nat) {
    && Unmoved(s, s') && d < |s.phases| && |s'.phases| == |s.phases| && s'.phases == s.phases[d := s'.phases[d]]
    && Pending(s'.phases[d]) == Pending(s.phases[d]) && s'.phases[d].Failing? == s.phases[d].Failing?
  }

  lemma MiddleKeeps(cfg: Config, s: Bus, s': Bus, d: nat)
    requires Middle(s, s', d) && CallsBalance(s) && EventsBalance(cfg, s)
    ensures CallsBalance(s') && EventsBalance(cfg, s')
  {
    PhaseChange(s.phases, d, s'.phases[d]);
    SameLiveEvents(s.blocks, s'.blocks);
  }

  lemma BeginBalance(cfg: Config, s: Bus, d: nat, b: nat)
    requires CallsBalance(s) && EventsBalance(cfg, s)
    ensures CallsBalance(StepBegin(s, d, b)) && EventsBalance(cfg, StepBegin(s, d, b))
  {
    if d < |s.phases| {
      PhaseChange(s.phases, d, Allocating(Some(b)));
      PhaseChange(s.phases, d, Allocating(None));
    }
    if b < |s.blocks| {
      BlockChange(s.blocks, b, Live(0, 0, d));
    }
  }

  lemma ReturnedBalance(cfg: Config, s: Bus, d: nat)
    requires CallsBalance(s) && EventsBalance(cfg, s)
    ensures CallsBalance(StepReturned(s, d)) && EventsBalance(cfg, StepReturned(s, d))
  {
    if d < |s.phases| {
      PhaseChange(s.phases, d, if s.slot.Some? then Fresh(s.slot.value) else Idle);
    }
  }

  lemma ReasonCounted(st: Stats, r: Reason)
    ensures Reasons(CountReason(st, r)) == Reasons(st) + 1
    ensures SameCounters(st.(noMem := st.noMem + 1), CountReason(st, r))
  {
  }

  lemma RejectBalance(cfg: Config, s: Bus, d: nat, r: Reason)
    requires CallsBalance(s) && EventsBalance(cfg, s)
    ensures CallsBalance(StepReject(s, d, r)) && EventsBalance(cfg, StepReject(s, d, r))
    ensures CallsBalance(StepRejectData(s, d)) && EventsBalance(cfg, StepRejectData(s, d))
  {
    if d < |s.phases| && (s.phases[d].Fresh? || s.phases[d].Loaded?) {
      PhaseChange(s.phases, d, Failing(s.phases[d].ev));
      ReasonCounted(s.stats, r);
      ReasonCounted(s.stats, IngestFailed);
    }
    hide CountReason;
  }

  lemma AcceptMiddle(s: Bus, d: nat, k: nat, size: nat)
    ensures var s' := StepAccept(s, d, k, size); Middle(s, s', d) || (s'.phases == s.phases && Unmoved(s, s'))
  {
  }

  lemma MatchMiddle(s: Bus, d: nat, yes: bool)
    ensures var s' := StepMatch(s, d, yes); Middle(s, s', d) || (s'.phases == s.phases && Unmoved(s, s'))
  {
    if d < |s.phases| && s.phases[d].Notifying? && s.phases[d].todo != [] {
      PrimitiveMoves(s, s.phases[d].ev, Count(s, s.phases[d].ev) + 1);
      hide SetCount, Count;
    }
  }

  lemma EndpointMiddle(s: Bus, d: nat, ev: nat, k: nat)
    requires d < |s.phases|
    ensures s.phases[d].Loaded? ==> var s' := StepClear(s, d, ev, k); Middle(s, s', d) || s' == s
    ensures s.phases[d].Storing? ==> var s' := StepStore(s, d, ev, k); Middle(s, s', d) || s' == s
  {
  }

  lemma PutMiddle(s: Bus, d: nat, ev: nat, k: nat, todo: seq<nat>)
    requires d < |s.phases| && s.phases[d].Queueing?
    ensures var s' := StepPut(s, d, ev, k, todo); Middle(s, s', d) || (s'.phases == s.phases && Unmoved(s, s'))
  {
  }

  lemma CountMiddle(s: Bus, d: nat, e: nat, rc: int, p: Phase)
    requires d < |s.phases| && Pending(p) == Pending(s.phases[d]) && !p.Failing? && !s.phases[d].Failing?
    ensures Middle(s, SetPhase(SetCount(s, e, rc), d, p), d)
    ensures Middle(s, SetPhase(SetCount(ForgetData(s, e), e, rc), d, p), d)
  {
  }

  lemma FreePrevBalance(cfg: Config, s: Bus, d: nat, ev: nat, k: nat, prev: nat)
    requires CallsBalance(s) && EventsBalance(cfg, s) && d < |s.phases| && s.phases[d] == FreeingPrev(ev, k, prev)
    ensures var s' := SetPhase(FreeEvent(s, prev), d, Zeroing(ev, k)); CallsBalance(s') && EventsBalance(cfg, s')
  {
    FreeBalance(cfg, s, prev);
    hide FreeEvent;
    MiddleKeeps(cfg, FreeEvent(s, prev), SetPhase(FreeEvent(s, prev), d, Zeroing(ev, k)), d);
  }

  lemma MutexBalance(cfg: Config, s: Bus, d: nat)
    requires CallsBalance(s) && EventsBalance(cfg, s) && d < |s.phases| && (s.phases[d].Locking? || s.phases[d].Notifying?)
    ensures var s' := StepAdvance(cfg, s, d); CallsBalance(s') && EventsBalance(cfg, s')
  {
    PhaseChange(s.phases, d, StepAdvance(cfg, s, d).phases[d]);
  }

  /** The last step of a call: the final test, then the free; or the free of a dropped one. */
  lemma OutcomeBalance(cfg: Config, s: Bus, d: nat, ev: nat)
    requires CallsBalance(s) && EventsBalance(cfg, s) && d < |s.phases|
    ensures s.phases[d].Testing? ==> CallsBalance(StepTest(s, d, ev)) && EventsBalance(cfg, StepTest(s, d, ev))
    ensures s.phases[d].FreeingLast? ==> CallsBalance(StepFreeLast(s, d, ev)) && EventsBalance(cfg, StepFreeLast(s, d, ev))
    ensures s.phases[d].Failing? ==> CallsBalance(StepDrop(s, d, ev)) && EventsBalance(cfg, StepDrop(s, d, ev))
  {
    PhaseChange(s.phases, d, FreeingLast(ev));
    PhaseChange(s.phases, d, Idle);
    FreeBalance(cfg, s, ev);
    hide FreeEvent, Count;
  }

  lemma AdvanceBalance(cfg: Config, s: Bus, d: nat)
    requires CallsBalance(s) && EventsBalance(cfg, s) && d < |s.phases|
    ensures CallsBalance(StepAdvance(cfg, s, d)) && EventsBalance(cfg, StepAdvance(cfg, s, d))
  {
    var s' := StepAdvance(cfg, s, d);
    hide CallsBalance, EventsBalance, Middle, Unmoved, SetCount, Count, ForgetData, FreeEvent;
    hide StepClear, StepStore, StepPut, StepTest, StepFreeLast, StepDrop, StepUnlock;
    match s.phases[d]
    case Idle =>
    case Allocating(_) =>
    case Fresh(_) =>
    case Loaded(ev, k) => EndpointMiddle(s, d, ev, k); if s' != s { MiddleKeeps(cfg, s, s', d); }
    case Storing(ev, k) => EndpointMiddle(s, d, ev, k); if s' != s { MiddleKeeps(cfg, s, s', d); }
    case Replacing(ev, k, prev) =>
      CountMiddle(s, d, prev, 0, FreeingPrev(ev, k, prev));
      CountMiddle(s, d, prev, Count(s, prev) - 1, Zeroing(ev, k));
      MiddleKeeps(cfg, s, s', d);
    case FreeingPrev(ev, k, prev) => FreePrevBalance(cfg, s, d, ev, k, prev);
    case Zeroing(ev, k) => CountMiddle(s, d, ev, 0, Retaining(ev, k)); CountMiddle(s, d, ev, 0, Locking(ev, k)); MiddleKeeps(cfg, s, s', d);
    case Retaining(ev, k) => CountMiddle(s, d, ev, Count(s, ev) + 1, Storing(ev, k)); MiddleKeeps(cfg, s, s', d);
    case Locking(_, _) => MutexBalance(cfg, s, d);
    case Notifying(_, _, _) => MutexBalance(cfg, s, d);
    case Queueing(ev, k, todo) => PutMiddle(s, d, ev, k, todo); EitherKeeps(cfg, s, s', d);
    case Testing(ev, _) => OutcomeBalance(cfg, s, d, ev);
    case FreeingLast(ev) => OutcomeBalance(cfg, s, d, ev);
    case Failing(ev) => OutcomeBalance(cfg, s, d, ev);
  }

  lemma EitherKeeps(cfg: Config, s: Bus, s': Bus, d: nat)
    requires CallsBalance(s) && EventsBalance(cfg, s)
    requires Middle(s, s', d) || (s'.phases == s.phases && Unmoved(s, s'))
    ensures CallsBalance(s') && EventsBalance(cfg, s')
  {
    hide CallsBalance, EventsBalance, Middle, Unmoved;
    if Middle(s, s', d) { MiddleKeeps(cfg, s, s', d); } else { UnmovedKeeps(cfg, s, s'); }
  }

  lemma ReapBalance(cfg: Config, s: Bus, e: nat)
    requires CallsBalance(s) && EventsBalance(cfg, s)
    ensures CallsBalance(StepReap(s, e)) && EventsBalance(cfg, StepReap(s, e))
  {
    FreeBalance(cfg, s, e);
    hide FreeEvent;
  }

  lemma StepBalance(cfg: Config, s: Bus, a: Action)
    requires CallsBalance(s) && EventsBalance(cfg, s)
    ensures CallsBalance(Step(cfg, s, a)) && EventsBalance(cfg, Step(cfg, s, a))
  {
    hide CallsBalance, EventsBalance, Middle, Unmoved;
    hide StepBegin, StepReturned, StepReject, StepAccept, StepRejectData, StepMatch, StepReap;
    match a
    case Begin(d, b) => BeginBalance(cfg, s, d, b);
    case Returned(d) => ReturnedBalance(cfg, s, d);
    case Reject(d, r) => RejectBalance(cfg, s, d, r);
    case Accept(d, k, size) => AcceptMiddle(s, d, k, size); EitherKeeps(cfg, s, StepAccept(s, d, k, size), d);
    case RejectData(d) => RejectBalance(cfg, s, d, NoEndpoint);
    case Advance(d) => AdvanceAnyBalance(cfg, s, d);
    case Match(d, yes) => MatchMiddle(s, d, yes); EitherKeeps(cfg, s, StepMatch(s, d, yes), d);
    case Reap(e) => ReapBalance(cfg, s, e);
    case _ => ConsumerBalance(cfg, s, a);
  }

  lemma AdvanceAnyBalance(cfg: Config, s: Bus, d: nat)
    requires CallsBalance(s) && EventsBalance(cfg, s)
    ensures CallsBalance(StepAdvance(cfg, s, d)) && EventsBalance(cfg, StepAdvance(cfg, s, d))
  {
    if d < |s.phases| { AdvanceBalance(cfg, s, d); }
  }

  lemma ConsumerBalance(cfg: Config, s: Bus, a: Action)
    requires CallsBalance(s) && EventsBalance(cfg, s) && !OfProducer(a) && !a.Reap?
    ensures CallsBalance(Step(cfg, s, a)) && EventsBalance(cfg, Step(cfg, s, a))
  {
    ConsumerMoves(cfg, s, a);
    UnmovedKeeps(cfg, s, Step(cfg, s, a));
  }

  lemma {:induction false} RunBalance(cfg: Config, s: Bus, acts: seq<Action>)
    requires CallsBalance(s) && EventsBalance(cfg, s)
    ensures CallsBalance(Run(cfg, s, acts)) && EventsBalance(cfg, Run(cfg, s, acts))
    decreases |acts|
  {
    hide CallsBalance, EventsBalance, Step;
    if acts != [] {
      StepBalance(cfg, s, acts[0]);
      RunBalance(cfg, Step(cfg, s, acts[0]), acts[1..]);
    }
  }

  lemma {:induction false} StartBalance(n: nat, m: nat)
    ensures InProgress(seq(n, _ => Idle)) == 0 && Dropping(seq(n, _ => Idle)) == 0
    ensures LiveEvents(seq(m, _ => Unused)) == 0
    decreases n + m
  {
    if n > 0 {
      assert seq(n, _ => Idle)[1..] == seq(n - 1, _ => Idle);
      StartBalance(n - 1, m);
    } else if m > 0 {
      assert seq(m, _ => Unused)[1..] == seq(m - 1, _ => Unused);
      StartBalance(n, m - 1);
    }
  }

  /**
   In every run the totals due balance: processed and dropped calls and those in
   progress are the calls made, the six reasons are the drops, and used and
   remaining events are the pool.
   */
  lemma StatsConserved(cfg: Config, acts: seq<Action>)
    ensures var s := Run(cfg, Start(cfg), acts);
            && s.stats.ev + s.stats.dropped + InProgress(s.phases) == s.stats.calls
            && Reasons(s.stats) == s.stats.dropped + Dropping(s.phases)
            && s.stats.evCount == LiveEvents(s.blocks)
            && s.stats.evCount + s.stats.evRemaining == cfg.pool
  {
    StartBalance(cfg.devices, cfg.pool);
    RunBalance(cfg, Start(cfg), acts);
  }
}
