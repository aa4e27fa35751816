/**
 The order of events: a subscription hands out the events matched for it, all of
 them and in the order of the matches, and every event is offered once to each
 subscription on the list. Both are said of histories computed from the actions
 of a run.
 */
module EventBusOrder {
  import opened Common
  import opened EventBus
  import opened EventBusSafety
  import opened EventBusQueues

  /** Events matched for a subscription, and events handed out from it, since it was listed. */
  datatype History = History(matched: seq<nat>, taken: seq<nat>)

  /** The event that has come into a consumer's hands. */
  ghost function HandedOut(held: multiset<nat>, held': multiset<nat>): seq<nat> {
    if exists e: nat :: held'[e] == held[e] + 1 then
      var e: nat :| held'[e] == held[e] + 1; [e]
    else []
  }

  lemma HandedOutIs(held: multiset<nat>, e: nat)
    ensures HandedOut(held, held + multiset{e}) == [e]
  {
    var held' := held + multiset{e};
    assert held'[e] == held[e] + 1;
    assert forall x: nat :: held'[x] == held[x] + 1 ==> x == e;
  }

  /** The event that this action matches for subscription `i`. */
  function MatchedFor(s: Bus, a: Action, i: nat): seq<nat> {
    if a.Match? && a.yes && a.dev < |s.phases| && s.phases[a.dev].Notifying? && s.phases[a.dev].todo != []
       && s.phases[a.dev].todo[0] == i
    then [s.phases[a.dev].ev] else []
  }

  predicate InUse(s: Bus, i: nat) {
    i < |s.subs| && (s.subs[i].Listed? || s.subs[i].Draining?)
  }

  /** One more action: a subscription that comes on the list begins anew. */
  ghost function Recorded(s: Bus, s': Bus, a: Action, i: nat, h: History): History {
    if !InUse(s, i) && InUse(s', i) then History([], [])
    else History(h.matched + MatchedFor(s, a, i),
                 h.taken + if a == Take(i) || a == Drain(i) then HandedOut(s.held, s'.held) else [])
  }

  ghost function HistoryOf(cfg: Config, s: Bus, acts: seq<Action>, i: nat, h: History): History
    decreases |acts|
  {
    if acts == [] then h
    else HistoryOf(cfg, Step(cfg, s, acts[0]), acts[1..], i, Recorded(s, Step(cfg, s, acts[0]), acts[0], i, h))
  }

  /** An event matched for subscription `i` that the thread with the mutex is about to queue. */
  function OnItsWay(s: Bus, i: nat): seq<nat> {
    if s.lock.Some? && s.lock.value < |s.phases| && s.phases[s.lock.value].Queueing?
       && s.phases[s.lock.value].todo != [] && s.phases[s.lock.value].todo[0] == i
    then [s.phases[s.lock.value].ev] else []
  }

  predicate AddUp(taken: seq<nat>, queue: seq<nat>, coming: seq<nat>, matched: seq<nat>) {
    taken + queue + coming == matched
  }

  /** What was handed out, what is queued and what is about to be, are the events matched. */
  predicate InOrder(s: Bus, i: nat, h: History) {
    InUse(s, i) ==> AddUp(h.taken, QueueOf(s.subs[i]), OnItsWay(s, i), h.matched)
  }

  // ---------------------------------------------------------------- steps that leave queues and matches alone

  /** Nothing that the order of subscription `i` depends on changes. */
  predicate Untouched(s: Bus, s': Bus, i: nat) {
    && OnItsWay(s', i) == OnItsWay(s, i)
    && (InUse(s', i) ==> InUse(s, i) && QueueOf(s'.subs[i]) == QueueOf(s.subs[i]))
  }

  lemma UntouchedKeeps(s: Bus, s': Bus, a: Action, i: nat, h: History)
    requires InOrder(s, i, h) && Untouched(s, s', i) && a != Take(i) && a != Drain(i) && MatchedFor(s, a, i) == []
    ensures InOrder(s', i, Recorded(s, s', a, i, h))
  {
    assert h.matched + [] == h.matched && h.taken + [] == h.taken;
  }

  /** Queues, mutex and the phase of the thread that holds it are as they were. */
  predicate Beside(s: Bus, s': Bus) {
    && s'.subs == s.subs && s'.lock == s.lock && |s'.phases| == |s.phases|
    && (s.lock.Some? && s.lock.value < |s.phases| ==>
          s'.phases[s.lock.value] == s.phases[s.lock.value]
          || (!s.phases[s.lock.value].Queueing? && !s'.phases[s.lock.value].Queueing?))
  }

  lemma BesideUntouched(s: Bus, s': Bus, i: nat)
    requires Beside(s, s')
    ensures Untouched(s, s', i)
  {
  }

  lemma ConsumerBeside(cfg: Config, s: Bus, a: Action)
    requires a.Ref? || a.Unref? || a.Reap? || a.LockLast? || a.KeepLast? || a.UnlockLast?
    ensures Beside(s, Step(cfg, s, a))
  {
    hide Beside, StepRef, StepUnref, StepReap, StepLockLast, StepKeepLast, StepUnlockLast;
    if a.LockLast? || a.KeepLast? || a.UnlockLast? {
      IterationBeside(s, a.ep);
    } else if a.Ref? {
      RefBeside(s, a.ev);
    } else if a.Unref? {
      UnrefBeside(s, a.ev);
    } else {
      ReapBeside(s, a.ev);
    }
  }

  lemma RefBeside(s: Bus, e: nat)
    ensures Beside(s, StepRef(s, e))
  {
  }

  lemma UnrefBeside(s: Bus, e: nat)
    ensures Beside(s, StepUnref(s, e))
  {
  }

  lemma ReapBeside(s: Bus, e: nat)
    ensures Beside(s, StepReap(s, e))
  {
  }

  lemma IterationBeside(s: Bus, i: nat)
    ensures Beside(s, StepLockLast(s, i)) && Beside(s, StepKeepLast(s, i)) && Beside(s, StepUnlockLast(s, i))
  {
    UnlockBeside(s, i);
    hide StepUnlockLast;
  }

  lemma UnlockBeside(s: Bus, i: nat)
    ensures Beside(s, StepUnlockLast(s, i))
  {
  }

  lemma AllocateBeside(s: Bus, d: nat, b: nat)
    ensures Beside(s, StepBegin(s, d, b)) && Beside(s, StepReturned(s, d))
  {
  }

  lemma ChooseBeside(s: Bus, d: nat, r: Reason, k: nat, size: nat)
    ensures Beside(s, StepReject(s, d, r)) && Beside(s, StepRejectData(s, d)) && Beside(s, StepAccept(s, d, k, size))
  {
    hide CountReason;
  }

  lemma BuildBeside(cfg: Config, s: Bus, a: Action)
    requires a.Begin? || a.Returned? || a.Reject? || a.Accept? || a.RejectData?
    ensures Beside(s, Step(cfg, s, a))
  {
    hide Beside, StepBegin, StepReturned, StepReject, StepRejectData, StepAccept;
    match a
    case Begin(d, b) => AllocateBeside(s, d, b);
    case Returned(d) => AllocateBeside(s, d, 0);
    case Reject(d, r) => ChooseBeside(s, d, r, 0, 0);
    case Accept(d, k, size) => ChooseBeside(s, d, NoEndpoint, k, size);
    case RejectData(d) => ChooseBeside(s, d, NoEndpoint, 0, 0);
  }

  /** The steps of a processing call other than taking the mutex, notifying and releasing it. */
  predicate OutsideMutex(p: Phase) {
    !p.Locking? && !p.Notifying? && !p.Queueing?
  }

  lemma AdvanceBeside(cfg: Config, s: Bus, d: nat)
    requires d < |s.phases| && OutsideMutex(s.phases[d])
    ensures Beside(s, StepAdvance(cfg, s, d))
  {
    if s.phases[d].Loaded? || s.phases[d].Storing? {
      EndpointBeside(s, d, s.phases[d].ev, s.phases[d].k);
      hide Beside, StepClear, StepStore;
    } else {
      AdvancePhase(cfg, s, d);
      NotQueueing(cfg, s, d);
      hide StepAdvance;
    }
  }

  lemma EndpointBeside(s: Bus, d: nat, ev: nat, k: nat)
    requires d < |s.phases| && !s.phases[d].Queueing?
    ensures Beside(s, StepClear(s, d, ev, k)) && Beside(s, StepStore(s, d, ev, k))
  {
  }

  lemma NotQueueing(cfg: Config, s: Bus, d: nat)
    requires d < |s.phases| && d < |StepAdvance(cfg, s, d).phases|
    requires OutsideMutex(s.phases[d]) && !s.phases[d].Loaded? && !s.phases[d].Storing?
    ensures !StepAdvance(cfg, s, d).phases[d].Queueing?
  {
    hide Count;
    if s.phases[d].Replacing? || s.phases[d].FreeingPrev? || s.phases[d].Zeroing? || s.phases[d].Retaining? {
      CountingPhase(cfg, s, d);
    } else {
      EndingPhase(cfg, s, d);
    }
    hide StepAdvance;
  }

  lemma CountingPhase(cfg: Config, s: Bus, d: nat)
    requires d < |s.phases| && d < |StepAdvance(cfg, s, d).phases|
    requires s.phases[d].Replacing? || s.phases[d].FreeingPrev? || s.phases[d].Zeroing? || s.phases[d].Retaining?
    ensures !StepAdvance(cfg, s, d).phases[d].Queueing?
  {
    hide Count;
  }

  lemma EndingPhase(cfg: Config, s: Bus, d: nat)
    requires d < |s.phases| && d < |StepAdvance(cfg, s, d).phases|
    requires s.phases[d].Idle? || s.phases[d].Allocating? || s.phases[d].Fresh? || s.phases[d].Testing?
             || s.phases[d].FreeingLast? || s.phases[d].Failing?
    ensures !StepAdvance(cfg, s, d).phases[d].Queueing?
  {
    hide Count;
  }

  // ---------------------------------------------------------------- the steps that matter

  lemma MatchInOrder(cfg: Config, s: Bus, d: nat, yes: bool, i: nat, h: History)
    requires Disciplined(cfg, s) && InOrder(s, i, h)
    ensures InOrder(StepMatch(s, d, yes), i, Recorded(s, StepMatch(s, d, yes), Match(d, yes), i, h))
  {
    var s' := StepMatch(s, d, yes);
    if d < |s.phases| && s.phases[d].Notifying? && s.phases[d].todo != [] {
      assert PhaseOk(s, d);
      MatchKnown(s, d, yes);
      hide StepMatch;
      assert OnItsWay(s, i) == [];
      assert h.taken + [] == h.taken;
      if InUse(s, i) {
        AppendComing(h.taken, QueueOf(s.subs[i]), h.matched, MatchedFor(s, Match(d, yes), i));
      }
    } else {
      UntouchedKeeps(s, s', Match(d, yes), i, h);
    }
  }

  lemma MatchKnown(s: Bus, d: nat, yes: bool)
    requires d < |s.phases| && s.phases[d].Notifying? && s.phases[d].todo != []
    ensures var s' := StepMatch(s, d, yes);
      && s'.subs == s.subs && s'.lock == s.lock && |s'.phases| == |s.phases|
      && s'.phases[d] == if yes then Queueing(s.phases[d].ev, s.phases[d].k, s.phases[d].todo)
                         else Notifying(s.phases[d].ev, s.phases[d].k, s.phases[d].todo[1..])
  {
    hide Count;
  }

  lemma AppendComing(taken: seq<nat>, queue: seq<nat>, matched: seq<nat>, more: seq<nat>)
    requires AddUp(taken, queue, [], matched)
    ensures AddUp(taken, queue, more, matched + more)
  {
  }

  lemma AppendQueued(taken: seq<nat>, queue: seq<nat>, coming: seq<nat>, matched: seq<nat>)
    requires AddUp(taken, queue, coming, matched)
    ensures AddUp(taken, queue + coming, [], matched)
  {
  }

  lemma PutInOrder(cfg: Config, s: Bus, d: nat, i: nat, h: History)
    requires Disciplined(cfg, s) && InOrder(s, i, h) && d < |s.phases| && s.phases[d].Queueing?
    ensures InOrder(StepAdvance(cfg, s, d), i, Recorded(s, StepAdvance(cfg, s, d), Advance(d), i, h))
  {
    assert PhaseOk(s, d);
    var Queueing(ev, k, todo) := s.phases[d];
    assert todo[0] in todo;
    var s' := StepPut(s, d, ev, k, todo);
    assert s' == StepAdvance(cfg, s, d);
    assert OnItsWay(s', i) == [];
    assert h.matched + [] == h.matched && h.taken + [] == h.taken;
    if InUse(s, i) {
      AppendQueued(h.taken, QueueOf(s.subs[i]), OnItsWay(s, i), h.matched);
      assert QueueOf(s'.subs[i]) == QueueOf(s.subs[i]) + OnItsWay(s, i);
    }
  }

  lemma MutexInOrder(cfg: Config, s: Bus, d: nat, i: nat, h: History)
    requires Disciplined(cfg, s) && InOrder(s, i, h) && d < |s.phases| && (s.phases[d].Locking? || s.phases[d].Notifying?)
    ensures InOrder(StepAdvance(cfg, s, d), i, Recorded(s, StepAdvance(cfg, s, d), Advance(d), i, h))
  {
    assert PhaseOk(s, d);
    MutexUntouched(cfg, s, d, i);
    hide StepAdvance;
    UntouchedKeeps(s, StepAdvance(cfg, s, d), Advance(d), i, h);
  }

  lemma MutexUntouched(cfg: Config, s: Bus, d: nat, i: nat)
    requires d < |s.phases| && (s.phases[d].Locking? || (s.phases[d].Notifying? && s.lock == Some(d)))
    ensures Untouched(s, StepAdvance(cfg, s, d), i)
  {
  }

  lemma AdvanceInOrder(cfg: Config, s: Bus, d: nat, i: nat, h: History)
    requires Disciplined(cfg, s) && InOrder(s, i, h)
    ensures InOrder(StepAdvance(cfg, s, d), i, Recorded(s, StepAdvance(cfg, s, d), Advance(d), i, h))
  {
    hide StepAdvance, Disciplined, InOrder, Recorded;
    if d >= |s.phases| {
      NoAdvance(cfg, s, d);
      BesideUntouched(s, s, i);
      UntouchedKeeps(s, s, Advance(d), i, h);
    } else if s.phases[d].Queueing? {
      PutInOrder(cfg, s, d, i, h);
    } else if s.phases[d].Locking? || s.phases[d].Notifying? {
      MutexInOrder(cfg, s, d, i, h);
    } else {
      AdvanceBeside(cfg, s, d);
      BesideUntouched(s, StepAdvance(cfg, s, d), i);
      UntouchedKeeps(s, StepAdvance(cfg, s, d), Advance(d), i, h);
    }
  }

  /** The first event of the queue goes out. */
  lemma HeadOut(taken: seq<nat>, queue: seq<nat>, coming: seq<nat>, matched: seq<nat>)
    requires AddUp(taken, queue, coming, matched) && queue != []
    ensures AddUp(taken + [queue[0]], queue[1..], coming, matched)
  {
    assert queue == [queue[0]] + queue[1..];
  }

  lemma TakeInOrder(s: Bus, a: Action, j: nat, i: nat, h: History)
    requires InOrder(s, i, h) && (a == Take(j) || a == Drain(j))
    ensures var s' := if a.Take? then StepTake(s, j) else StepDrain(s, j); InOrder(s', i, Recorded(s, s', a, i, h))
  {
    var s' := if a.Take? then StepTake(s, j) else StepDrain(s, j);
    assert h.matched + [] == h.matched && h.taken + [] == h.taken;
    assert OnItsWay(s', i) == OnItsWay(s, i);
    if s'.subs == s.subs {
      assert s'.held == s.held;
      assert HandedOut(s.held, s'.held) == [];
    } else {
      var queue := s.subs[j].queue;
      assert s'.held == s.held + multiset{queue[0]};
      HandedOutIs(s.held, queue[0]);
      OneHandedOut(s, s', j, i, h);
    }
  }

  lemma OneHandedOut(s: Bus, s': Bus, j: nat, i: nat, h: History)
    requires InOrder(s, i, h) && InUse(s, j) && s.subs[j].queue != [] && OnItsWay(s', i) == OnItsWay(s, i)
    requires s'.subs == s.subs[j := s.subs[j].(queue := s.subs[j].queue[1..])]
    ensures j == i ==> InOrder(s', i, History(h.matched, h.taken + [s.subs[j].queue[0]]))
    ensures j != i ==> InOrder(s', i, h)
  {
    if j == i {
      HeadOut(h.taken, s.subs[i].queue, OnItsWay(s, i), h.matched);
    }
  }

  lemma SubscribeInOrder(cfg: Config, s: Bus, a: Action, i: nat, h: History)
    requires InOrder(s, i, h) && (a.SubBegin? || a.SubAdvance?)
    ensures InOrder(Step(cfg, s, a), i, Recorded(s, Step(cfg, s, a), a, i, h))
  {
    var s' := Step(cfg, s, a);
    if a.SubBegin? {
      SubBeginUntouched(s, a.thread, a.sub, i);
    } else {
      SubAdvanceUntouched(s, a.thread, i);
    }
    hide Step;
    if !InUse(s, i) && InUse(s', i) {
      assert AddUp([], [], [], []);
    } else {
      UntouchedKeeps(s, s', a, i, h);
    }
  }

  lemma SubBeginUntouched(s: Bus, t: nat, j: nat, i: nat)
    ensures Untouched(s, StepSubBegin(s, t, j), i)
  {
  }

  /** A subscription that comes on the list has an empty queue, and nobody is notifying. */
  predicate ComesEmpty(s: Bus, s': Bus, i: nat) {
    !InUse(s, i) && InUse(s', i) && QueueOf(s'.subs[i]) == [] && OnItsWay(s', i) == []
  }

  lemma SubInitUntouched(s: Bus, t: nat, j: nat, i: nat)
    requires t < |s.subscribers|
    ensures Untouched(s, StepSubInit(s, t, j), i)
  {
  }

  lemma SubAppendUntouched(s: Bus, t: nat, j: nat, i: nat)
    requires t < |s.subscribers|
    ensures var s' := StepSubAppend(s, t, j); Untouched(s, s', i) || ComesEmpty(s, s', i)
  {
  }

  lemma SubAdvanceUntouched(s: Bus, t: nat, i: nat)
    ensures var s' := StepSubAdvance(s, t); Untouched(s, s', i) || ComesEmpty(s, s', i)
  {
    if t < |s.subscribers| && s.subscribers[t].SubFresh? {
      SubInitUntouched(s, t, s.subscribers[t].sub, i);
      hide StepSubInit, Untouched, ComesEmpty;
    } else if t < |s.subscribers| && s.subscribers[t].SubReady? {
      SubAppendUntouched(s, t, s.subscribers[t].sub, i);
      hide StepSubAppend, Untouched, ComesEmpty;
    }
  }

  lemma UnsubscribeUntouched(s: Bus, j: nat, i: nat)
    ensures Untouched(s, StepUnsubscribe(s, j), i)
  {
  }

  lemma ReleaseUntouched(s: Bus, j: nat, i: nat)
    ensures Untouched(s, StepRelease(s, j), i)
  {
  }

  lemma StepInOrder(cfg: Config, s: Bus, a: Action, i: nat, h: History)
    requires Disciplined(cfg, s) && InOrder(s, i, h)
    ensures InOrder(Step(cfg, s, a), i, Recorded(s, Step(cfg, s, a), a, i, h))
  {
    hide Disciplined, InOrder, Recorded, Untouched, Beside;
    if a.Match? {
      MatchInOrder(cfg, s, a.dev, a.yes, i, h);
    } else if a.Advance? {
      AdvanceInOrder(cfg, s, a.dev, i, h);
    } else if a.Take? || a.Drain? {
      TakeInOrder(s, a, a.sub, i, h);
    } else if a.SubBegin? || a.SubAdvance? {
      SubscribeInOrder(cfg, s, a, i, h);
    } else {
      OtherUntouched(cfg, s, a, i);
      UntouchedKeeps(s, Step(cfg, s, a), a, i, h);
    }
  }

  lemma OtherUntouched(cfg: Config, s: Bus, a: Action, i: nat)
    requires !a.Match? && !a.Advance? && !a.Take? && !a.Drain? && !a.SubBegin? && !a.SubAdvance?
    ensures Untouched(s, Step(cfg, s, a), i)
  {
    hide Untouched, Beside;
    if a.Unsubscribe? {
      UnsubscribeUntouched(s, a.sub, i);
    } else if a.Release? {
      ReleaseUntouched(s, a.sub, i);
    } else {
      if OfProducer(a) { BuildBeside(cfg, s, a); } else { ConsumerBeside(cfg, s, a); }
      BesideUntouched(s, Step(cfg, s, a), i);
    }
  }

  lemma {:induction false} RunInOrder(cfg: Config, s: Bus, acts: seq<Action>, i: nat, h: History)
    requires Inv(cfg, s) && Retains(cfg) && ObeyingRun(ALL, cfg, s, acts) && InOrder(s, i, h)
    ensures InOrder(Run(cfg, s, acts), i, HistoryOf(cfg, s, acts, i, h)) && Inv(cfg, Run(cfg, s, acts))
    decreases |acts|
  {
    hide Step, InOrder, Recorded, Obeys;
    if acts != [] {
      StepInOrder(cfg, s, acts[0], i, h);
      StepKeeps(cfg, s, acts[0]);
      RunInOrder(cfg, Step(cfg, s, acts[0]), acts[1..], i, Recorded(s, Step(cfg, s, acts[0]), acts[0], i, h));
    }
  }

  /**
   In every safe run, what was handed out from a subscription since it was listed,
   followed by its queue and by the event about to be queued if there is one, are
   the events matched for it, in the order of the matches.
   */
  lemma FirstInFirstOut(cfg: Config, acts: seq<Action>, i: nat)
    requires Retains(cfg) && ObeyingRun(ALL, cfg, Start(cfg), acts)
    ensures var s, h := Run(cfg, Start(cfg), acts), HistoryOf(cfg, Start(cfg), acts, i, History([], []));
            && (i < |s.subs| && s.subs[i].Listed? ==> h.taken + s.subs[i].queue + OnItsWay(s, i) == h.matched)
            && (i < |s.subs| && s.subs[i].Draining? ==> h.taken + s.subs[i].queue == h.matched)
  {
    hide Start, Run, HistoryOf, ObeyingRun;
    StartOk(cfg);
    var h0 := History([], []);
    StartInOrder(cfg, i);
    RunInOrder(cfg, Start(cfg), acts, i, h0);
    var s := Run(cfg, Start(cfg), acts);
    if i < |s.subs| && s.subs[i].Draining? {
      DrainingIsOff(cfg, s, i);
      assert s.subs[i].queue + [] == s.subs[i].queue;
    }
  }

  lemma StartInOrder(cfg: Config, i: nat)
    ensures InOrder(Start(cfg), i, History([], []))
  {
  }

  /** Nothing is on its way to a subscription that was taken off the list. */
  lemma DrainingIsOff(cfg: Config, s: Bus, i: nat)
    requires Disciplined(cfg, s) && i < |s.subs| && s.subs[i].Draining?
    ensures OnItsWay(s, i) == []
  {
    if s.lock.Some? && s.lock.value < |s.phases| && s.phases[s.lock.value].Queueing? {
      var d := s.lock.value;
      assert PhaseOk(s, d);
      assert s.phases[d].todo[0] in s.phases[d].todo;
    }
  }

  /** The next event handed out is the first match not handed out yet. */
  lemma TakenInOrder(cfg: Config, acts: seq<Action>, i: nat)
    requires Retains(cfg) && ObeyingRun(ALL, cfg, Start(cfg), acts)
    ensures var s, h := Run(cfg, Start(cfg), acts), HistoryOf(cfg, Start(cfg), acts, i, History([], []));
            i in s.handles && i < |s.subs| && s.subs[i].Listed? && s.subs[i].queue != [] ==>
              |h.taken| < |h.matched| && Step(cfg, s, Take(i)).held == s.held + multiset{h.matched[|h.taken|]}
  {
    hide Start;
    FirstInFirstOut(cfg, acts, i);
    var s, h := Run(cfg, Start(cfg), acts), HistoryOf(cfg, Start(cfg), acts, i, History([], []));
    if i in s.handles && i < |s.subs| && s.subs[i].Listed? && s.subs[i].queue != [] {
      assert (h.taken + s.subs[i].queue + OnItsWay(s, i))[|h.taken|] == s.subs[i].queue[0];
      assert Step(cfg, s, Take(i)).held == s.held + multiset{s.subs[i].queue[0]};
    }
  }

  // ---------------------------------------------------------------- every subscription is asked

  /** The subscriptions asked about the event being notified, since the mutex was taken. */
  function Asked(s: Bus, s': Bus, a: Action, asked: seq<nat>): seq<nat> {
    if s.lock.None? && s'.lock.Some? then []
    else if a.Match? && a.dev < |s.phases| && s.phases[a.dev].Notifying? && s.phases[a.dev].todo != [] then
      asked + [s.phases[a.dev].todo[0]]
    else asked
  }

  function AskedOf(cfg: Config, s: Bus, acts: seq<Action>, asked: seq<nat>): seq<nat>
    decreases |acts|
  {
    if acts == [] then asked
    else AskedOf(cfg, Step(cfg, s, acts[0]), acts[1..], Asked(s, Step(cfg, s, acts[0]), acts[0], asked))
  }

  /** The thread with the mutex has asked the first subscriptions of the list and will ask the others. */
  predicate Covers(s: Bus, asked: seq<nat>) {
    s.lock.Some? ==>
      && s.lock.value < |s.phases|
      && match s.phases[s.lock.value]
         case Notifying(_, _, todo) => asked + todo == s.list
         case Queueing(_, _, todo) => todo != [] && asked + todo[1..] == s.list
         case _ => false
  }

  /** Neither the mutex, nor the thread that holds it, nor the list while it is held. */
  predicate Aside(s: Bus, s': Bus) {
    && s'.lock == s.lock && |s'.phases| == |s.phases|
    && (s.lock.Some? ==> s'.list == s.list && (s.lock.value < |s.phases| ==> s'.phases[s.lock.value] == s.phases[s.lock.value]))
  }

  lemma AsideKeeps(s: Bus, s': Bus, a: Action, asked: seq<nat>)
    requires Covers(s, asked) && Aside(s, s') && !a.Match?
    ensures Covers(s', Asked(s, s', a, asked))
  {
  }

  lemma MatchCovers(cfg: Config, s: Bus, d: nat, yes: bool, asked: seq<nat>)
    requires Disciplined(cfg, s) && Covers(s, asked)
    ensures Covers(StepMatch(s, d, yes), Asked(s, StepMatch(s, d, yes), Match(d, yes), asked))
  {
    if d < |s.phases| && s.phases[d].Notifying? && s.phases[d].todo != [] {
      assert PhaseOk(s, d);
      MatchKnown(s, d, yes);
      assert StepMatch(s, d, yes).list == s.list;
      hide StepMatch;
      var todo := s.phases[d].todo;
      assert asked + todo == (asked + [todo[0]]) + todo[1..];
    }
  }

  lemma MutexCovers(cfg: Config, s: Bus, d: nat, asked: seq<nat>)
    requires Disciplined(cfg, s) && Covers(s, asked) && d < |s.phases| && !OutsideMutex(s.phases[d])
    ensures Covers(StepAdvance(cfg, s, d), Asked(s, StepAdvance(cfg, s, d), Advance(d), asked))
  {
    assert PhaseOk(s, d);
    if s.phases[d].Queueing? {
      var Queueing(ev, k, todo) := s.phases[d];
      assert todo[0] in todo;
      assert StepAdvance(cfg, s, d) == StepPut(s, d, ev, k, todo);
    } else if s.phases[d].Locking? {
      assert [] + s.list == s.list;
    }
  }

  /** A thread outside the mutex moves its own phase only. */
  lemma OutsideAside(cfg: Config, s: Bus, d: nat, asked: seq<nat>)
    requires Disciplined(cfg, s) && Covers(s, asked) && d < |s.phases| && OutsideMutex(s.phases[d])
    ensures Aside(s, StepAdvance(cfg, s, d))
  {
    assert PhaseOk(s, d);
    AdvanceBeside(cfg, s, d);
    AdvanceOwn(cfg, s, d);
    hide StepAdvance;
  }

  lemma BuildAside(cfg: Config, s: Bus, a: Action, asked: seq<nat>)
    requires Disciplined(cfg, s) && Covers(s, asked) && OfProducer(a) && !a.Advance? && !a.Match?
    ensures Aside(s, Step(cfg, s, a))
  {
    BuildBeside(cfg, s, a);
    BuildList(cfg, s, a);
    if s.lock.Some? {
      var d := s.lock.value;
      if a.dev == d {
        BusyBuild(cfg, s, a);
      } else {
        SamePhase(cfg, s, a, d);
      }
    }
    hide Step;
  }

  lemma BuildList(cfg: Config, s: Bus, a: Action)
    requires a.Begin? || a.Returned? || a.Reject? || a.Accept? || a.RejectData?
    ensures Step(cfg, s, a).list == s.list
  {
    hide CountReason;
  }

  lemma BusyBuild(cfg: Config, s: Bus, a: Action)
    requires (a.Begin? || a.Returned? || a.Reject? || a.Accept? || a.RejectData?) && a.dev < |s.phases|
    requires s.phases[a.dev].Notifying? || s.phases[a.dev].Queueing?
    ensures Step(cfg, s, a) == s
  {
  }

  lemma ConsumerAside(cfg: Config, s: Bus, a: Action)
    requires !OfProducer(a)
    ensures Aside(s, Step(cfg, s, a))
  {
    if a.LockLast? || a.KeepLast? || a.UnlockLast? {
      IterationAside(s, a.ep);
      hide StepLockLast, StepKeepLast, StepUnlockLast;
    } else if a.SubBegin? || a.SubAdvance? || a.Unsubscribe? || a.Release? {
      SubscriberAside(cfg, s, a);
      hide Step;
    } else {
      HolderAside(cfg, s, a);
      hide Step;
    }
  }

  lemma IterationAside(s: Bus, i: nat)
    ensures Aside(s, StepLockLast(s, i)) && Aside(s, StepKeepLast(s, i)) && Aside(s, StepUnlockLast(s, i))
  {
  }

  lemma SubscriberAside(cfg: Config, s: Bus, a: Action)
    requires a.SubBegin? || a.SubAdvance? || a.Unsubscribe? || a.Release?
    ensures Aside(s, Step(cfg, s, a))
  {
  }

  lemma HolderAside(cfg: Config, s: Bus, a: Action)
    requires a.Take? || a.Drain? || a.Ref? || a.Unref? || a.Reap?
    ensures Aside(s, Step(cfg, s, a))
  {
  }

  lemma StepCovers(cfg: Config, s: Bus, a: Action, asked: seq<nat>)
    requires Disciplined(cfg, s) && Covers(s, asked)
    ensures Covers(Step(cfg, s, a), Asked(s, Step(cfg, s, a), a, asked))
  {
    hide Disciplined, Covers, Asked, Aside, StepAdvance, StepMatch;
    if a.Match? {
      MatchCovers(cfg, s, a.dev, a.yes, asked);
    } else if a.Advance? {
      if a.dev >= |s.phases| {
        NoAdvance(cfg, s, a.dev);
        SameAside(s);
        AsideKeeps(s, s, a, asked);
      } else if OutsideMutex(s.phases[a.dev]) {
        OutsideAside(cfg, s, a.dev, asked);
        AsideKeeps(s, Step(cfg, s, a), a, asked);
      } else {
        MutexCovers(cfg, s, a.dev, asked);
      }
    } else {
      if OfProducer(a) { BuildAside(cfg, s, a, asked); } else { ConsumerAside(cfg, s, a); }
      AsideKeeps(s, Step(cfg, s, a), a, asked);
    }
  }

  lemma SameAside(s: Bus)
    ensures Aside(s, s)
  {
  }

  lemma {:induction false} RunCovers(cfg: Config, s: Bus, acts: seq<Action>, asked: seq<nat>)
    requires Inv(cfg, s) && Retains(cfg) && ObeyingRun(ALL, cfg, s, acts) && Covers(s, asked)
    ensures Covers(Run(cfg, s, acts), AskedOf(cfg, s, acts, asked)) && Inv(cfg, Run(cfg, s, acts))
    decreases |acts|
  {
    hide Step, Covers, Asked, Obeys;
    if acts != [] {
      StepCovers(cfg, s, acts[0], asked);
      StepKeeps(cfg, s, acts[0]);
      RunCovers(cfg, Step(cfg, s, acts[0]), acts[1..], Asked(s, Step(cfg, s, acts[0]), acts[0], asked));
    }
  }

  /** The list holds exactly the subscriptions that are listed. */
  predicate ListedOnList(subs: seq<Sub>, list: seq<nat>) {
    forall i :: 0 <= i < |subs| && subs[i].Listed? ==> i in list
  }

  /** Nothing comes on the list, or leaves it. */
  predicate SameListed(s: Bus, s': Bus) {
    && s'.list == s.list && |s'.subs| == |s.subs|
    && forall i :: 0 <= i < |s.subs| ==> (s'.subs[i].Listed? ==> s.subs[i].Listed?)
  }

  lemma {:induction false} WithoutKeeps(list: seq<nat>, i: nat, x: nat)
    requires x in list && x != i
    ensures x in Without(list, i)
  {
    if list[0] != i && x != list[0] {
      assert x in list[1..];
      WithoutKeeps(list[1..], i, x);
    } else if list[0] == i {
      assert x in list[1..];
    }
  }

  lemma UnsubscribeOnList(s: Bus, i: nat)
    requires ListedOnList(s.subs, s.list)
    ensures ListedOnList(StepUnsubscribe(s, i).subs, StepUnsubscribe(s, i).list)
  {
    var s' := StepUnsubscribe(s, i);
    forall x | 0 <= x < |s'.subs| && s'.subs[x].Listed?
      ensures x in s'.list
    {
      assert x in s.list;
      if s'.list != s.list { WithoutKeeps(s.list, i, x); }
    }
  }

  lemma SubscribeOnList(s: Bus, t: nat)
    requires ListedOnList(s.subs, s.list)
    ensures ListedOnList(StepSubAdvance(s, t).subs, StepSubAdvance(s, t).list)
  {
  }

  lemma TakeSameListed(s: Bus, i: nat)
    ensures SameListed(s, StepTake(s, i))
  {
  }

  lemma DrainSameListed(s: Bus, i: nat)
    ensures SameListed(s, StepDrain(s, i))
  {
  }

  lemma ReleaseSameListed(s: Bus, i: nat)
    ensures SameListed(s, StepRelease(s, i))
  {
  }

  lemma SubBeginSameListed(s: Bus, t: nat, i: nat)
    ensures SameListed(s, StepSubBegin(s, t, i))
  {
  }

  lemma ConsumerSameListed(cfg: Config, s: Bus, a: Action)
    requires !OfProducer(a) && !a.SubAdvance? && !a.Unsubscribe?
    ensures SameListed(s, Step(cfg, s, a))
  {
    if a.Take? {
      TakeSameListed(s, a.sub);
      hide SameListed, StepTake;
    } else if a.Drain? {
      DrainSameListed(s, a.sub);
      hide SameListed, StepDrain;
    } else if a.Release? {
      ReleaseSameListed(s, a.sub);
      hide SameListed, StepRelease;
    } else if a.SubBegin? {
      SubBeginSameListed(s, a.thread, a.sub);
      hide SameListed, StepSubBegin;
    } else {
      ConsumerBeside(cfg, s, a);
      SameList(cfg, s, a);
      hide Step;
    }
  }

  lemma SameList(cfg: Config, s: Bus, a: Action)
    requires a.Ref? || a.Unref? || a.Reap? || a.LockLast? || a.KeepLast? || a.UnlockLast?
    ensures Step(cfg, s, a).list == s.list
  {
  }

  lemma ProducerSameListed(cfg: Config, s: Bus, a: Action)
    requires Disciplined(cfg, s) && OfProducer(a)
    ensures SameListed(s, Step(cfg, s, a))
  {
    if a.Advance? {
      if a.dev < |s.phases| {
        assert PhaseOk(s, a.dev);
        AdvanceSameListed(cfg, s, a.dev);
      }
      hide StepAdvance;
    } else if a.Match? {
      if a.dev < |s.phases| && s.phases[a.dev].Notifying? && s.phases[a.dev].todo != [] { MatchKnown(s, a.dev, a.yes); }
      assert Step(cfg, s, a).list == s.list && Step(cfg, s, a).subs == s.subs;
    } else {
      BuildBeside(cfg, s, a);
      BuildList(cfg, s, a);
      hide Step;
    }
  }

  lemma AdvanceSameListed(cfg: Config, s: Bus, d: nat)
    requires d < |s.phases| && 2 * d + 1 < |s.eps| && PhaseOk(s, d)
    ensures SameListed(s, StepAdvance(cfg, s, d))
  {
    AdvanceOwn(cfg, s, d);
    if s.phases[d].Queueing? {
      assert s.phases[d].todo[0] in s.phases[d].todo;
    } else if OutsideMutex(s.phases[d]) {
      AdvanceBeside(cfg, s, d);
      hide StepAdvance;
    }
  }

  lemma StepOnList(cfg: Config, s: Bus, a: Action)
    requires Disciplined(cfg, s) && ListedOnList(s.subs, s.list)
    ensures ListedOnList(Step(cfg, s, a).subs, Step(cfg, s, a).list)
  {
    if a.SubAdvance? {
      SubscribeOnList(s, a.thread);
    } else if a.Unsubscribe? {
      UnsubscribeOnList(s, a.sub);
    } else {
      if OfProducer(a) { ProducerSameListed(cfg, s, a); } else { ConsumerSameListed(cfg, s, a); }
    }
    hide Step;
  }

  lemma {:induction false} RunOnList(cfg: Config, s: Bus, acts: seq<Action>)
    requires Inv(cfg, s) && Retains(cfg) && ObeyingRun(ALL, cfg, s, acts) && ListedOnList(s.subs, s.list)
    ensures ListedOnList(Run(cfg, s, acts).subs, Run(cfg, s, acts).list) && Inv(cfg, Run(cfg, s, acts))
    decreases |acts|
  {
    hide Step, ListedOnList, Obeys;
    if acts != [] {
      StepOnList(cfg, s, acts[0]);
      StepKeeps(cfg, s, acts[0]);
      RunOnList(cfg, Step(cfg, s, acts[0]), acts[1..]);
    }
  }

  lemma StartOnList(cfg: Config)
    ensures ListedOnList(Start(cfg).subs, Start(cfg).list)
  {
  }

  /**
   In every safe run, when a thread has come to the end of a notification, it has
   asked each subscription on the list about its event, once, in order; and the
   list is made of exactly the subscriptions that are listed.
   */
  lemma OfferedToAll(cfg: Config, acts: seq<Action>, d: nat)
    requires Retains(cfg) && ObeyingRun(ALL, cfg, Start(cfg), acts)
    ensures var s := Run(cfg, Start(cfg), acts);
            && (d < |s.phases| && s.phases[d].Notifying? && s.phases[d].todo == [] ==>
                  AskedOf(cfg, Start(cfg), acts, []) == s.list && NoRepeat(s.list))
            && (forall i: nat :: i in s.list <==> i < |s.subs| && s.subs[i].Listed?)
  {
    hide Start, Run, AskedOf, ObeyingRun, Covers, NoRepeat;
    StartOnList(cfg);
    StartOk(cfg);
    StartCovers(cfg);
    RunCovers(cfg, Start(cfg), acts, []);
    RunOnList(cfg, Start(cfg), acts);
    AllAsked(cfg, Run(cfg, Start(cfg), acts), AskedOf(cfg, Start(cfg), acts, []), d);
  }

  lemma StartCovers(cfg: Config)
    ensures Covers(Start(cfg), [])
  {
  }

  lemma AllAsked(cfg: Config, s: Bus, asked: seq<nat>, d: nat)
    requires Disciplined(cfg, s) && Covers(s, asked)
    ensures d < |s.phases| && s.phases[d].Notifying? && s.phases[d].todo == [] ==> asked == s.list && NoRepeat(s.list)
  {
    if d < |s.phases| && s.phases[d].Notifying? && s.phases[d].todo == [] {
      assert PhaseOk(s, d);
      assert asked + [] == asked;
    }
  }
}
