/**
 The queues are intrusive lists threaded through the event itself, so treating
 them as sequences is right only while an event is linked once. This module
 proves the part of that the bus is responsible for: no queue ever holds the same
 event twice, so that with a single subscription an event is in one list at most.
 */
module EventBusQueues {
  import opened Common
  import opened EventBus
  import opened EventBusSafety

  /** The event a processing call is working on. */
  function EventOf(p: Phase): Option<nat> {
    match p
    case Idle => None
    case Allocating(mine) => mine
    case Fresh(ev) => Some(ev)
    case Loaded(ev, _) => Some(ev)
    case Failing(ev) => Some(ev)
    case Replacing(ev, _, _) => Some(ev)
    case FreeingPrev(ev, _, _) => Some(ev)
    case Zeroing(ev, _) => Some(ev)
    case Retaining(ev, _) => Some(ev)
    case Storing(ev, _) => Some(ev)
    case Locking(ev, _) => Some(ev)
    case Notifying(ev, _, _) => Some(ev)
    case Queueing(ev, _, _) => Some(ev)
    case Testing(ev, _) => Some(ev)
    case FreeingLast(ev) => Some(ev)
  }

  /** The event belongs to the device whose thread works on it (`ev->dev`). */
  predicate Tagged(s: Bus, d: nat)
    requires d < |s.phases|
  {
    var o := EventOf(s.phases[d]);
    o.Some? ==> At(s.blocks, o.value).Live? && s.blocks[o.value].dev == d
  }

  predicate InNoQueue(subs: seq<Sub>, list: seq<nat>, ev: nat) {
    forall i :: i in list && i < |subs| ==> Occurrences(QueueOf(subs[i]), ev) == 0
  }

  /** An event that is still to be offered to a subscription is not in that subscription's queue. */
  predicate Unoffered(s: Bus, d: nat)
    requires d < |s.phases|
  {
    match s.phases[d]
    case Storing(ev, _) => QueueRefs(s.subs, ev) == 0
    case Locking(ev, _) => QueueRefs(s.subs, ev) == 0
    case Notifying(ev, _, todo) => NoRepeat(todo) && InNoQueue(s.subs, todo, ev)
    case Queueing(ev, _, todo) => NoRepeat(todo) && InNoQueue(s.subs, todo, ev)
    case _ => true
  }

  ghost predicate Once(s: Bus) {
    forall i, e: nat :: 0 <= i < |s.subs| ==> Occurrences(QueueOf(s.subs[i]), e) <= 1
  }

  ghost predicate Linked(s: Bus) {
    && (forall d :: 0 <= d < |s.phases| ==> Tagged(s, d))
    && (forall d :: 0 <= d < |s.phases| ==> Unoffered(s, d))
    && Once(s)
  }

  // ---------------------------------------------------------------- tags

  /** The event of a call in progress is live: owned by the call, or held by its endpoint. */
  lemma EventLive(cfg: Config, s: Bus, d: nat)
    requires Inv(cfg, s) && d < |s.phases|
    ensures var o := EventOf(s.phases[d]); o.Some? ==> At(s.blocks, o.value).Live?
  {
    var o := EventOf(s.phases[d]);
    if o.Some? {
      assert PhaseOk(s, d) && BlockOk(s, o.value);
      PhaseHolds(s, d, o.value);
      if s.phases[d].Locking? || s.phases[d].Notifying? || s.phases[d].Testing? {
        EndpointHolds(s, 2 * d + s.phases[d].k);
      }
    }
  }

  /** No step changes the device of an event that stays live. */
  predicate SameDevs(s: Bus, s': Bus) {
    |s'.blocks| == |s.blocks| &&
    forall e :: 0 <= e < |s.blocks| && s.blocks[e].Live? && s'.blocks[e].Live? ==> s'.blocks[e].dev == s.blocks[e].dev
  }

  /** Nor does any step but the choice of an endpoint give an event data. */
  predicate NoNewData(s: Bus, s': Bus) {
    SameDevs(s, s') && forall e :: 0 <= e < |s.blocks| ==> SizeOf(s'.blocks[e]) <= SizeOf(s.blocks[e])
  }

  lemma PrimitiveDevs(s: Bus, e: nat, rc: int)
    ensures NoNewData(s, SetCount(s, e, rc)) && NoNewData(s, FreeEvent(s, e)) && NoNewData(s, Dropped(s, e))
  {
  }

  lemma PhaseDevs(s: Bus, d: nat, e: nat, rc: int, p: Phase)
    requires d < |s.phases|
    ensures NoNewData(s, SetPhase(SetCount(s, e, rc), d, p)) && NoNewData(s, SetPhase(FreeEvent(s, e), d, p))
  {
  }

  lemma EndDevs(s: Bus, d: nat, ev: nat, k: nat, prev: nat)
    requires d < |s.phases|
    ensures NoNewData(s, StepDropPrev(s, d, ev, k, prev))
    ensures NoNewData(s, StepFreeLast(s, d, ev))
    ensures NoNewData(s, StepDrop(s, d, ev))
  {
  }

  lemma AdvanceDevs(cfg: Config, s: Bus, d: nat)
    requires d < |s.phases|
    ensures NoNewData(s, StepAdvance(cfg, s, d))
  {
    hide Count, SetCount, FreeEvent, StepDropPrev, StepFreeLast, StepDrop;
    match s.phases[d]
    case Replacing(ev, k, prev) => EndDevs(s, d, ev, k, prev);
    case FreeingPrev(ev, k, prev) => PhaseDevs(s, d, prev, 0, Zeroing(ev, k));
    case Zeroing(ev, k) =>
      PhaseDevs(s, d, ev, 0, if 2 * d + k < |cfg.retain| && cfg.retain[2 * d + k] then Retaining(ev, k) else Locking(ev, k));
    case Retaining(ev, k) => PhaseDevs(s, d, ev, Count(s, ev) + 1, Storing(ev, k));
    case FreeingLast(ev) => EndDevs(s, d, ev, 0, 0);
    case Failing(ev) => EndDevs(s, d, ev, 0, 0);
    case _ => assert StepAdvance(cfg, s, d).blocks == s.blocks;
  }

  lemma NoAdvance(cfg: Config, s: Bus, d: nat)
    requires d >= |s.phases|
    ensures StepAdvance(cfg, s, d) == s
  {
  }

  lemma StepDevs(cfg: Config, s: Bus, a: Action)
    ensures SameDevs(s, Step(cfg, s, a))
    ensures !a.Accept? ==> NoNewData(s, Step(cfg, s, a))
  {
    if a.Advance? {
      hide StepAdvance, SameDevs, NoNewData;
      if a.dev < |s.phases| { AdvanceDevs(cfg, s, a.dev); } else { NoAdvance(cfg, s, a.dev); SameBlocks(s, s); }
    } else if a.Begin? || a.Accept? {
      ChooseDevs(cfg, s, a);
      hide Step;
    } else if a.Match? || a.Ref? || a.Unref? || a.Reap? || a.LockLast? || a.KeepLast? || a.UnlockLast? {
      CountingDevs(cfg, s, a);
      hide Step;
    } else {
      hide CountReason, SameDevs, NoNewData;
      SameBlocks(s, Step(cfg, s, a));
    }
  }

  lemma SameBlocks(s: Bus, s': Bus)
    requires s'.blocks == s.blocks
    ensures NoNewData(s, s') && SameDevs(s, s')
  {
  }

  lemma ChooseDevs(cfg: Config, s: Bus, a: Action)
    requires a.Begin? || a.Accept?
    ensures SameDevs(s, Step(cfg, s, a))
    ensures a.Begin? ==> NoNewData(s, Step(cfg, s, a))
  {
  }

  lemma CountingDevs(cfg: Config, s: Bus, a: Action)
    requires a.Match? || a.Ref? || a.Unref? || a.Reap? || a.LockLast? || a.KeepLast? || a.UnlockLast?
    ensures NoNewData(s, Step(cfg, s, a))
  {
    hide SetCount, FreeEvent, Dropped, StepLockLast, StepKeepLast, StepUnlockLast;
    match a
    case Match(d, _) =>
      if d < |s.phases| && s.phases[d].Notifying? { PrimitiveDevs(s, s.phases[d].ev, Count(s, s.phases[d].ev) + 1); }
    case Ref(e) => PrimitiveDevs(s, e, Count(s, e) + 1);
    case Unref(e) => PrimitiveDevs(s, e, Count(s, e) - 1);
    case Reap(e) => PrimitiveDevs(s, e, 0);
    case LockLast(i) => IterationDevs(s, i);
    case KeepLast(i) => IterationDevs(s, i);
    case UnlockLast(i) => IterationDevs(s, i);
  }

  lemma IterationDevs(s: Bus, i: nat)
    ensures NoNewData(s, StepLockLast(s, i)) && NoNewData(s, StepKeepLast(s, i)) && NoNewData(s, StepUnlockLast(s, i))
  {
    if i < |s.eps| && s.eps[i].last.Some? {
      var e := s.eps[i].last.value;
      PrimitiveDevs(s, e, Count(s, e) + 1);
      PrimitiveDevs(s, e, Count(s, e) - 1);
    }
  }

  /** A processing call keeps its event; a new one tags it; nobody else's call changes. */
  predicate SameEvents(s: Bus, s': Bus) {
    |s'.phases| == |s.phases| &&
    forall d :: 0 <= d < |s.phases| ==>
      || EventOf(s'.phases[d]) == EventOf(s.phases[d])
      || EventOf(s'.phases[d]) == None
      || (s'.phases[d].Allocating? && Tagged(s', d))
  }

  lemma ChooseEvents(cfg: Config, s: Bus, a: Action)
    requires Disciplined(cfg, s) && (a.Begin? || a.Returned? || a.Reject? || a.Accept? || a.RejectData? || a.Match?)
    ensures SameEvents(s, Step(cfg, s, a))
  {
    if a.dev < |s.phases| {
      assert PhaseOk(s, a.dev);
      if a.Begin? {
        BeginEvents(s, a.dev, a.block);
      } else if a.Returned? {
        ReturnedEvents(s, a.dev);
      } else {
        BuildEvents(cfg, s, a);
      }
    }
  }

  lemma BeginEvents(s: Bus, d: nat, b: nat)
    requires d < |s.phases|
    ensures SameEvents(s, StepBegin(s, d, b))
  {
  }

  lemma ReturnedEvents(s: Bus, d: nat)
    requires d < |s.phases| && (s.phases[d].Allocating? ==> s.slot == s.phases[d].mine)
    ensures SameEvents(s, StepReturned(s, d))
  {
    hide Tagged;
  }

  lemma BuildEvents(cfg: Config, s: Bus, a: Action)
    requires (a.Reject? || a.Accept? || a.RejectData? || a.Match?) && a.dev < |s.phases|
    ensures SameEvents(s, Step(cfg, s, a))
  {
    hide Count, Tagged;
  }

  lemma AdvanceEvents(cfg: Config, s: Bus, d: nat)
    requires d < |s.phases|
    ensures SameEvents(s, StepAdvance(cfg, s, d))
  {
    if s.phases[d].Locking? || s.phases[d].Notifying? {
      AdvanceMutex(cfg, s, d);
      hide Count, SetCount, FreeEvent, Tagged;
    } else if !s.phases[d].Loaded? && !s.phases[d].Storing? && !s.phases[d].Queueing? {
      AdvancePhase(cfg, s, d);
      OwnEvent(cfg, s, d);
      hide StepAdvance, Tagged;
    } else {
      hide Count, SetCount, FreeEvent, Tagged;
    }
  }

  /** The call keeps its event, or is over. */
  predicate SameEvent(p: Phase, p': Phase) {
    EventOf(p') == EventOf(p) || EventOf(p') == None
  }

  lemma OwnEvent(cfg: Config, s: Bus, d: nat)
    requires d < |s.phases| && d < |StepAdvance(cfg, s, d).phases|
    requires !s.phases[d].Loaded? && !s.phases[d].Storing? && !s.phases[d].Queueing?
    requires !s.phases[d].Locking? && !s.phases[d].Notifying?
    ensures SameEvent(s.phases[d], StepAdvance(cfg, s, d).phases[d])
  {
    hide StepAdvance, SameEvent;
    if s.phases[d].Replacing? || s.phases[d].FreeingPrev? || s.phases[d].Zeroing? || s.phases[d].Retaining? {
      CountingEvent(cfg, s, d);
    } else {
      EndingEvent(cfg, s, d);
    }
  }

  lemma CountingEvent(cfg: Config, s: Bus, d: nat)
    requires d < |s.phases| && d < |StepAdvance(cfg, s, d).phases|
    requires s.phases[d].Replacing? || s.phases[d].FreeingPrev? || s.phases[d].Zeroing? || s.phases[d].Retaining?
    ensures SameEvent(s.phases[d], StepAdvance(cfg, s, d).phases[d])
  {
    hide Count;
  }

  lemma EndingEvent(cfg: Config, s: Bus, d: nat)
    requires d < |s.phases| && d < |StepAdvance(cfg, s, d).phases|
    requires s.phases[d].Idle? || s.phases[d].Allocating? || s.phases[d].Fresh? || s.phases[d].Testing?
             || s.phases[d].FreeingLast? || s.phases[d].Failing?
    ensures SameEvent(s.phases[d], StepAdvance(cfg, s, d).phases[d])
  {
    hide Count;
  }

  lemma StepEvents(cfg: Config, s: Bus, a: Action)
    requires Disciplined(cfg, s)
    ensures SameEvents(s, Step(cfg, s, a))
  {
    if a.Advance? {
      if a.dev < |s.phases| { AdvanceEvents(cfg, s, a.dev); }
    } else if OfProducer(a) {
      ChooseEvents(cfg, s, a);
    } else if Quiet(a) {
      QuietShape(cfg, s, a);
    }
  }

  lemma TaggedStep(cfg: Config, s: Bus, a: Action, d: nat)
    requires Inv(cfg, s) && Inv(cfg, Step(cfg, s, a)) && d < |s.phases| && d < |Step(cfg, s, a).phases| && Tagged(s, d)
    ensures Tagged(Step(cfg, s, a), d)
  {
    StepEvents(cfg, s, a);
    StepDevs(cfg, s, a);
    EventLive(cfg, Step(cfg, s, a), d);
  }

  // ---------------------------------------------------------------- queues

  /** Queues that lose events or stay as they are. */
  predicate NoLonger(subs: seq<Sub>, subs': seq<Sub>) {
    |subs'| == |subs| &&
    forall i :: 0 <= i < |subs| ==>
      QueueOf(subs'[i]) == QueueOf(subs[i]) || QueueOf(subs'[i]) == []
      || (QueueOf(subs[i]) != [] && QueueOf(subs'[i]) == QueueOf(subs[i])[1..])
  }

  lemma {:induction false} NoLongerRefs(subs: seq<Sub>, subs': seq<Sub>, e: nat)
    requires NoLonger(subs, subs')
    ensures QueueRefs(subs', e) <= QueueRefs(subs, e)
    ensures forall i :: 0 <= i < |subs| ==> Occurrences(QueueOf(subs'[i]), e) <= Occurrences(QueueOf(subs[i]), e)
  {
    if subs != [] {
      NoLongerRefs(subs[1..], subs'[1..], e);
      assert forall i :: 1 <= i < |subs| ==> subs[i] == subs[1..][i - 1] && subs'[i] == subs'[1..][i - 1];
    }
  }

  lemma {:induction false} NowhereQueued(subs: seq<Sub>, e: nat)
    requires QueueRefs(subs, e) == 0
    ensures forall i :: 0 <= i < |subs| ==> Occurrences(QueueOf(subs[i]), e) == 0
  {
    if subs != [] {
      NowhereQueued(subs[1..], e);
      assert forall i :: 1 <= i < |subs| ==> subs[i] == subs[1..][i - 1];
    }
  }

  /** Every step but the put of a matched event. */
  predicate Puts(s: Bus, a: Action) {
    a.Advance? && a.dev < |s.phases| && s.phases[a.dev].Queueing?
  }

  lemma AdvanceQueues(cfg: Config, s: Bus, d: nat)
    requires d < |s.phases| && !s.phases[d].Queueing?
    ensures StepAdvance(cfg, s, d).subs == s.subs
  {
    if s.phases[d].Locking? || s.phases[d].Notifying? {
      AdvanceMutex(cfg, s, d);
    } else if !s.phases[d].Loaded? && !s.phases[d].Storing? {
      AdvancePhase(cfg, s, d);
    }
  }

  lemma TakeQueues(s: Bus, i: nat)
    ensures NoLonger(s.subs, StepTake(s, i).subs)
    ensures NoLonger(s.subs, StepDrain(s, i).subs)
  {
  }

  lemma SubBeginQueues(s: Bus, t: nat, i: nat)
    ensures NoLonger(s.subs, StepSubBegin(s, t, i).subs)
  {
  }

  lemma SubInitQueues(s: Bus, t: nat, i: nat)
    requires t < |s.subscribers|
    ensures NoLonger(s.subs, StepSubInit(s, t, i).subs)
  {
  }

  lemma SubAppendQueues(s: Bus, t: nat, i: nat)
    requires t < |s.subscribers|
    ensures NoLonger(s.subs, StepSubAppend(s, t, i).subs)
  {
  }

  lemma SubAdvanceQueues(s: Bus, t: nat)
    ensures NoLonger(s.subs, StepSubAdvance(s, t).subs)
  {
    hide StepSubInit, StepSubAppend;
    if t < |s.subscribers| && s.subscribers[t].SubFresh? {
      SubInitQueues(s, t, s.subscribers[t].sub);
    } else if t < |s.subscribers| && s.subscribers[t].SubReady? {
      SubAppendQueues(s, t, s.subscribers[t].sub);
    }
  }

  lemma UnsubscribeQueues(s: Bus, i: nat)
    ensures NoLonger(s.subs, StepUnsubscribe(s, i).subs)
    ensures NoLonger(s.subs, StepRelease(s, i).subs)
  {
  }

  lemma OtherStepsQueues(cfg: Config, s: Bus, a: Action)
    requires !Puts(s, a)
    ensures NoLonger(s.subs, Step(cfg, s, a).subs)
  {
    match a
    case Advance(d) => if d < |s.phases| { AdvanceQueues(cfg, s, d); }
    case Take(i) => TakeQueues(s, i);
    case Drain(i) => TakeQueues(s, i);
    case SubBegin(t, i) => SubBeginQueues(s, t, i);
    case SubAdvance(t) => SubAdvanceQueues(s, t);
    case Unsubscribe(i) => UnsubscribeQueues(s, i);
    case Release(i) => UnsubscribeQueues(s, i);
    case LockLast(i) => IterationQueues(s, i);
    case KeepLast(i) => IterationQueues(s, i);
    case UnlockLast(i) => IterationQueues(s, i);
    case _ => assert Step(cfg, s, a).subs == s.subs;
  }

  lemma IterationQueues(s: Bus, i: nat)
    ensures StepLockLast(s, i).subs == s.subs && StepKeepLast(s, i).subs == s.subs && StepUnlockLast(s, i).subs == s.subs
  {
  }

  /** The phase of another thread, after a step that lengthens no queue. */
  lemma UnofferedFrame(s: Bus, s': Bus, d: nat)
    requires d < |s.phases| && d < |s'.phases| && s'.phases[d] == s.phases[d] && Unoffered(s, d)
    requires NoLonger(s.subs, s'.subs)
    ensures Unoffered(s', d)
  {
    var o := EventOf(s.phases[d]);
    if o.Some? {
      NoLongerRefs(s.subs, s'.subs, o.value);
    }
  }

  /** An event nobody refers to is in no queue. */
  lemma OwnedUnqueued(cfg: Config, s: Bus, d: nat, ev: nat)
    requires Inv(cfg, s) && d < |s.phases| && PhaseOwn(s.phases[d], ev) > 0
    ensures QueueRefs(s.subs, ev) == 0
  {
    assert BlockOk(s, ev);
    PhaseHolds(s, d, ev);
  }

  /** A producer's own step up to and through the notification, without the put. */
  lemma UnofferedOwn(cfg: Config, s: Bus, d: nat)
    requires Inv(cfg, s) && d < |s.phases| && Unoffered(s, d) && !s.phases[d].Queueing?
    requires d < |StepAdvance(cfg, s, d).phases|
    ensures Unoffered(StepAdvance(cfg, s, d), d)
  {
    match s.phases[d]
    case Zeroing(ev, k) =>
      OwnedUnqueued(cfg, s, d, ev);
      assert StepAdvance(cfg, s, d).subs == s.subs;
    case Retaining(ev, k) =>
      OwnedUnqueued(cfg, s, d, ev);
      assert StepAdvance(cfg, s, d).subs == s.subs;
    case Storing(ev, k) => assert StepAdvance(cfg, s, d).subs == s.subs;
    case Locking(ev, k) => NowhereQueued(s.subs, ev);
    case Notifying(ev, k, todo) => assert StepAdvance(cfg, s, d).subs == s.subs;
    case _ => UnofferedElse(cfg, s, d);
  }

  lemma UnofferedElse(cfg: Config, s: Bus, d: nat)
    requires d < |s.phases| && d < |StepAdvance(cfg, s, d).phases|
    requires match s.phases[d]
             case Zeroing(_, _) => false
             case Retaining(_, _) => false
             case Storing(_, _) => false
             case Locking(_, _) => false
             case Notifying(_, _, _) => false
             case Queueing(_, _, _) => false
             case _ => true
    ensures Unoffered(StepAdvance(cfg, s, d), d)
  {
    hide Count, NoRepeat, InNoQueue, QueueRefs;
  }

  lemma TodoRest(subs: seq<Sub>, todo: seq<nat>, ev: nat)
    requires NoRepeat(todo) && InNoQueue(subs, todo, ev) && todo != []
    ensures NoRepeat(todo[1..]) && InNoQueue(subs, todo[1..], ev) && todo[0] !in todo[1..]
  {
    assert forall x :: x in todo[1..] ==> x in todo;
    assert forall j :: 0 <= j < |todo| - 1 ==> todo[1..][j] == todo[j + 1] != todo[0];
  }

  lemma UnofferedMatch(s: Bus, d: nat, yes: bool)
    requires d < |s.phases| && Unoffered(s, d)
    ensures d < |StepMatch(s, d, yes).phases| && Unoffered(StepMatch(s, d, yes), d)
  {
    if s.phases[d].Notifying? && s.phases[d].todo != [] {
      TodoRest(s.subs, s.phases[d].todo, s.phases[d].ev);
    }
  }

  /** Steps that queue nothing keep what every thread knows about the queues. */
  lemma UnofferedStep(cfg: Config, s: Bus, a: Action, d: nat)
    requires Inv(cfg, s) && d < |s.phases| && Unoffered(s, d) && !Puts(s, a)
    requires d < |Step(cfg, s, a).phases|
    ensures Unoffered(Step(cfg, s, a), d)
  {
    OtherStepsQueues(cfg, s, a);
    if OfProducer(a) && a.dev == d {
      if a.Advance? { UnofferedOwn(cfg, s, d); }
      if a.Match? { UnofferedMatch(s, d, a.yes); }
    } else {
      SamePhase(cfg, s, a, d);
      UnofferedFrame(s, Step(cfg, s, a), d);
    }
  }

  lemma SamePhase(cfg: Config, s: Bus, a: Action, d: nat)
    requires Disciplined(cfg, s) && d < |s.phases| && (OfProducer(a) ==> a.dev != d)
    ensures d < |Step(cfg, s, a).phases| && Step(cfg, s, a).phases[d] == s.phases[d]
  {
    if a.Advance? {
      if a.dev < |s.phases| { assert PhaseOk(s, a.dev); AdvanceOwn(cfg, s, a.dev); }
    } else if OfProducer(a) {
      OtherDevice(cfg, s, a, d);
    } else if Quiet(a) {
      QuietShape(cfg, s, a);
    } else {
      NoDevice(cfg, s, a);
    }
  }

  lemma OtherDevice(cfg: Config, s: Bus, a: Action, d: nat)
    requires OfProducer(a) && !a.Advance? && a.dev != d && d < |s.phases|
    ensures d < |Step(cfg, s, a).phases| && Step(cfg, s, a).phases[d] == s.phases[d]
  {
    hide Count, CountReason;
  }

  lemma NoDevice(cfg: Config, s: Bus, a: Action)
    requires a.SubAdvance? || a.Unsubscribe? || a.LockLast? || a.UnlockLast?
    ensures Step(cfg, s, a).phases == s.phases
  {
    hide Count;
  }

  lemma PutOnce(cfg: Config, s: Bus, d: nat, i: nat, e: nat)
    requires Inv(cfg, s) && Once(s) && d < |s.phases| && s.phases[d].Queueing? && Unoffered(s, d)
    requires s.phases[d].todo != []
    requires i < |s.subs| && i < |StepAdvance(cfg, s, d).subs|
    ensures Occurrences(QueueOf(StepAdvance(cfg, s, d).subs[i]), e) <= 1
    ensures e != s.phases[d].ev ==>
      Occurrences(QueueOf(StepAdvance(cfg, s, d).subs[i]), e) == Occurrences(QueueOf(s.subs[i]), e)
    ensures i != s.phases[d].todo[0] ==>
      Occurrences(QueueOf(StepAdvance(cfg, s, d).subs[i]), e) == Occurrences(QueueOf(s.subs[i]), e)
  {
    assert PhaseOk(s, d);
    var Queueing(ev, k, todo) := s.phases[d];
    assert todo[0] in todo;
    OccurrencesSnoc(s.subs[todo[0]].queue, ev, e);
    assert Occurrences(QueueOf(s.subs[i]), e) <= 1;
  }

  /** Another thread's event is not the one being queued. */
  lemma UnofferedPut(cfg: Config, s: Bus, d0: nat, d: nat)
    requires Inv(cfg, s) && Linked(s) && d0 < |s.phases| && s.phases[d0].Queueing? && d < |s.phases|
    requires d < |StepAdvance(cfg, s, d0).phases|
    ensures Unoffered(StepAdvance(cfg, s, d0), d)
  {
    var s' := StepAdvance(cfg, s, d0);
    assert PhaseOk(s, d0) && Tagged(s, d0) && Tagged(s, d) && Unoffered(s, d0) && Unoffered(s, d);
    var Queueing(ev, k, todo) := s.phases[d0];
    assert todo[0] in todo;
    AdvanceOwn(cfg, s, d0);
    if d == d0 {
      TodoRest(s.subs, todo, ev);
      forall i | i in todo[1..] && i < |s'.subs|
        ensures Occurrences(QueueOf(s'.subs[i]), ev) == 0
      {
        PutOnce(cfg, s, d0, i, ev);
      }
    } else if EventOf(s.phases[d]).Some? {
      var x := EventOf(s.phases[d]).value;
      assert x != ev;
      PutQueues(s.subs, todo[0], ev, x);
      forall i | 0 <= i < |s.subs|
        ensures Occurrences(QueueOf(s'.subs[i]), x) == Occurrences(QueueOf(s.subs[i]), x)
      {
        PutOnce(cfg, s, d0, i, x);
      }
    }
  }

  lemma OnceStep(cfg: Config, s: Bus, a: Action)
    requires Inv(cfg, s) && Linked(s)
    ensures Once(Step(cfg, s, a))
  {
    var s' := Step(cfg, s, a);
    forall i, e: nat | 0 <= i < |s'.subs|
      ensures Occurrences(QueueOf(s'.subs[i]), e) <= 1
    {
      if Puts(s, a) {
        assert PhaseOk(s, a.dev) && Unoffered(s, a.dev);
        AdvanceOwn(cfg, s, a.dev);
        PutOnce(cfg, s, a.dev, i, e);
      } else {
        OtherStepsQueues(cfg, s, a);
        NoLongerRefs(s.subs, s'.subs, e);
        assert Occurrences(QueueOf(s.subs[i]), e) <= 1;
      }
    }
  }

  lemma LinkedStep(cfg: Config, s: Bus, a: Action)
    requires Inv(cfg, s) && Linked(s) && Retains(cfg) && Obeys(ALL, s, a)
    ensures Linked(Step(cfg, s, a))
  {
    var s' := Step(cfg, s, a);
    StepKeeps(cfg, s, a);
    OnceStep(cfg, s, a);
    forall d | 0 <= d < |s'.phases|
      ensures Tagged(s', d) && Unoffered(s', d)
    {
      assert Tagged(s, d) && Unoffered(s, d);
      TaggedStep(cfg, s, a, d);
      if Puts(s, a) { UnofferedPut(cfg, s, a.dev, d); } else { UnofferedStep(cfg, s, a, d); }
    }
  }

  lemma {:induction false} RunLinked(cfg: Config, s: Bus, acts: seq<Action>)
    requires Inv(cfg, s) && Linked(s) && Retains(cfg) && ObeyingRun(ALL, cfg, s, acts)
    ensures Linked(Run(cfg, s, acts))
    decreases |acts|
  {
    if acts != [] {
      StepKeeps(cfg, s, acts[0]);
      LinkedStep(cfg, s, acts[0]);
      RunLinked(cfg, Step(cfg, s, acts[0]), acts[1..]);
    }
  }

  /** In every safe run no queue holds an event twice, and a thread's event carries its device. */
  lemma QueuedOnce(cfg: Config, acts: seq<Action>)
    requires Retains(cfg) && ObeyingRun(ALL, cfg, Start(cfg), acts)
    ensures var s := Run(cfg, Start(cfg), acts);
            && (forall i, e: nat :: 0 <= i < |s.subs| ==> Occurrences(QueueOf(s.subs[i]), e) <= 1)
            && (forall d :: 0 <= d < |s.phases| ==> Tagged(s, d))
  {
    StartOk(cfg);
    RunLinked(cfg, Start(cfg), acts);
  }
}
