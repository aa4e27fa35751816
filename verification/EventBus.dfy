/**
 The event bus of the home-automation core: reference-counted events in a slab,
 retained by device endpoints, queued to subscriptions, taken by consumers and
 drained on unsubscription.

 Each action below is one atomic step of one thread: a slab operation, an atomic
 increment or decrement, a queue operation, a store. A run over an
 arbitrary list of actions is an arbitrary interleaving of one producer per
 device, of the threads that subscribe, and of any number of consumers. Touching a
 freed event, freeing an event twice or with references left, touching a freed
 subscription, or initialising or listing one that is in use sets `fault`.
 */
module EventBus {

  import opened Common

  /** Slab sizes, threads, and for each endpoint (two a device) whether it retains its last event. */
  datatype Config = Config(pool: nat, devices: nat, maxSubs: nat, threads: nat, retain: seq<bool>)

  predicate ValidConfig(cfg: Config) {
    |cfg.retain| == 2 * cfg.devices
  }

  /** A block of the event slab: `ref_count`, `data_size` and the device of a live event. */
  datatype Block = Unused | Live(rc: int, size: nat, dev: nat)

  /** `last_data_event` of an endpoint, and the references device iteration holds on it. */
  datatype Endpoint = Endpoint(last: Option<nat>, locks: nat)

  /** A block of the subscription slab: free, allocated, initialised, on the list, or taken off it. */
  datatype Sub = NoSub | Raw | Ready | Listed(queue: seq<nat>) | Draining(queue: seq<nat>)

  /** Where `ha_subscribe` stands in one thread. */
  datatype Subscriber =
    | Outside
    | SubAllocating(mine: Option<nat>)
    | SubFresh(sub: nat)
    | SubReady(sub: nat)

  datatype Reason = NoEndpoint | BadEndpoint | BadSize | NoDataMemory | IngestFailed

  /** Where `device_process_data` stands in one device's thread. */
  datatype Phase =
    | Idle
    | Allocating(mine: Option<nat>)
    | Fresh(ev: nat)
    | Loaded(ev: nat, k: nat)
    | Failing(ev: nat)
    | Replacing(ev: nat, k: nat, prev: nat)
    | FreeingPrev(ev: nat, k: nat, prev: nat)
    | Zeroing(ev: nat, k: nat)
    | Retaining(ev: nat, k: nat)
    | Storing(ev: nat, k: nat)
    | Locking(ev: nat, k: nat)
    | Notifying(ev: nat, k: nat, todo: seq<nat>)
    | Queueing(ev: nat, k: nat, todo: seq<nat>)
    | Testing(ev: nat, k: nat)
    | FreeingLast(ev: nat)

  /** The counters of `struct ha_stats` that events move, and the number of processing calls. */
  datatype Stats = Stats(
    calls: nat,
    ev: nat,
    dropped: nat,
    noMem: nat,
    noEp: nat,
    badEp: nat,
    badSize: nat,
    noDataMem: nat,
    ingest: nat,
    neverRef: nat,
    evCount: int,
    evRemaining: int,
    heap: int)

  datatype Bus = Bus(
    blocks: seq<Block>,
    slot: Option<nat>,
    eps: seq<Endpoint>,
    subs: seq<Sub>,
    subSlot: Option<nat>,
    subscribers: seq<Subscriber>,
    handles: multiset<nat>,
    list: seq<nat>,
    lock: Option<nat>,
    phases: seq<Phase>,
    held: multiset<nat>,
    dying: multiset<nat>,
    fault: bool,
    stats: Stats)

  datatype Action =
    | Begin(dev: nat, block: nat)
    | Returned(dev: nat)
    | Reject(dev: nat, reason: Reason)
    | Accept(dev: nat, k: nat, size: nat)
    | RejectData(dev: nat)
    | Advance(dev: nat)
    | Match(dev: nat, yes: bool)
    | Take(sub: nat)
    | Drain(sub: nat)
    | Ref(ev: nat)
    | Unref(ev: nat)
    | Reap(ev: nat)
    | SubBegin(thread: nat, sub: nat)
    | SubAdvance(thread: nat)
    | Unsubscribe(sub: nat)
    | Release(sub: nat)
    | LockLast(ep: nat)
    | KeepLast(ep: nat)
    | UnlockLast(ep: nat)

  function Start(cfg: Config): Bus {
    Bus(seq(cfg.pool, _ => Unused), None, seq(2 * cfg.devices, _ => Endpoint(None, 0)),
        seq(cfg.maxSubs, _ => NoSub), None, seq(cfg.threads, _ => Outside), multiset{},
        [], None, seq(cfg.devices, _ => Idle),
        multiset{}, multiset{}, false,
        Stats(0, 0, 0, 0, 0, 0, 0, 0, 0, 0, 0, cfg.pool, 0))
  }

  // ---------------------------------------------------------------- primitives

  function At(blocks: seq<Block>, e: nat): Block {
    if e < |blocks| then blocks[e] else Unused
  }

  /** `atomic_inc`, `atomic_dec` or `atomic_set` on an event's reference count. */
  function SetCount(s: Bus, e: nat, rc: int): Bus {
    if At(s.blocks, e).Live? then s.(blocks := s.blocks[e := s.blocks[e].(rc := rc)])
    else s.(fault := true)
  }

  function Count(s: Bus, e: nat): int {
    if At(s.blocks, e).Live? then s.blocks[e].rc else 0
  }

  function SizeOf(b: Block): nat {
    if b.Live? then b.size else 0
  }

  /** `ha_ev_free` before the slab operation: the data of the event leaves the heap counter. */
  function ForgetData(s: Bus, e: nat): Bus {
    s.(stats := s.stats.(heap := s.stats.heap - SizeOf(At(s.blocks, e))))
  }

  /** `k_mem_slab_free` and the counters after it: the in-code assertion demands a zero count. */
  function FreeEvent(s: Bus, e: nat): Bus {
    if At(s.blocks, e).Live? && s.blocks[e].rc == 0 then
      s.(blocks := s.blocks[e := Unused],
         stats := s.stats.(evCount := s.stats.evCount - 1,
                           evRemaining := s.stats.evRemaining + 1))
    else s.(fault := true)
  }

  function SetPhase(s: Bus, d: nat, p: Phase): Bus
    requires d < |s.phases|
  {
    s.(phases := s.phases[d := p])
  }

  function QueueOf(sub: Sub): seq<nat> {
    if sub.Listed? || sub.Draining? then sub.queue else []
  }

  function CountReason(st: Stats, r: Reason): Stats {
    match r
    case NoEndpoint => st.(noEp := st.noEp + 1)
    case BadEndpoint => st.(badEp := st.badEp + 1)
    case BadSize => st.(badSize := st.badSize + 1)
    case NoDataMemory => st.(noDataMem := st.noDataMem + 1)
    case IngestFailed => st.(ingest := st.ingest + 1)
  }

  // ---------------------------------------------------------------- producer steps

  /** `k_mem_slab_alloc` into the function's static variable: a block, or NULL when none is left. */
  function StepBegin(s: Bus, d: nat, b: nat): Bus {
    if d >= |s.phases| || !s.phases[d].Idle? then s
    else if b < |s.blocks| && s.blocks[b].Unused? then
      SetPhase(s, d, Allocating(Some(b))).(
        blocks := s.blocks[b := Live(0, 0, d)],
        slot := Some(b),
        stats := s.stats.(calls := s.stats.calls + 1,
                          evCount := s.stats.evCount + 1,
                          evRemaining := s.stats.evRemaining - 1))
    else if forall i :: 0 <= i < |s.blocks| ==> s.blocks[i].Live? then
      SetPhase(s, d, Allocating(None)).(slot := None, stats := s.stats.(calls := s.stats.calls + 1))
    else s
  }

  /** `return ev;` reads the static variable back; NULL drops the data. */
  function StepReturned(s: Bus, d: nat): Bus {
    if d >= |s.phases| || !s.phases[d].Allocating? then s
    else if s.slot.Some? then SetPhase(s, d, Fresh(s.slot.value))
    else SetPhase(s, d, Idle).(
           stats := s.stats.(dropped := s.stats.dropped + 1, noMem := s.stats.noMem + 1))
  }

  function StepReject(s: Bus, d: nat, r: Reason): Bus {
    if d >= |s.phases| || !s.phases[d].Fresh? || r.IngestFailed? then s
    else SetPhase(ForgetData(s.(stats := CountReason(s.stats, r)), s.phases[d].ev), d, Failing(s.phases[d].ev))
  }

  /** Endpoint chosen and data buffer allocated. */
  function StepAccept(s: Bus, d: nat, k: nat, size: nat): Bus {
    if d >= |s.phases| || !s.phases[d].Fresh? || k >= 2 then s
    else
      var ev := s.phases[d].ev;
      if At(s.blocks, ev).Live? then
        SetPhase(s, d, Loaded(ev, k)).(
          blocks := if size > 0 then s.blocks[ev := s.blocks[ev].(size := size)] else s.blocks,
          stats := s.stats.(heap := s.stats.heap + size))
      else s.(fault := true)
  }

  function StepRejectData(s: Bus, d: nat): Bus {
    if d >= |s.phases| || !s.phases[d].Loaded? then s
    else SetPhase(ForgetData(s.(stats := CountReason(s.stats, IngestFailed)), s.phases[d].ev), d,
                  Failing(s.phases[d].ev))
  }

  /** Device iteration has locked an endpoint of this device. */
  predicate Locked(s: Bus, d: nat) {
    2 * d + 1 < |s.eps| && (s.eps[2 * d].locks > 0 || s.eps[2 * d + 1].locks > 0)
  }

  /** `ep->last_data_event = NULL`: the reference passes to the producer. */
  function StepClear(s: Bus, d: nat, ev: nat, k: nat): Bus
    requires d < |s.phases|
  {
    if 2 * d + k >= |s.eps| then s
    else if s.eps[2 * d + k].last.Some? then
      SetPhase(s, d, Replacing(ev, k, s.eps[2 * d + k].last.value)).(
        eps := s.eps[2 * d + k := s.eps[2 * d + k].(last := None)])
    else SetPhase(s, d, Zeroing(ev, k))
  }

  /** `ha_ev_unref` of the previous event: the decrement, then the free if the count was 1. */
  function StepDropPrev(s: Bus, d: nat, ev: nat, k: nat, prev: nat): Bus
    requires d < |s.phases|
  {
    if Count(s, prev) == 1 then SetPhase(SetCount(ForgetData(s, prev), prev, 0), d, FreeingPrev(ev, k, prev))
    else SetPhase(SetCount(s, prev, Count(s, prev) - 1), d, Zeroing(ev, k))
  }

  /** `atomic_set(&ev->ref_count, 0)`, then the branch on the endpoint's retain flag. */
  function StepZero(cfg: Config, s: Bus, d: nat, ev: nat, k: nat): Bus
    requires d < |s.phases|
  {
    SetPhase(SetCount(s, ev, 0), d,
             if 2 * d + k < |cfg.retain| && cfg.retain[2 * d + k] then Retaining(ev, k) else Locking(ev, k))
  }

  /** `ep->last_data_event = ev`. */
  function StepStore(s: Bus, d: nat, ev: nat, k: nat): Bus
    requires d < |s.phases|
  {
    if 2 * d + k >= |s.eps| then s
    else SetPhase(s, d, Locking(ev, k)).(eps := s.eps[2 * d + k := s.eps[2 * d + k].(last := Some(ev))])
  }

  /** `k_fifo_put` on the subscription that matched. */
  function StepPut(s: Bus, d: nat, ev: nat, k: nat, todo: seq<nat>): Bus
    requires d < |s.phases|
  {
    if todo == [] then s
    else if todo[0] < |s.subs| && s.subs[todo[0]].Listed? then
      SetPhase(s, d, Notifying(ev, k, todo[1..])).(
        subs := s.subs[todo[0] := Listed(s.subs[todo[0]].queue + [ev])])
    else s.(fault := true)
  }

  /** The mutex is released, and the event counted as processed. */
  function StepUnlock(s: Bus, d: nat, ev: nat, k: nat): Bus
    requires d < |s.phases|
  {
    SetPhase(s, d, Testing(ev, k)).(lock := None, stats := s.stats.(ev := s.stats.ev + 1))
  }

  /** The final `atomic_get`: it reads the event's memory once more. */
  function StepTest(s: Bus, d: nat, ev: nat): Bus
    requires d < |s.phases|
  {
    if !At(s.blocks, ev).Live? then SetPhase(s, d, Idle).(fault := true)
    else if Count(s, ev) == 0 then SetPhase(ForgetData(s, ev), d, FreeingLast(ev))
    else SetPhase(s, d, Idle)
  }

  function StepFreeLast(s: Bus, d: nat, ev: nat): Bus
    requires d < |s.phases|
  {
    var s' := FreeEvent(s, ev);
    SetPhase(s', d, Idle).(stats := s'.stats.(neverRef := s'.stats.neverRef + 1))
  }

  function StepDrop(s: Bus, d: nat, ev: nat): Bus
    requires d < |s.phases|
  {
    var s' := FreeEvent(s, ev);
    SetPhase(s', d, Idle).(stats := s'.stats.(dropped := s'.stats.dropped + 1))
  }

  /** The straight-line rest of `device_process_data`, one atomic operation at a time. */
  function StepAdvance(cfg: Config, s: Bus, d: nat): Bus {
    if d >= |s.phases| then s
    else match s.phases[d]
      case Loaded(ev, k) => StepClear(s, d, ev, k)
      case Replacing(ev, k, prev) => StepDropPrev(s, d, ev, k, prev)
      case FreeingPrev(ev, k, prev) => SetPhase(FreeEvent(s, prev), d, Zeroing(ev, k))
      case Zeroing(ev, k) => StepZero(cfg, s, d, ev, k)
      case Retaining(ev, k) => SetPhase(SetCount(s, ev, Count(s, ev) + 1), d, Storing(ev, k))
      case Storing(ev, k) => StepStore(s, d, ev, k)
      case Locking(ev, k) =>
        if s.lock.Some? then s else SetPhase(s, d, Notifying(ev, k, s.list)).(lock := Some(d))
      case Notifying(ev, k, todo) =>
        if todo != [] then s else StepUnlock(s, d, ev, k)
      case Queueing(ev, k, todo) => StepPut(s, d, ev, k, todo)
      case Testing(ev, _) => StepTest(s, d, ev)
      case FreeingLast(ev) => StepFreeLast(s, d, ev)
      case Failing(ev) => StepDrop(s, d, ev)
      case _ => s
  }

  /** `event_match_sub` on the next subscription; on a match the event is referenced before it is queued. */
  function StepMatch(s: Bus, d: nat, yes: bool): Bus {
    if d >= |s.phases| || !s.phases[d].Notifying? || s.phases[d].todo == [] then s
    else
      var Notifying(ev, k, todo) := s.phases[d];
      if yes then SetPhase(SetCount(s, ev, Count(s, ev) + 1), d, Queueing(ev, k, todo))
      else SetPhase(s, d, Notifying(ev, k, todo[1..]))
  }

  // ---------------------------------------------------------------- consumer steps

  function Taken(s: Bus, i: nat): Bus
    requires i < |s.subs| && QueueOf(s.subs[i]) != []
  {
    s.(subs := s.subs[i := s.subs[i].(queue := s.subs[i].queue[1..])],
       held := s.held + multiset{s.subs[i].queue[0]})
  }

  /** `ha_ev_wait` through the handle of a subscription. */
  function StepTake(s: Bus, i: nat): Bus {
    if i !in s.handles then s
    else if i >= |s.subs| || s.subs[i].NoSub? then s.(fault := true)
    else if s.subs[i].Listed? && s.subs[i].queue != [] then Taken(s, i)
    else s
  }

  /** `ha_unsubscribe` empties the queue. */
  function StepDrain(s: Bus, i: nat): Bus {
    if i < |s.subs| && s.subs[i].Draining? && s.subs[i].queue != [] then Taken(s, i) else s
  }

  function StepRef(s: Bus, e: nat): Bus {
    if e in s.held then SetCount(s, e, Count(s, e) + 1).(held := s.held + multiset{e}) else s
  }

  /** `atomic_dec` of `ha_ev_unref`; a count that fell from 1 leaves the slab operation to a later step. */
  function Dropped(s: Bus, e: nat): Bus {
    if Count(s, e) == 1 then SetCount(ForgetData(s, e), e, 0).(dying := s.dying + multiset{e})
    else SetCount(s, e, Count(s, e) - 1)
  }

  function StepUnref(s: Bus, e: nat): Bus {
    if e !in s.held then s
    else Dropped(s, e).(held := s.held - multiset{e})
  }

  function StepReap(s: Bus, e: nat): Bus {
    if e in s.dying then FreeEvent(s, e).(dying := s.dying - multiset{e}) else s
  }

  function Without(list: seq<nat>, i: nat): seq<nat> {
    if list == [] then []
    else if list[0] == i then list[1..]
    else [list[0]] + Without(list[1..], i)
  }

  function SetSubscriber(s: Bus, t: nat, p: Subscriber): Bus
    requires t < |s.subscribers|
  {
    s.(subscribers := s.subscribers[t := p])
  }

  /** `k_mem_slab_alloc` into the static variable of `sub_alloc`; NULL when no block is left. */
  function StepSubBegin(s: Bus, t: nat, i: nat): Bus {
    if t >= |s.subscribers| || !s.subscribers[t].Outside? then s
    else if i < |s.subs| && s.subs[i].NoSub? then
      SetSubscriber(s, t, SubAllocating(Some(i))).(subs := s.subs[i := Raw], subSlot := Some(i))
    else if forall j :: 0 <= j < |s.subs| ==> !s.subs[j].NoSub? then
      SetSubscriber(s, t, SubAllocating(None)).(subSlot := None)
    else s
  }

  /** `sub_init` of the block that the thread read back: one that is free or in use must not be initialised. */
  function StepSubInit(s: Bus, t: nat, i: nat): Bus
    requires t < |s.subscribers|
  {
    if i < |s.subs| && (s.subs[i].Raw? || s.subs[i].Ready?) then
      SetSubscriber(s, t, SubReady(i)).(subs := s.subs[i := Ready])
    else s.(fault := true)
  }

  /** `sys_dlist_append` under the mutex, and the handle for the caller: a block is listed once. */
  function StepSubAppend(s: Bus, t: nat, i: nat): Bus
    requires t < |s.subscribers|
  {
    if s.lock.Some? then s
    else if i < |s.subs| && s.subs[i].Ready? then
      SetSubscriber(s, t, Outside).(
        subs := s.subs[i := Listed([])], list := s.list + [i], handles := s.handles + multiset{i})
    else s.(fault := true)
  }

  /** The rest of `ha_subscribe`: the static variable is read back, then the block initialised and listed. */
  function StepSubAdvance(s: Bus, t: nat): Bus {
    if t >= |s.subscribers| then s
    else match s.subscribers[t]
      case Outside => s
      case SubAllocating(_) => SetSubscriber(s, t, if s.subSlot.Some? then SubFresh(s.subSlot.value) else Outside)
      case SubFresh(i) => StepSubInit(s, t, i)
      case SubReady(i) => StepSubAppend(s, t, i)
  }

  /** `ha_unsubscribe` up to the removal from the list, through the handle. */
  function StepUnsubscribe(s: Bus, i: nat): Bus {
    if i !in s.handles || s.lock.Some? then s
    else if i >= |s.subs| || s.subs[i].NoSub? then s.(fault := true)
    else if s.subs[i].Listed? then
      s.(subs := s.subs[i := Draining(s.subs[i].queue)], list := Without(s.list, i), handles := s.handles - multiset{i})
    else s.(handles := s.handles - multiset{i})
  }

  function StepRelease(s: Bus, i: nat): Bus {
    if i < |s.subs| && s.subs[i].Draining? && s.subs[i].queue == [] then
      s.(subs := s.subs[i := NoSub])
    else s
  }

  /** `dev_ep_lock_ev_mask` on one endpoint; without an event the endpoint is marked all the same. */
  function StepLockLast(s: Bus, i: nat): Bus {
    if i >= |s.eps| then s
    else
      var locked := s.eps[i := s.eps[i].(locks := s.eps[i].locks + 1)];
      match s.eps[i].last
      case Some(e) => SetCount(s, e, Count(s, e) + 1).(eps := locked)
      case None => s.(eps := locked)
  }

  /** The iteration callback keeps a reference of its own on a locked event. */
  function StepKeepLast(s: Bus, i: nat): Bus {
    if i < |s.eps| && s.eps[i].locks > 0 && s.eps[i].last.Some? then
      var e := s.eps[i].last.value;
      SetCount(s, e, Count(s, e) + 1).(held := s.held + multiset{e})
    else s
  }

  /** `dev_ep_unlock_ev_mask` on one endpoint: unreferences whatever the endpoint holds now. */
  function StepUnlockLast(s: Bus, i: nat): Bus {
    if i >= |s.eps| || s.eps[i].locks == 0 then s
    else
      var unlocked := s.eps[i := s.eps[i].(locks := s.eps[i].locks - 1)];
      match s.eps[i].last
      case Some(e) => Dropped(s, e).(eps := unlocked)
      case None => s.(eps := unlocked)
  }

  function Step(cfg: Config, s: Bus, a: Action): Bus {
    match a
    case Begin(d, b) => StepBegin(s, d, b)
    case Returned(d) => StepReturned(s, d)
    case Reject(d, r) => StepReject(s, d, r)
    case Accept(d, k, size) => StepAccept(s, d, k, size)
    case RejectData(d) => StepRejectData(s, d)
    case Advance(d) => StepAdvance(cfg, s, d)
    case Match(d, yes) => StepMatch(s, d, yes)
    case Take(i) => StepTake(s, i)
    case Drain(i) => StepDrain(s, i)
    case Ref(e) => StepRef(s, e)
    case Unref(e) => StepUnref(s, e)
    case Reap(e) => StepReap(s, e)
    case SubBegin(t, i) => StepSubBegin(s, t, i)
    case SubAdvance(t) => StepSubAdvance(s, t)
    case Unsubscribe(i) => StepUnsubscribe(s, i)
    case Release(i) => StepRelease(s, i)
    case LockLast(i) => StepLockLast(s, i)
    case KeepLast(i) => StepKeepLast(s, i)
    case UnlockLast(i) => StepUnlockLast(s, i)
  }

  function Run(cfg: Config, s: Bus, acts: seq<Action>): Bus
    decreases |acts|
  {
    if acts == [] then s else Run(cfg, Step(cfg, s, acts[0]), acts[1..])
  }

  // ---------------------------------------------------------------- rules a run may keep to

  /** No event allocation starts while another one has not read the static variable back. */
  predicate Serial(s: Bus, a: Action) {
    a.Begin? && a.dev < |s.phases| && s.phases[a.dev].Idle? ==>
      forall d :: 0 <= d < |s.phases| ==> !s.phases[d].Allocating?
  }

  /** The same for the allocation of subscriptions. */
  predicate SerialSub(s: Bus, a: Action) {
    a.SubBegin? && a.thread < |s.subscribers| && s.subscribers[a.thread].Outside? ==>
      forall t :: 0 <= t < |s.subscribers| ==> !s.subscribers[t].SubAllocating?
  }

  /** The documented note on device iteration: no event of the device is added while an endpoint is locked. */
  predicate Calm(s: Bus, a: Action) {
    && (a.Begin? && a.dev < |s.phases| && s.phases[a.dev].Idle? ==> !Locked(s, a.dev))
    && (a.LockLast? && a.ep / 2 < |s.phases| ==> s.phases[a.ep / 2].Idle?)
  }

  /** Which of the three a run keeps to. */
  datatype Rules = Rules(events: bool, subs: bool, calm: bool)

  const ALL: Rules := Rules(true, true, true)

  predicate Obeys(r: Rules, s: Bus, a: Action) {
    (r.events ==> Serial(s, a)) && (r.subs ==> SerialSub(s, a)) && (r.calm ==> Calm(s, a))
  }

  predicate ObeyingRun(r: Rules, cfg: Config, s: Bus, acts: seq<Action>)
    decreases |acts|
  {
    acts == [] || (Obeys(r, s, acts[0]) && ObeyingRun(r, cfg, Step(cfg, s, acts[0]), acts[1..]))
  }

  // ---------------------------------------------------------------- who holds what

  /** References the endpoints hold on `e`: one for retention, one for each iteration lock. */
  function EndpointRefs(eps: seq<Endpoint>, e: nat): nat {
    if eps == [] then 0
    else (if eps[0].last == Some(e) then 1 + eps[0].locks else 0) + EndpointRefs(eps[1..], e)
  }

  function Occurrences(queue: seq<nat>, e: nat): nat {
    if queue == [] then 0 else (if queue[0] == e then 1 else 0) + Occurrences(queue[1..], e)
  }

  /** Occurrences of `e` in the queues of all subscriptions. */
  function QueueRefs(subs: seq<Sub>, e: nat): nat {
    if subs == [] then 0 else Occurrences(QueueOf(subs[0]), e) + QueueRefs(subs[1..], e)
  }

  /** A reference in the hands of a producer: taken from the endpoint, or counted and not stored yet. */
  function PhaseRef(p: Phase, e: nat): nat {
    match p
    case Replacing(_, _, prev) => if prev == e then 1 else 0
    case Storing(ev, _) => if ev == e then 1 else 0
    case Queueing(ev, _, _) => if ev == e then 1 else 0
    case _ => 0
  }

  /** A producer's exclusive ownership: an event being built, or one whose count reached 0. */
  function PhaseOwn(p: Phase, e: nat): nat {
    match p
    case Allocating(mine) => if mine == Some(e) then 1 else 0
    case Fresh(ev) => if ev == e then 1 else 0
    case Loaded(ev, _) => if ev == e then 1 else 0
    case Failing(ev) => if ev == e then 1 else 0
    case Replacing(ev, _, _) => if ev == e then 1 else 0
    case FreeingPrev(ev, _, prev) => (if ev == e then 1 else 0) + (if prev == e then 1 else 0)
    case Zeroing(ev, _) => if ev == e then 1 else 0
    case Retaining(ev, _) => if ev == e then 1 else 0
    case FreeingLast(ev) => if ev == e then 1 else 0
    case _ => 0
  }

  function ProducerRefs(phases: seq<Phase>, e: nat): nat {
    if phases == [] then 0 else PhaseRef(phases[0], e) + ProducerRefs(phases[1..], e)
  }

  function ProducerOwns(phases: seq<Phase>, e: nat): nat {
    if phases == [] then 0 else PhaseOwn(phases[0], e) + ProducerOwns(phases[1..], e)
  }

  /** All references to `e`: endpoints, queues, producers in transit, consumers. */
  function Refs(s: Bus, e: nat): nat {
    EndpointRefs(s.eps, e) + QueueRefs(s.subs, e) + ProducerRefs(s.phases, e) + s.held[e]
  }

  function Owns(s: Bus, e: nat): nat {
    ProducerOwns(s.phases, e) + s.dying[e]
  }
}
