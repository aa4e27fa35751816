/**
 The counters of `struct ha_stats` are plain fields: an update is a load and a
 later store, and another thread may store in between. Here every step of the bus
 leaves its thread with updates to make, one load and one store at a time, in any
 interleaving. A device's thread makes them before its next step.
 */
module EventBusCounters {
  import opened Common
  import opened EventBus
  import opened EventBusSafety
  import opened EventBusLimits
  import opened EventBusStats
  import opened EventBusHeap

  const HEAP: nat := 6
  const EV_COUNT: nat := 7
  const EV_REMAINING: nat := 8
  const EV: nat := 9
  const DROPPED: nat := 10
  const COUNTERS: nat := 12

  /** The totals due, in the order in which the code updates them. */
  function Due(st: Stats): (r: seq<int>)
    ensures |r| == COUNTERS
  {
    [st.noMem, st.noEp, st.badEp, st.badSize, st.noDataMem, st.ingest,
     st.heap, st.evCount, st.evRemaining, st.ev, st.dropped, st.neverRef]
  }

  datatype Update = Update(counter: nat, delta: int)

  /** The updates a thread still has to make, and the value it has loaded for the first of them. */
  datatype Lane = Lane(todo: seq<Update>, reg: Option<int>)

  /** The bus, the counters, and one lane for each device and each step of a consumer that counts. */
  datatype Tally = Tally(bus: Bus, counts: seq<int>, lanes: seq<Lane>)

  datatype Act = Do(a: Action) | Load(lane: nat) | Store(lane: nat)

  /** The updates that lead from `before` to `after`, from counter `c` on. */
  function Updates(before: seq<int>, after: seq<int>, c: nat): seq<Update>
    requires |before| == |after| == COUNTERS
    decreases COUNTERS - c
  {
    if c >= COUNTERS then []
    else (if after[c] == before[c] then [] else [Update(c, after[c] - before[c])]) + Updates(before, after, c + 1)
  }

  function Read(counts: seq<int>, c: nat): int {
    if c < |counts| then counts[c] else 0
  }

  function TallyStart(cfg: Config): Tally {
    Tally(Start(cfg), Due(Start(cfg).stats), seq(cfg.devices, _ => Lane([], None)))
  }

  /** A device's thread has counters to update before its next step. */
  predicate Busy(t: Tally, a: Action) {
    OfProducer(a) && a.dev < |t.lanes| && t.lanes[a.dev].todo != []
  }

  function StepDo(cfg: Config, t: Tally, a: Action): Tally {
    if Busy(t, a) then t
    else
      var bus := Step(cfg, t.bus, a);
      var todo := Updates(Due(t.bus.stats), Due(bus.stats), 0);
      t.(bus := bus,
         lanes := if todo == [] then t.lanes
                  else if OfProducer(a) && a.dev < |t.lanes| then t.lanes[a.dev := Lane(todo, None)]
                  else t.lanes + [Lane(todo, None)])
  }

  predicate CanLoad(t: Tally, j: nat) {
    j < |t.lanes| && t.lanes[j].todo != [] && t.lanes[j].reg.None?
  }

  predicate CanStore(t: Tally, j: nat) {
    j < |t.lanes| && t.lanes[j].todo != [] && t.lanes[j].reg.Some? && t.lanes[j].todo[0].counter < |t.counts|
  }

  function TallyStep(cfg: Config, t: Tally, act: Act): Tally {
    match act
    case Do(a) => StepDo(cfg, t, a)
    case Load(j) =>
      if CanLoad(t, j) then
        t.(lanes := t.lanes[j := Lane(t.lanes[j].todo, Some(Read(t.counts, t.lanes[j].todo[0].counter)))])
      else t
    case Store(j) =>
      if CanStore(t, j) then
        var u := t.lanes[j].todo[0];
        t.(counts := t.counts[u.counter := t.lanes[j].reg.value + u.delta],
           lanes := t.lanes[j := Lane(t.lanes[j].todo[1..], None)])
      else t
  }

  function TallyRun(cfg: Config, t: Tally, acts: seq<Act>): Tally
    decreases |acts|
  {
    if acts == [] then t else TallyRun(cfg, TallyStep(cfg, t, acts[0]), acts[1..])
  }

  predicate TallyObeys(r: Rules, t: Tally, act: Act) {
    act.Do? && !Busy(t, act.a) ==> Obeys(r, t.bus, act.a)
  }

  predicate ObeyingTally(r: Rules, cfg: Config, t: Tally, acts: seq<Act>)
    decreases |acts|
  {
    acts == [] || (TallyObeys(r, t, acts[0]) && ObeyingTally(r, cfg, TallyStep(cfg, t, acts[0]), acts[1..]))
  }

  /** No thread has an update to make. */
  predicate Quiescent(t: Tally) {
    forall j :: 0 <= j < |t.lanes| ==> t.lanes[j].todo == []
  }

  /** What a store takes away from counter `c`: the value it finds less the value it had loaded. */
  function LostBy(t: Tally, act: Act, c: nat): int {
    if act.Store? && CanStore(t, act.lane) && t.lanes[act.lane].todo[0].counter == c then
      t.counts[c] - t.lanes[act.lane].reg.value
    else 0
  }

  function Lost(cfg: Config, t: Tally, acts: seq<Act>, c: nat): int
    decreases |acts|
  {
    if acts == [] then 0 else LostBy(t, acts[0], c) + Lost(cfg, TallyStep(cfg, t, acts[0]), acts[1..], c)
  }

  /** Every store to counter `c` finds the value that its thread had loaded. */
  predicate Undisturbed(cfg: Config, t: Tally, acts: seq<Act>, c: nat)
    decreases |acts|
  {
    acts == [] || (LostBy(t, acts[0], c) == 0 && Undisturbed(cfg, TallyStep(cfg, t, acts[0]), acts[1..], c))
  }

  // ---------------------------------------------------------------- updates still to be made

  function Sum(todo: seq<Update>, c: nat): int {
    if todo == [] then 0 else (if todo[0].counter == c then todo[0].delta else 0) + Sum(todo[1..], c)
  }

  function Outstanding(lanes: seq<Lane>, c: nat): int {
    if lanes == [] then 0 else Sum(lanes[0].todo, c) + Outstanding(lanes[1..], c)
  }

  lemma {:induction false} LaneUpdate(lanes: seq<Lane>, j: nat, l: Lane, c: nat)
    requires j < |lanes|
    ensures Outstanding(lanes[j := l], c) == Outstanding(lanes, c) - Sum(lanes[j].todo, c) + Sum(l.todo, c)
  {
    if j == 0 {
      assert lanes[j := l][1..] == lanes[1..];
    } else {
      assert lanes[j := l][1..] == lanes[1..][j - 1 := l];
      LaneUpdate(lanes[1..], j - 1, l, c);
    }
  }

  lemma {:induction false} LaneSnoc(lanes: seq<Lane>, l: Lane, c: nat)
    ensures Outstanding(lanes + [l], c) == Outstanding(lanes, c) + Sum(l.todo, c)
  {
    if lanes == [] {
      assert lanes + [l] == [l] && [l][1..] == [];
    } else {
      assert (lanes + [l])[1..] == lanes[1..] + [l];
      LaneSnoc(lanes[1..], l, c);
    }
  }

  lemma {:induction false} NoneOutstanding(lanes: seq<Lane>, c: nat)
    requires forall j :: 0 <= j < |lanes| ==> lanes[j].todo == []
    ensures Outstanding(lanes, c) == 0
  {
    if lanes != [] {
      assert forall j :: 0 <= j < |lanes| - 1 ==> lanes[1..][j] == lanes[j + 1];
      NoneOutstanding(lanes[1..], c);
    }
  }

  lemma {:induction false} UpdatesSum(before: seq<int>, after: seq<int>, k: nat, c: nat)
    requires |before| == |after| == COUNTERS && c < COUNTERS
    ensures Sum(Updates(before, after, k), c) == if k <= c then after[c] - before[c] else 0
    decreases COUNTERS - k
  {
    if k < COUNTERS {
      UpdatesSum(before, after, k + 1, c);
      var rest := Updates(before, after, k + 1);
      if after[k] == before[k] {
        assert Updates(before, after, k) == rest;
      } else {
        SumCons(Update(k, after[k] - before[k]), rest, c);
      }
      hide Sum;
    }
  }

  lemma SumCons(u: Update, rest: seq<Update>, c: nat)
    ensures Sum([u] + rest, c) == (if u.counter == c then u.delta else 0) + Sum(rest, c)
  {
    assert ([u] + rest)[1..] == rest;
  }

  lemma {:induction false} UpdatesOf(before: seq<int>, after: seq<int>, k: nat)
    requires |before| == |after| == COUNTERS
    ensures forall u :: u in Updates(before, after, k) ==>
      k <= u.counter < COUNTERS && u.delta == after[u.counter] - before[u.counter] && u.delta != 0
    decreases COUNTERS - k
  {
    if k < COUNTERS { UpdatesOf(before, after, k + 1); }
  }

  // ---------------------------------------------------------------- the identity

  /** Lanes name counters that exist, and have loaded a value only for an update. */
  predicate Shaped(cfg: Config, t: Tally) {
    && |t.counts| == COUNTERS && |t.lanes| >= cfg.devices
    && (forall j :: 0 <= j < |t.lanes| ==> LaneShaped(t.lanes[j]))
  }

  predicate LaneShaped(l: Lane) {
    (l.reg.Some? ==> l.todo != []) && forall u :: u in l.todo ==> u.counter < COUNTERS
  }

  /** The updates a step of the bus calls for. */
  function NewTodo(cfg: Config, t: Tally, a: Action): seq<Update> {
    Updates(Due(t.bus.stats), Due(Step(cfg, t.bus, a).stats), 0)
  }

  lemma DoLanes(cfg: Config, t: Tally, a: Action, c: nat)
    requires !Busy(t, a) && c < COUNTERS
    ensures Outstanding(StepDo(cfg, t, a).lanes, c)
         == Outstanding(t.lanes, c) + Due(Step(cfg, t.bus, a).stats)[c] - Due(t.bus.stats)[c]
  {
    var todo := NewTodo(cfg, t, a);
    UpdatesSum(Due(t.bus.stats), Due(Step(cfg, t.bus, a).stats), 0, c);
    hide Step, Due, Updates;
    if todo != [] {
      if OfProducer(a) && a.dev < |t.lanes| {
        LaneUpdate(t.lanes, a.dev, Lane(todo, None), c);
      } else {
        LaneSnoc(t.lanes, Lane(todo, None), c);
      }
    }
  }

  lemma ShapedStep(cfg: Config, t: Tally, act: Act)
    requires Shaped(cfg, t)
    ensures Shaped(cfg, TallyStep(cfg, t, act))
  {
    if act.Do? {
      UpdatesOf(Due(t.bus.stats), Due(Step(cfg, t.bus, act.a).stats), 0);
      hide Step, Due, Updates;
    }
  }

  predicate Tied(t: Tally, c: nat, lost: int) {
    Read(t.counts, c) + lost + Outstanding(t.lanes, c) == Read(Due(t.bus.stats), c)
  }

  lemma TiedStep(cfg: Config, t: Tally, act: Act, c: nat, lost: int)
    requires Shaped(cfg, t) && c < COUNTERS && Tied(t, c, lost)
    ensures Tied(TallyStep(cfg, t, act), c, lost + LostBy(t, act, c))
  {
    match act
    case Do(a) => if !Busy(t, a) { DoLanes(cfg, t, a, c); hide Step, Due; }
    case Load(j) =>
      if CanLoad(t, j) { LaneUpdate(t.lanes, j, TallyStep(cfg, t, act).lanes[j], c); }
      hide Due;
    case Store(j) =>
      if CanStore(t, j) { LaneUpdate(t.lanes, j, TallyStep(cfg, t, act).lanes[j], c); }
      hide Due;
  }

  lemma {:induction false} RunTied(cfg: Config, t: Tally, acts: seq<Act>, c: nat, lost: int)
    requires Shaped(cfg, t) && c < COUNTERS && Tied(t, c, lost)
    ensures Tied(TallyRun(cfg, t, acts), c, lost + Lost(cfg, t, acts, c))
    ensures Shaped(cfg, TallyRun(cfg, t, acts))
    decreases |acts|
  {
    hide Tied, Shaped, TallyStep, LostBy;
    if acts != [] {
      TiedStep(cfg, t, acts[0], c, lost);
      ShapedStep(cfg, t, acts[0]);
      RunTied(cfg, TallyStep(cfg, t, acts[0]), acts[1..], c, lost + LostBy(t, acts[0], c));
    }
  }

  lemma TallyStarts(cfg: Config, c: nat)
    requires c < COUNTERS
    ensures Shaped(cfg, TallyStart(cfg)) && Tied(TallyStart(cfg), c, 0)
  {
    NoneOutstanding(TallyStart(cfg).lanes, c);
  }

  /** In every run a counter is its total due, less what is still to be stored and what stores have lost. */
  lemma CounterIdentity(cfg: Config, acts: seq<Act>, c: nat)
    requires c < COUNTERS
    ensures var t := TallyRun(cfg, TallyStart(cfg), acts);
            && |t.counts| == COUNTERS
            && t.counts[c] == Due(t.bus.stats)[c] - Outstanding(t.lanes, c) - Lost(cfg, TallyStart(cfg), acts, c)
  {
    hide TallyStart, TallyRun, Lost, Outstanding, Due;
    TallyStarts(cfg, c);
    RunTied(cfg, TallyStart(cfg), acts, c, 0);
  }

  lemma {:induction false} NothingLost(cfg: Config, t: Tally, acts: seq<Act>, c: nat)
    requires Undisturbed(cfg, t, acts, c)
    ensures Lost(cfg, t, acts, c) == 0
    decreases |acts|
  {
    if acts != [] { NothingLost(cfg, TallyStep(cfg, t, acts[0]), acts[1..], c); }
  }

  // ---------------------------------------------------------------- the bus under the counters

  lemma {:induction false} TallyBalance(cfg: Config, t: Tally, acts: seq<Act>)
    requires CallsBalance(t.bus) && EventsBalance(cfg, t.bus)
    ensures var t' := TallyRun(cfg, t, acts); CallsBalance(t'.bus) && EventsBalance(cfg, t'.bus)
    decreases |acts|
  {
    if acts != [] {
      if acts[0].Do? { StepBalance(cfg, t.bus, acts[0].a); }
      hide Step, CallsBalance, EventsBalance;
      TallyBalance(cfg, TallyStep(cfg, t, acts[0]), acts[1..]);
    }
  }

  lemma {:induction false} TallyHeap(cfg: Config, t: Tally, acts: seq<Act>)
    requires Inv(cfg, t.bus) && HeapOk(t.bus) && Retains(cfg) && ObeyingTally(ALL, cfg, t, acts)
    ensures HeapOk(TallyRun(cfg, t, acts).bus)
    decreases |acts|
  {
    hide Step, Inv, HeapOk, Obeys;
    if acts != [] {
      if acts[0].Do? && !Busy(t, acts[0].a) {
        HeapOkStep(cfg, t.bus, acts[0].a);
        StepKeeps(cfg, t.bus, acts[0].a);
      }
      TallyHeap(cfg, TallyStep(cfg, t, acts[0]), acts[1..]);
    }
  }

  /** The sum of the six reasons, as counted. */
  function CountedReasons(counts: seq<int>): int {
    Read(counts, 0) + Read(counts, 1) + Read(counts, 2) + Read(counts, 3) + Read(counts, 4) + Read(counts, 5)
  }

  lemma ExactCounters(cfg: Config, acts: seq<Act>)
    requires forall c: nat :: c < COUNTERS ==> Undisturbed(cfg, TallyStart(cfg), acts, c)
    requires Quiescent(TallyRun(cfg, TallyStart(cfg), acts))
    ensures var t := TallyRun(cfg, TallyStart(cfg), acts); t.counts == Due(t.bus.stats)
  {
    hide TallyStart, TallyRun, Due, Undisturbed, Lost, Outstanding;
    var t := TallyRun(cfg, TallyStart(cfg), acts);
    CounterIdentity(cfg, acts, 0);
    forall c: nat | c < COUNTERS ensures t.counts[c] == Due(t.bus.stats)[c] {
      CounterIdentity(cfg, acts, c);
      NoneOutstanding(t.lanes, c);
      NothingLost(cfg, TallyStart(cfg), acts, c);
    }
  }

  /** What the counters are for: each of the four laws. */
  predicate Balanced(cfg: Config, t: Tally) {
    && |t.counts| == COUNTERS
    && t.counts[EV] + t.counts[DROPPED] + InProgress(t.bus.phases) == t.bus.stats.calls
    && CountedReasons(t.counts) == t.counts[DROPPED] + Dropping(t.bus.phases)
    && t.counts[EV_COUNT] == LiveEvents(t.bus.blocks)
    && t.counts[EV_COUNT] + t.counts[EV_REMAINING] == cfg.pool
  }

  lemma ExactIsBalanced(cfg: Config, t: Tally)
    requires t.counts == Due(t.bus.stats) && CallsBalance(t.bus) && EventsBalance(cfg, t.bus)
    ensures Balanced(cfg, t) && t.counts[HEAP] == t.bus.stats.heap
  {
  }

  lemma TotalsBalance(cfg: Config, acts: seq<Act>)
    ensures var t := TallyRun(cfg, TallyStart(cfg), acts); CallsBalance(t.bus) && EventsBalance(cfg, t.bus)
  {
    StartBalance(cfg.devices, cfg.pool);
    assert CallsBalance(Start(cfg)) && EventsBalance(cfg, Start(cfg));
    hide CallsBalance, EventsBalance, TallyRun;
    TallyBalance(cfg, TallyStart(cfg), acts);
  }

  /**
   When no store has been disturbed and none is outstanding, the counters balance:
   calls, reasons for drops, events of the slab; and in a safe run the heap too.
   */
  lemma UndisturbedCounters(cfg: Config, acts: seq<Act>)
    requires forall c: nat :: c < COUNTERS ==> Undisturbed(cfg, TallyStart(cfg), acts, c)
    requires Quiescent(TallyRun(cfg, TallyStart(cfg), acts))
    ensures var t := TallyRun(cfg, TallyStart(cfg), acts);
            && |t.counts| == COUNTERS
            && t.counts[EV] + t.counts[DROPPED] + InProgress(t.bus.phases) == t.bus.stats.calls
            && CountedReasons(t.counts) == t.counts[DROPPED] + Dropping(t.bus.phases)
            && t.counts[EV_COUNT] == LiveEvents(t.bus.blocks)
            && t.counts[EV_COUNT] + t.counts[EV_REMAINING] == cfg.pool
            && (Retains(cfg) && ObeyingTally(ALL, cfg, TallyStart(cfg), acts)
                ==> t.counts[HEAP] == DataBytes(t.bus, |t.bus.blocks|))
  {
    var t := TallyRun(cfg, TallyStart(cfg), acts);
    ExactCounters(cfg, acts);
    TotalsBalance(cfg, acts);
    SafeHeap(cfg, acts);
    ExactIsBalanced(cfg, t);
    hide TallyStart, TallyRun, Due, Undisturbed, ObeyingTally, Retains, CountedReasons;
  }

  lemma SafeHeap(cfg: Config, acts: seq<Act>)
    ensures var t := TallyRun(cfg, TallyStart(cfg), acts);
            Retains(cfg) && ObeyingTally(ALL, cfg, TallyStart(cfg), acts) ==> t.bus.stats.heap == DataBytes(t.bus, |t.bus.blocks|)
  {
    if Retains(cfg) && ObeyingTally(ALL, cfg, TallyStart(cfg), acts) {
      StartOk(cfg);
      StartHeap(cfg, cfg.pool);
      assert HeapOk(Start(cfg));
      TallyHeap(cfg, TallyStart(cfg), acts);
    }
  }

  // ---------------------------------------------------------------- counters that only rise

  /** All counters but those of memory in use. */
  predicate Rising(c: nat) {
    c < COUNTERS && c != HEAP && c != EV_COUNT && c != EV_REMAINING
  }

  predicate SameRising(st: Stats, st': Stats) {
    && st'.noMem == st.noMem && st'.noEp == st.noEp && st'.badEp == st.badEp && st'.badSize == st.badSize
    && st'.noDataMem == st.noDataMem && st'.ingest == st.ingest
    && st'.ev == st.ev && st'.dropped == st.dropped && st'.neverRef == st.neverRef
  }

  predicate RisesByOne(x: nat, x': nat) {
    x' == x || x' == x + 1
  }

  predicate Rises(st: Stats, st': Stats) {
    && RisesByOne(st.noMem, st'.noMem) && RisesByOne(st.noEp, st'.noEp) && RisesByOne(st.badEp, st'.badEp)
    && RisesByOne(st.badSize, st'.badSize) && RisesByOne(st.noDataMem, st'.noDataMem) && RisesByOne(st.ingest, st'.ingest)
    && RisesByOne(st.ev, st'.ev) && RisesByOne(st.dropped, st'.dropped) && RisesByOne(st.neverRef, st'.neverRef)
  }

  lemma PrimitiveRising(s: Bus, e: nat, rc: int)
    ensures SameRising(s.stats, SetCount(s, e, rc).stats) && SameRising(s.stats, FreeEvent(s, e).stats)
    ensures SameRising(s.stats, Dropped(s, e).stats) && SameRising(s.stats, ForgetData(s, e).stats)
  {
  }

  lemma CountingRising(cfg: Config, s: Bus, a: Action)
    requires a.Ref? || a.Unref? || a.Reap? || a.Match?
    ensures SameRising(s.stats, Step(cfg, s, a).stats)
  {
    hide Count, SetCount, Dropped, FreeEvent;
    match a
    case Ref(e) => PrimitiveRising(s, e, Count(s, e) + 1);
    case Unref(e) => PrimitiveRising(s, e, 0);
    case Reap(e) => PrimitiveRising(s, e, 0);
    case Match(d, yes) =>
      if d < |s.phases| && s.phases[d].Notifying? {
        PrimitiveRising(s, s.phases[d].ev, Count(s, s.phases[d].ev) + 1);
      }
  }

  lemma IterationRising(s: Bus, i: nat)
    ensures SameRising(s.stats, StepLockLast(s, i).stats) && SameRising(s.stats, StepKeepLast(s, i).stats)
    ensures SameRising(s.stats, StepUnlockLast(s, i).stats)
  {
    if i < |s.eps| && s.eps[i].last.Some? {
      PrimitiveRising(s, s.eps[i].last.value, Count(s, s.eps[i].last.value) + 1);
    }
    hide Count, SetCount, Dropped;
  }

  /** A consumer's step moves only the counters of memory in use. */
  lemma ConsumerRising(cfg: Config, s: Bus, a: Action)
    requires !OfProducer(a)
    ensures SameRising(s.stats, Step(cfg, s, a).stats)
  {
    if a.Ref? || a.Unref? || a.Reap? {
      CountingRising(cfg, s, a);
      hide Step;
    } else if a.LockLast? || a.KeepLast? || a.UnlockLast? {
      IterationRising(s, a.ep);
      hide StepLockLast, StepKeepLast, StepUnlockLast;
    } else {
      assert Step(cfg, s, a).stats == s.stats;
    }
  }

  lemma OutcomeRises(s: Bus, d: nat, ev: nat, k: nat, prev: nat)
    requires d < |s.phases|
    ensures Rises(s.stats, StepTest(s, d, ev).stats) && Rises(s.stats, StepUnlock(s, d, ev, k).stats)
    ensures Rises(s.stats, StepDropPrev(s, d, ev, k, prev).stats)
  {
    hide Count;
  }

  lemma FreeRises(s: Bus, d: nat, ev: nat)
    requires d < |s.phases|
    ensures Rises(s.stats, StepFreeLast(s, d, ev).stats) && Rises(s.stats, StepDrop(s, d, ev).stats)
  {
  }

  lemma AdvanceRises(cfg: Config, s: Bus, d: nat)
    requires d < |s.phases|
    ensures Rises(s.stats, StepAdvance(cfg, s, d).stats)
  {
    hide Count, SetCount, FreeEvent, StepTest, StepUnlock, StepFreeLast, StepDrop, StepDropPrev;
    match s.phases[d]
    case Replacing(ev, k, prev) => OutcomeRises(s, d, ev, k, prev);
    case FreeingPrev(ev, k, prev) => PrimitiveRising(s, prev, 0);
    case Zeroing(ev, k) => PrimitiveRising(s, ev, 0);
    case Retaining(ev, k) => PrimitiveRising(s, ev, Count(s, ev) + 1);
    case Notifying(ev, k, _) => OutcomeRises(s, d, ev, k, 0);
    case Testing(ev, k) => OutcomeRises(s, d, ev, k, 0);
    case FreeingLast(ev) => FreeRises(s, d, ev);
    case Failing(ev) => FreeRises(s, d, ev);
    case _ =>
  }

  lemma StepRises(cfg: Config, s: Bus, a: Action)
    ensures Rises(s.stats, Step(cfg, s, a).stats)
  {
    if !OfProducer(a) {
      ConsumerRising(cfg, s, a);
      hide Step;
    } else if a.Match? {
      CountingRising(cfg, s, a);
      hide Step;
    } else if a.Advance? && a.dev < |s.phases| {
      AdvanceRises(cfg, s, a.dev);
      hide StepAdvance;
    }
  }

  // ---------------------------------------------------------------- each reason by its own actions

  function ReasonTotal(st: Stats, r: Reason): nat {
    match r
    case NoEndpoint => st.noEp
    case BadEndpoint => st.badEp
    case BadSize => st.badSize
    case NoDataMemory => st.noDataMem
    case IngestFailed => st.ingest
  }

  /** The reason for which this action drops the data of a call. */
  function RejectedFor(s: Bus, a: Action): Option<Reason> {
    if a.Reject? && a.dev < |s.phases| && s.phases[a.dev].Fresh? && !a.reason.IngestFailed? then Some(a.reason)
    else if a.RejectData? && a.dev < |s.phases| && s.phases[a.dev].Loaded? then Some(IngestFailed)
    else None
  }

  function Rejections(cfg: Config, s: Bus, acts: seq<Action>, r: Reason): nat
    decreases |acts|
  {
    if acts == [] then 0
    else (if RejectedFor(s, acts[0]) == Some(r) then 1 else 0) + Rejections(cfg, Step(cfg, s, acts[0]), acts[1..], r)
  }

  predicate SameReasons(st: Stats, st': Stats) {
    && st'.noEp == st.noEp && st'.badEp == st.badEp && st'.badSize == st.badSize
    && st'.noDataMem == st.noDataMem && st'.ingest == st.ingest
  }

  lemma EndReasons(s: Bus, d: nat, ev: nat, k: nat, prev: nat)
    requires d < |s.phases|
    ensures SameReasons(s.stats, StepTest(s, d, ev).stats) && SameReasons(s.stats, StepUnlock(s, d, ev, k).stats)
    ensures SameReasons(s.stats, StepDropPrev(s, d, ev, k, prev).stats)
  {
    hide Count;
  }

  lemma FreeReasons(s: Bus, d: nat, ev: nat)
    requires d < |s.phases|
    ensures SameReasons(s.stats, StepFreeLast(s, d, ev).stats) && SameReasons(s.stats, StepDrop(s, d, ev).stats)
  {
  }

  lemma AdvanceReasons(cfg: Config, s: Bus, d: nat)
    requires d < |s.phases|
    ensures SameReasons(s.stats, StepAdvance(cfg, s, d).stats)
  {
    hide Count, SetCount, FreeEvent, StepTest, StepUnlock, StepFreeLast, StepDrop, StepDropPrev;
    match s.phases[d]
    case Replacing(ev, k, prev) => EndReasons(s, d, ev, k, prev);
    case FreeingPrev(ev, k, prev) => PrimitiveRising(s, prev, 0);
    case Zeroing(ev, k) => PrimitiveRising(s, ev, 0);
    case Retaining(ev, k) => PrimitiveRising(s, ev, Count(s, ev) + 1);
    case Notifying(ev, k, _) => EndReasons(s, d, ev, k, 0);
    case Testing(ev, k) => EndReasons(s, d, ev, k, 0);
    case FreeingLast(ev) => FreeReasons(s, d, ev);
    case Failing(ev) => FreeReasons(s, d, ev);
    case _ =>
  }

  lemma BuildReasons(cfg: Config, s: Bus, a: Action)
    requires a.Begin? || a.Returned? || a.Accept?
    ensures SameReasons(s.stats, Step(cfg, s, a).stats)
  {
  }

  lemma RejectReasons(cfg: Config, s: Bus, a: Action, r: Reason)
    requires a.Reject? || a.RejectData?
    ensures ReasonTotal(Step(cfg, s, a).stats, r) == ReasonTotal(s.stats, r) + if RejectedFor(s, a) == Some(r) then 1 else 0
  {
  }

  lemma StepReasons(cfg: Config, s: Bus, a: Action, r: Reason)
    ensures ReasonTotal(Step(cfg, s, a).stats, r) == ReasonTotal(s.stats, r) + if RejectedFor(s, a) == Some(r) then 1 else 0
  {
    if a.Reject? || a.RejectData? {
      RejectReasons(cfg, s, a, r);
    } else if !OfProducer(a) {
      ConsumerRising(cfg, s, a);
    } else if a.Match? {
      CountingRising(cfg, s, a);
    } else if a.Advance? {
      if a.dev < |s.phases| { AdvanceReasons(cfg, s, a.dev); }
      hide StepAdvance;
    } else {
      BuildReasons(cfg, s, a);
    }
    hide Step;
  }

  lemma {:induction false} RunReasons(cfg: Config, s: Bus, acts: seq<Action>, r: Reason)
    ensures ReasonTotal(Run(cfg, s, acts).stats, r) == ReasonTotal(s.stats, r) + Rejections(cfg, s, acts, r)
    decreases |acts|
  {
    hide Step, RejectedFor, ReasonTotal;
    if acts != [] {
      StepReasons(cfg, s, acts[0], r);
      RunReasons(cfg, Step(cfg, s, acts[0]), acts[1..], r);
    }
  }

  /** In every run the total due for a reason is the number of calls that were dropped for it. */
  lemma ReasonsByAction(cfg: Config, acts: seq<Action>, r: Reason)
    ensures ReasonTotal(Run(cfg, Start(cfg), acts).stats, r) == Rejections(cfg, Start(cfg), acts, r)
  {
    RunReasons(cfg, Start(cfg), acts, r);
  }

  // ---------------------------------------------------------------- how rising counters climb

  lemma DueRises(st: Stats, st': Stats, c: nat)
    requires Rises(st, st') && Rising(c)
    ensures Due(st')[c] == Due(st)[c] || Due(st')[c] == Due(st)[c] + 1
    ensures SameRising(st, st') ==> Due(st')[c] == Due(st)[c]
  {
    assert c == 0 || c == 1 || c == 2 || c == 3 || c == 4 || c == 5 || c == 9 || c == 10 || c == 11;
  }

  /** The lane has loaded counter `c`. */
  predicate HasLoaded(l: Lane, c: nat) {
    l.reg.Some? && l.todo != [] && l.todo[0].counter == c
  }

  /** How far counter `c` would be had every store so far been seen. */
  function Reached(t: Tally, c: nat): int {
    Read(Due(t.bus.stats), c) - Outstanding(t.lanes, c)
  }

  predicate LaneClimbs(l: Lane, c: nat, n: int, disturbed: bool) {
    && (forall u :: u in l.todo && u.counter == c ==> u.delta == 1)
    && (HasLoaded(l, c) ==> if disturbed then l.reg.value < n else l.reg.value <= n)
  }

  /** Up to the first disturbed store a counter is exact; from then on it, and all that is loaded of it, lags behind. */
  predicate Climbing(t: Tally, c: nat, disturbed: bool) {
    && (if disturbed then Read(t.counts, c) < Reached(t, c) else Read(t.counts, c) == Reached(t, c))
    && (forall j :: 0 <= j < |t.lanes| ==> LaneClimbs(t.lanes[j], c, Reached(t, c), disturbed))
  }

  lemma ClimbDo(cfg: Config, t: Tally, a: Action, c: nat, disturbed: bool)
    requires Shaped(cfg, t) && Rising(c) && Climbing(t, c, disturbed)
    ensures Climbing(StepDo(cfg, t, a), c, disturbed)
  {
    hide StepDo, NewTodo, Reached, Shaped, Rising, Busy;
    if Busy(t, a) {
      BusyDo(cfg, t, a);
    } else {
      ReachedDo(cfg, t, a, c);
      TodoClimbs(cfg, t, a, c);
      var t' := StepDo(cfg, t, a);
      forall j | 0 <= j < |t'.lanes| ensures LaneClimbs(t'.lanes[j], c, Reached(t', c), disturbed) {
        DoLaneAt(cfg, t, a, j);
        if t'.lanes[j] != Lane(NewTodo(cfg, t, a), None) {
          assert LaneClimbs(t.lanes[j], c, Reached(t, c), disturbed);
        }
      }
    }
  }

  lemma BusyDo(cfg: Config, t: Tally, a: Action)
    requires Busy(t, a)
    ensures StepDo(cfg, t, a) == t
  {
  }

  lemma ReachedDo(cfg: Config, t: Tally, a: Action, c: nat)
    requires !Busy(t, a) && Rising(c)
    ensures Reached(StepDo(cfg, t, a), c) == Reached(t, c) && StepDo(cfg, t, a).counts == t.counts
  {
    hide Step, Due, Updates, Outstanding;
    DoLanes(cfg, t, a, c);
  }

  /** A lane after a step of the bus: a new one, or as it was. */
  lemma DoLaneAt(cfg: Config, t: Tally, a: Action, j: nat)
    requires !Busy(t, a) && j < |StepDo(cfg, t, a).lanes|
    ensures var l := StepDo(cfg, t, a).lanes[j]; l == Lane(NewTodo(cfg, t, a), None) || (j < |t.lanes| && l == t.lanes[j])
  {
    hide Step, Due, Updates;
  }

  lemma TodoClimbs(cfg: Config, t: Tally, a: Action, c: nat)
    requires Rising(c)
    ensures forall u :: u in NewTodo(cfg, t, a) && u.counter == c ==> u.delta == 1
  {
    StepRises(cfg, t.bus, a);
    DueRises(t.bus.stats, Step(cfg, t.bus, a).stats, c);
    UpdatesOf(Due(t.bus.stats), Due(Step(cfg, t.bus, a).stats), 0);
    hide Step, Due, Updates, Rises;
  }

  lemma ClimbLoad(cfg: Config, t: Tally, j: nat, c: nat, disturbed: bool)
    requires Shaped(cfg, t) && Rising(c) && Climbing(t, c, disturbed) && CanLoad(t, j)
    ensures Climbing(TallyStep(cfg, t, Load(j)), c, disturbed)
  {
    var t' := TallyStep(cfg, t, Load(j));
    LaneUpdate(t.lanes, j, t'.lanes[j], c);
    hide Due, Outstanding;
  }

  lemma ClimbStore(cfg: Config, t: Tally, j: nat, c: nat, disturbed: bool)
    requires Shaped(cfg, t) && Rising(c) && Climbing(t, c, disturbed) && CanStore(t, j)
    ensures Climbing(TallyStep(cfg, t, Store(j)), c, disturbed || LostBy(t, Store(j), c) != 0)
  {
    var t' := TallyStep(cfg, t, Store(j));
    LaneUpdate(t.lanes, j, t'.lanes[j], c);
    assert LaneClimbs(t.lanes[j], c, Reached(t, c), disturbed);
    assert t.lanes[j].todo[0] in t.lanes[j].todo;
    hide Due, Outstanding;
  }

  lemma ClimbStep(cfg: Config, t: Tally, act: Act, c: nat, disturbed: bool)
    requires Shaped(cfg, t) && Rising(c) && Climbing(t, c, disturbed)
    ensures Climbing(TallyStep(cfg, t, act), c, disturbed || LostBy(t, act, c) != 0)
  {
    hide Climbing, StepDo;
    match act
    case Do(a) => ClimbDo(cfg, t, a, c, disturbed);
    case Load(j) => if CanLoad(t, j) { ClimbLoad(cfg, t, j, c, disturbed); }
    case Store(j) => if CanStore(t, j) { ClimbStore(cfg, t, j, c, disturbed); }
  }

  lemma {:induction false} RunClimbs(cfg: Config, t: Tally, acts: seq<Act>, c: nat, disturbed: bool)
    requires Shaped(cfg, t) && Rising(c) && Climbing(t, c, disturbed)
    ensures Climbing(TallyRun(cfg, t, acts), c, disturbed || !Undisturbed(cfg, t, acts, c))
    decreases |acts|
  {
    hide Climbing, Shaped, TallyStep, LostBy;
    if acts != [] {
      ClimbStep(cfg, t, acts[0], c, disturbed);
      ShapedStep(cfg, t, acts[0]);
      RunClimbs(cfg, TallyStep(cfg, t, acts[0]), acts[1..], c, disturbed || LostBy(t, acts[0], c) != 0);
    }
  }

  lemma ClimbStart(cfg: Config, c: nat)
    requires Rising(c)
    ensures Climbing(TallyStart(cfg), c, false)
  {
    NoneOutstanding(TallyStart(cfg).lanes, c);
  }

  /** A counter that only rises never exceeds its total due, and reaches it exactly when no store of it was disturbed. */
  lemma ExactWhenUndisturbed(cfg: Config, acts: seq<Act>, c: nat)
    requires Rising(c) && Quiescent(TallyRun(cfg, TallyStart(cfg), acts))
    ensures var t := TallyRun(cfg, TallyStart(cfg), acts);
            && |t.counts| == COUNTERS
            && t.counts[c] <= Due(t.bus.stats)[c]
            && (t.counts[c] == Due(t.bus.stats)[c] <==> Undisturbed(cfg, TallyStart(cfg), acts, c))
  {
    var t := TallyRun(cfg, TallyStart(cfg), acts);
    CounterIdentity(cfg, acts, c);
    NoneOutstanding(t.lanes, c);
    ClimbStart(cfg, c);
    TallyStarts(cfg, c);
    RunClimbs(cfg, TallyStart(cfg), acts, c, false);
    hide TallyStart, TallyRun, Due, Outstanding, Undisturbed;
  }

  /** Every call is counted as processed or dropped, or in progress. */
  predicate CallsCounted(t: Tally) {
    Read(t.counts, EV) + Read(t.counts, DROPPED) + InProgress(t.bus.phases) == t.bus.stats.calls
  }

  lemma CallsDue(st: Stats)
    ensures Due(st)[EV] == st.ev && Due(st)[DROPPED] == st.dropped
  {
  }

  /** At rest the counters account for every call exactly when no store of the two was disturbed. */
  lemma CallsCountedExactly(cfg: Config, acts: seq<Act>)
    requires Quiescent(TallyRun(cfg, TallyStart(cfg), acts))
    ensures CallsCounted(TallyRun(cfg, TallyStart(cfg), acts)) <==>
      Undisturbed(cfg, TallyStart(cfg), acts, EV) && Undisturbed(cfg, TallyStart(cfg), acts, DROPPED)
  {
    var t := TallyRun(cfg, TallyStart(cfg), acts);
    ExactWhenUndisturbed(cfg, acts, EV);
    ExactWhenUndisturbed(cfg, acts, DROPPED);
    TotalsBalance(cfg, acts);
    CallsDue(t.bus.stats);
    hide TallyStart, TallyRun, Due, Undisturbed;
  }

  // ---------------------------------------------------------------- one device

  lemma NoSuchDevice(cfg: Config, s: Bus, a: Action)
    requires OfProducer(a) && a.dev >= |s.phases|
    ensures Step(cfg, s, a) == s
  {
  }

  /** The steps of consumers leave the counters that only rise to the devices. */
  lemma TodoElsewhere(cfg: Config, t: Tally, a: Action, c: nat)
    requires Rising(c) && (OfProducer(a) ==> a.dev >= |t.bus.phases|)
    ensures forall u :: u in NewTodo(cfg, t, a) ==> u.counter != c
  {
    if OfProducer(a) { NoSuchDevice(cfg, t.bus, a); } else { ConsumerRising(cfg, t.bus, a); }
    StepRises(cfg, t.bus, a);
    DueRises(t.bus.stats, Step(cfg, t.bus, a).stats, c);
    UpdatesOf(Due(t.bus.stats), Due(Step(cfg, t.bus, a).stats), 0);
    hide Step, Due, Updates, Rises;
  }

  /** Only the lane of the one device touches counter `c`, so it finds what it has loaded. */
  predicate OneWriter(cfg: Config, t: Tally, c: nat) {
    && |t.bus.phases| == cfg.devices
    && (forall j :: 0 <= j < |t.lanes| && HasLoaded(t.lanes[j], c) ==> t.lanes[j].reg.value == Read(t.counts, c))
    && (forall j, u :: cfg.devices <= j < |t.lanes| && u in t.lanes[j].todo ==> u.counter != c)
  }

  lemma OneWriterDo(cfg: Config, t: Tally, a: Action, c: nat)
    requires Shaped(cfg, t) && Rising(c) && OneWriter(cfg, t, c)
    ensures OneWriter(cfg, StepDo(cfg, t, a), c)
  {
    hide StepDo, NewTodo, Rising;
    if Busy(t, a) {
      BusyDo(cfg, t, a);
    } else {
      DoBus(cfg, t, a);
      if !OfProducer(a) || a.dev >= cfg.devices { TodoElsewhere(cfg, t, a, c); }
      var t' := StepDo(cfg, t, a);
      forall j | 0 <= j < |t'.lanes|
        ensures HasLoaded(t'.lanes[j], c) ==> t'.lanes[j].reg.value == Read(t'.counts, c)
        ensures cfg.devices <= j ==> forall u :: u in t'.lanes[j].todo ==> u.counter != c
      {
        DoLaneAt(cfg, t, a, j);
        NewLaneAt(cfg, t, a, j);
      }
    }
  }

  lemma DoBus(cfg: Config, t: Tally, a: Action)
    requires !Busy(t, a)
    ensures StepDo(cfg, t, a).counts == t.counts && |StepDo(cfg, t, a).bus.phases| == |t.bus.phases|
  {
    SameDevices(cfg, t.bus, a);
    hide Step, Due, Updates;
  }

  /** Only a device's own step gives its lane new updates. */
  lemma NewLaneAt(cfg: Config, t: Tally, a: Action, j: nat)
    requires !Busy(t, a) && j < |StepDo(cfg, t, a).lanes|
    ensures OfProducer(a) && a.dev < |t.lanes| && a.dev != j ==> j < |t.lanes| && StepDo(cfg, t, a).lanes[j] == t.lanes[j]
  {
    hide Step, Due, Updates;
  }

  lemma OneWriterStep(cfg: Config, t: Tally, act: Act, c: nat)
    requires Shaped(cfg, t) && Rising(c) && OneWriter(cfg, t, c) && cfg.devices <= 1
    ensures OneWriter(cfg, TallyStep(cfg, t, act), c) && LostBy(t, act, c) == 0
  {
    if act.Do? {
      OneWriterDo(cfg, t, act.a, c);
      hide StepDo, OneWriter;
    } else if act.Store? && CanStore(t, act.lane) {
      assert t.lanes[act.lane].todo[0] in t.lanes[act.lane].todo;
    }
  }

  lemma {:induction false} RunOneWriter(cfg: Config, t: Tally, acts: seq<Act>, c: nat)
    requires Shaped(cfg, t) && Rising(c) && OneWriter(cfg, t, c) && cfg.devices <= 1
    ensures Undisturbed(cfg, t, acts, c)
    decreases |acts|
  {
    hide Shaped, OneWriter, TallyStep, LostBy;
    if acts != [] {
      OneWriterStep(cfg, t, acts[0], c);
      ShapedStep(cfg, t, acts[0]);
      RunOneWriter(cfg, TallyStep(cfg, t, acts[0]), acts[1..], c);
    }
  }
}
