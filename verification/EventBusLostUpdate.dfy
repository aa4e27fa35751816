/** The run in which two devices lose an update of `ev_dropped`, and what that makes of the counters in general. */
module EventBusLostUpdate {
  import opened Common
  import opened EventBus
  import opened EventBusSafety
  import opened EventBusStats
  import opened EventBusCounters

  lemma {:induction false} TallySnoc(r: Rules, cfg: Config, t: Tally, acts: seq<Act>, a: Act, c: nat)
    ensures var t' := TallyRun(cfg, t, acts);
            && TallyRun(cfg, t, acts + [a]) == TallyStep(cfg, t', a)
            && (ObeyingTally(r, cfg, t, acts) && TallyObeys(r, t', a) ==> ObeyingTally(r, cfg, t, acts + [a]))
            && (LostBy(t', a, c) != 0 ==> !Undisturbed(cfg, t, acts + [a], c))
    decreases |acts|
  {
    hide TallyStep, TallyObeys, LostBy;
    if acts == [] {
      assert acts + [a] == [a] && [a][1..] == [];
    } else {
      TallySnoc(r, cfg, TallyStep(cfg, t, acts[0]), acts[1..], a, c);
      assert (acts + [a])[1..] == acts[1..] + [a];
    }
  }

  /** The run `acts` keeps to all rules and ends in `t`. */
  ghost predicate Reaches(cfg: Config, acts: seq<Act>, t: Tally) {
    TallyRun(cfg, TallyStart(cfg), acts) == t && ObeyingTally(ALL, cfg, TallyStart(cfg), acts)
  }

  lemma Then(cfg: Config, acts: seq<Act>, t: Tally, a: Act) returns (acts': seq<Act>, t': Tally)
    requires Reaches(cfg, acts, t) && TallyObeys(ALL, t, a)
    ensures t' == TallyStep(cfg, t, a) && Reaches(cfg, acts', t')
    ensures LostBy(t, a, DROPPED) != 0 ==> !Undisturbed(cfg, TallyStart(cfg), acts', DROPPED)
  {
    TallySnoc(ALL, cfg, TallyStart(cfg), acts, a, DROPPED);
    acts', t' := acts + [a], TallyStep(cfg, t, a);
  }

  /** The first update of a lane, with nothing in between. */
  lemma MakeUpdate(cfg: Config, acts0: seq<Act>, t0: Tally, j: nat) returns (acts: seq<Act>, t: Tally)
    requires Reaches(cfg, acts0, t0) && |t0.counts| == COUNTERS
    requires j < |t0.lanes| && t0.lanes[j].reg.None? && t0.lanes[j].todo != [] && t0.lanes[j].todo[0].counter < COUNTERS
    ensures Reaches(cfg, acts, t)
    ensures var u := t0.lanes[j].todo[0];
            t == t0.(counts := t0.counts[u.counter := t0.counts[u.counter] + u.delta],
                     lanes := t0.lanes[j := Lane(t0.lanes[j].todo[1..], None)])
  {
    hide Reaches, TallyStep;
    LoadStore(cfg, t0, j);
    acts, t := Then(cfg, acts0, t0, Load(j));
    acts, t := Then(cfg, acts, t, Store(j));
  }

  lemma LoadStore(cfg: Config, t: Tally, j: nat)
    requires CanLoad(t, j) && t.lanes[j].todo[0].counter < |t.counts|
    ensures var u := t.lanes[j].todo[0];
            TallyStep(cfg, TallyStep(cfg, t, Load(j)), Store(j))
            == t.(counts := t.counts[u.counter := t.counts[u.counter] + u.delta],
                  lanes := t.lanes[j := Lane(t.lanes[j].todo[1..], None)])
  {
    hide StepDo;
    var t1 := TallyStep(cfg, t, Load(j));
    assert t1.lanes[j := Lane(t.lanes[j].todo[1..], None)] == t.lanes[j := Lane(t.lanes[j].todo[1..], None)];
  }

  lemma {:induction false} UpdatesSkip(before: seq<int>, after: seq<int>, k: nat, m: nat)
    requires |before| == |after| == COUNTERS && k <= m <= COUNTERS
    requires forall c :: k <= c < m ==> after[c] == before[c]
    ensures Updates(before, after, k) == Updates(before, after, m)
    decreases m - k
  {
    if k < m { UpdatesSkip(before, after, k + 1, m); }
  }

  lemma UpdatesAt(before: seq<int>, after: seq<int>, k: nat)
    requires |before| == |after| == COUNTERS && k < COUNTERS && after[k] != before[k]
    ensures Updates(before, after, k) == [Update(k, after[k] - before[k])] + Updates(before, after, k + 1)
  {
  }

  /** The updates after the slab has given out, or taken back, a block. */
  lemma SlabUpdates(before: seq<int>, after: seq<int>, x: int, y: int)
    requires |before| == |after| == COUNTERS && x != 0 && (y == 0 || y == 1)
    requires after == before[EV_COUNT := before[EV_COUNT] + x][EV_REMAINING := before[EV_REMAINING] - x]
                            [DROPPED := before[DROPPED] + y]
    ensures Updates(before, after, 0)
         == [Update(EV_COUNT, x), Update(EV_REMAINING, -x)] + (if y == 1 then [Update(DROPPED, 1)] else [])
  {
    hide Updates;
    UpdatesSkip(before, after, 0, 7);
    UpdatesAt(before, after, 7);
    UpdatesAt(before, after, 8);
    UpdatesSkip(before, after, 9, 10);
    UpdatesSkip(before, after, 11, 12);
    if y == 1 { UpdatesAt(before, after, 10); } else { UpdatesSkip(before, after, 10, 11); }
    NoUpdates(before, after);
  }

  lemma NoUpdates(before: seq<int>, after: seq<int>)
    requires |before| == |after| == COUNTERS
    ensures Updates(before, after, 12) == []
  {
  }

  lemma OneUpdate(before: seq<int>, after: seq<int>, k: nat)
    requires |before| == |after| == COUNTERS && k < COUNTERS && after == before[k := before[k] + 1]
    ensures Updates(before, after, 0) == [Update(k, 1)]
  {
    hide Updates;
    UpdatesSkip(before, after, 0, k);
    UpdatesAt(before, after, k);
    UpdatesSkip(before, after, k + 1, 12);
    NoUpdates(before, after);
  }

  // ---------------------------------------------------------------- a dropped call of one device

  /** Everything but device `d` is as it was. */
  predicate Beside(t: Tally, t': Tally, d: nat) {
    && t'.bus.eps == t.bus.eps && |t'.bus.phases| == |t.bus.phases| && |t'.lanes| == |t.lanes|
    && |t'.counts| == |t.counts| == COUNTERS && t'.counts[DROPPED] == t.counts[DROPPED]
    && (forall j :: 0 <= j < |t.bus.phases| && j != d ==> t'.bus.phases[j] == t.bus.phases[j])
    && (forall j :: 0 <= j < |t.lanes| && j != d ==> t'.lanes[j] == t.lanes[j])
  }

  /** Device `d` stands in phase `p`, with these updates to make, and block 0 as given. */
  predicate Stands(t: Tally, d: nat, p: Phase, todo: seq<Update>, b: Block) {
    && d < |t.bus.phases| && d < |t.lanes| && |t.bus.blocks| > 0 && |t.counts| == COUNTERS
    && t.bus.phases[d] == p && t.lanes[d] == Lane(todo, None) && t.bus.blocks[0] == b
    && (p.Allocating? ==> t.bus.slot == p.mine)
  }

  /** No call is under way, nor device iteration. */
  predicate AtRest(t: Tally) {
    && (forall d :: 0 <= d < |t.bus.phases| ==> t.bus.phases[d].Idle?)
    && (forall i :: 0 <= i < |t.bus.eps| ==> t.bus.eps[i].locks == 0)
  }

  lemma TallyDo(cfg: Config, t: Tally, d: nat, a: Action, todo: seq<Update>)
    requires d < |t.lanes| && t.lanes[d] == Lane([], None) && OfProducer(a) && a.dev == d
    requires NewTodo(cfg, t, a) == todo
    ensures TallyStep(cfg, t, Do(a)) == t.(bus := Step(cfg, t.bus, a), lanes := t.lanes[d := Lane(todo, None)])
  {
    hide Step;
    assert todo == [] ==> t.lanes == t.lanes[d := Lane(todo, None)];
  }

  lemma BeginTodo(cfg: Config, t: Tally, d: nat)
    requires Stands(t, d, Idle, [], Unused)
    ensures NewTodo(cfg, t, Begin(d, 0)) == [Update(EV_COUNT, 1), Update(EV_REMAINING, -1)]
  {
    var st, st' := t.bus.stats, StepBegin(t.bus, d, 0).stats;
    assert Due(st') == Due(st)[EV_COUNT := Due(st)[EV_COUNT] + 1][EV_REMAINING := Due(st)[EV_REMAINING] - 1]
                              [DROPPED := Due(st)[DROPPED]];
    hide Updates, Due;
    SlabUpdates(Due(st), Due(st'), 1, 0);
  }

  lemma BeginBus(cfg: Config, s: Bus, d: nat)
    requires d < |s.phases| && s.phases[d] == Idle && |s.blocks| > 0 && s.blocks[0] == Unused
    ensures var s' := Step(cfg, s, Begin(d, 0));
            && s'.eps == s.eps && |s'.blocks| == |s.blocks| && s'.phases == s.phases[d := Allocating(Some(0))]
            && s'.blocks[0] == Live(0, 0, d) && s'.slot == Some(0)
  {
  }

  lemma DoBegin(cfg: Config, acts0: seq<Act>, t0: Tally, d: nat) returns (acts: seq<Act>, t: Tally)
    requires Reaches(cfg, acts0, t0) && AtRest(t0) && Stands(t0, d, Idle, [], Unused)
    ensures Reaches(cfg, acts, t) && Beside(t0, t, d)
    ensures Stands(t, d, Allocating(Some(0)), [Update(EV_COUNT, 1), Update(EV_REMAINING, -1)], Live(0, 0, d))
  {
    hide Reaches, NewTodo, Step, TallyStep;
    BeginTodo(cfg, t0, d);
    BeginBus(cfg, t0.bus, d);
    TallyDo(cfg, t0, d, Begin(d, 0), [Update(EV_COUNT, 1), Update(EV_REMAINING, -1)]);
    acts, t := Then(cfg, acts0, t0, Do(Begin(d, 0)));
  }

  lemma ReturnedTodo(cfg: Config, t: Tally, d: nat)
    requires Stands(t, d, Allocating(Some(0)), [], Live(0, 0, d))
    ensures NewTodo(cfg, t, Returned(d)) == []
  {
    var st := t.bus.stats;
    assert StepReturned(t.bus, d).stats == st;
    hide Updates, Due;
    UpdatesSkip(Due(st), Due(st), 0, 12);
    NoUpdates(Due(st), Due(st));
  }

  lemma ReturnedBus(cfg: Config, s: Bus, d: nat)
    requires d < |s.phases| && s.phases[d] == Allocating(Some(0)) && |s.blocks| > 0 && s.blocks[0] == Live(0, 0, d) && s.slot == Some(0)
    ensures var s' := Step(cfg, s, Returned(d));
            && s'.eps == s.eps && |s'.blocks| == |s.blocks| && s'.phases == s.phases[d := Fresh(0)]
            && s'.blocks[0] == Live(0, 0, d)
  {
  }

  lemma DoReturned(cfg: Config, acts0: seq<Act>, t0: Tally, d: nat) returns (acts: seq<Act>, t: Tally)
    requires Reaches(cfg, acts0, t0) && Stands(t0, d, Allocating(Some(0)), [], Live(0, 0, d))
    ensures Reaches(cfg, acts, t) && Beside(t0, t, d) && Stands(t, d, Fresh(0), [], Live(0, 0, d))
  {
    hide Reaches, NewTodo, Step, TallyStep;
    ReturnedTodo(cfg, t0, d);
    ReturnedBus(cfg, t0.bus, d);
    TallyDo(cfg, t0, d, Returned(d), []);
    acts, t := Then(cfg, acts0, t0, Do(Returned(d)));
  }

  lemma RejectTodo(cfg: Config, t: Tally, d: nat)
    requires Stands(t, d, Fresh(0), [], Live(0, 0, d))
    ensures NewTodo(cfg, t, Reject(d, NoEndpoint)) == [Update(1, 1)]
  {
    var st, st' := t.bus.stats, StepReject(t.bus, d, NoEndpoint).stats;
    assert st' == st.(noEp := st.noEp + 1);
    assert Due(st') == Due(st)[1 := Due(st)[1] + 1];
    hide Updates, Due;
    OneUpdate(Due(st), Due(st'), 1);
  }

  lemma RejectBus(cfg: Config, s: Bus, d: nat)
    requires d < |s.phases| && s.phases[d] == Fresh(0) && |s.blocks| > 0 && s.blocks[0] == Live(0, 0, d)
    ensures var s' := Step(cfg, s, Reject(d, NoEndpoint));
            && s'.eps == s.eps && |s'.blocks| == |s.blocks| && s'.phases == s.phases[d := Failing(0)]
            && s'.blocks[0] == Live(0, 0, d)
  {
  }

  lemma DoReject(cfg: Config, acts0: seq<Act>, t0: Tally, d: nat) returns (acts: seq<Act>, t: Tally)
    requires Reaches(cfg, acts0, t0) && Stands(t0, d, Fresh(0), [], Live(0, 0, d))
    ensures Reaches(cfg, acts, t) && Beside(t0, t, d) && Stands(t, d, Failing(0), [Update(1, 1)], Live(0, 0, d))
  {
    hide Reaches, NewTodo, Step, TallyStep;
    RejectTodo(cfg, t0, d);
    RejectBus(cfg, t0.bus, d);
    TallyDo(cfg, t0, d, Reject(d, NoEndpoint), [Update(1, 1)]);
    acts, t := Then(cfg, acts0, t0, Do(Reject(d, NoEndpoint)));
  }

  lemma DropTodo(cfg: Config, t: Tally, d: nat)
    requires Stands(t, d, Failing(0), [], Live(0, 0, d))
    ensures NewTodo(cfg, t, Advance(d)) == [Update(EV_COUNT, -1), Update(EV_REMAINING, 1), Update(DROPPED, 1)]
  {
    var st, st' := t.bus.stats, StepDrop(t.bus, d, 0).stats;
    assert st' == Step(cfg, t.bus, Advance(d)).stats;
    assert Due(st') == Due(st)[EV_COUNT := Due(st)[EV_COUNT] - 1][EV_REMAINING := Due(st)[EV_REMAINING] + 1]
                              [DROPPED := Due(st)[DROPPED] + 1];
    hide Updates, Due;
    SlabUpdates(Due(st), Due(st'), -1, 1);
  }

  lemma DropBus(cfg: Config, s: Bus, d: nat)
    requires d < |s.phases| && s.phases[d] == Failing(0) && |s.blocks| > 0 && s.blocks[0] == Live(0, 0, d)
    ensures var s' := Step(cfg, s, Advance(d));
            && s'.eps == s.eps && |s'.blocks| == |s.blocks| && s'.phases == s.phases[d := Idle]
            && s'.blocks[0] == Unused
  {
  }

  lemma DoDrop(cfg: Config, acts0: seq<Act>, t0: Tally, d: nat) returns (acts: seq<Act>, t: Tally)
    requires Reaches(cfg, acts0, t0) && Stands(t0, d, Failing(0), [], Live(0, 0, d))
    ensures Reaches(cfg, acts, t) && Beside(t0, t, d)
    ensures Stands(t, d, Idle, [Update(EV_COUNT, -1), Update(EV_REMAINING, 1), Update(DROPPED, 1)], Unused)
  {
    hide Reaches, NewTodo, Step, TallyStep;
    DropTodo(cfg, t0, d);
    DropBus(cfg, t0.bus, d);
    TallyDo(cfg, t0, d, Advance(d), [Update(EV_COUNT, -1), Update(EV_REMAINING, 1), Update(DROPPED, 1)]);
    acts, t := Then(cfg, acts0, t0, Do(Advance(d)));
  }

  /** An update of another counter than `ev_dropped`. */
  lemma Make(cfg: Config, acts0: seq<Act>, t0: Tally, d: nat, p: Phase, u: Update, rest: seq<Update>, b: Block)
    returns (acts: seq<Act>, t: Tally)
    requires Reaches(cfg, acts0, t0) && Stands(t0, d, p, [u] + rest, b) && u.counter < COUNTERS && u.counter != DROPPED
    ensures Reaches(cfg, acts, t) && Beside(t0, t, d) && Stands(t, d, p, rest, b)
  {
    hide Reaches;
    acts, t := MakeUpdate(cfg, acts0, t0, d);
    assert ([u] + rest)[1..] == rest;
  }

  lemma Onwards(t0: Tally, t1: Tally, t2: Tally, d: nat)
    requires Beside(t0, t1, d) && Beside(t1, t2, d)
    ensures Beside(t0, t2, d)
  {
  }

  lemma CallBegun(cfg: Config, acts0: seq<Act>, t0: Tally, d: nat) returns (acts: seq<Act>, t: Tally)
    requires Reaches(cfg, acts0, t0) && AtRest(t0) && Stands(t0, d, Idle, [], Unused)
    ensures Reaches(cfg, acts, t) && Beside(t0, t, d) && Stands(t, d, Fresh(0), [], Live(0, 0, d))
  {
    hide Reaches, Beside, Stands, AtRest;
    var t1, t2, t3;
    acts, t1 := DoBegin(cfg, acts0, t0, d);
    assert [Update(EV_COUNT, 1), Update(EV_REMAINING, -1)] == [Update(EV_COUNT, 1)] + [Update(EV_REMAINING, -1)];
    acts, t2 := Make(cfg, acts, t1, d, Allocating(Some(0)), Update(EV_COUNT, 1), [Update(EV_REMAINING, -1)], Live(0, 0, d));
    Onwards(t0, t1, t2, d);
    assert [Update(EV_REMAINING, -1)] == [Update(EV_REMAINING, -1)] + [];
    acts, t3 := Make(cfg, acts, t2, d, Allocating(Some(0)), Update(EV_REMAINING, -1), [], Live(0, 0, d));
    Onwards(t0, t2, t3, d);
    acts, t := DoReturned(cfg, acts, t3, d);
    Onwards(t0, t3, t, d);
  }

  lemma CallDropped(cfg: Config, acts0: seq<Act>, t0: Tally, d: nat) returns (acts: seq<Act>, t: Tally)
    requires Reaches(cfg, acts0, t0) && AtRest(t0) && Stands(t0, d, Idle, [], Unused)
    ensures Reaches(cfg, acts, t) && Beside(t0, t, d) && Stands(t, d, Idle, [Update(DROPPED, 1)], Unused)
  {
    hide Reaches, Beside, Stands, AtRest;
    var t1, t2, t3, t4, t5;
    acts, t1 := CallBegun(cfg, acts0, t0, d);
    acts, t2 := DoReject(cfg, acts, t1, d);
    Onwards(t0, t1, t2, d);
    assert [Update(1, 1)] == [Update(1, 1)] + [];
    acts, t3 := Make(cfg, acts, t2, d, Failing(0), Update(1, 1), [], Live(0, 0, d));
    Onwards(t0, t2, t3, d);
    acts, t4 := DoDrop(cfg, acts, t3, d);
    Onwards(t0, t3, t4, d);
    var rest := [Update(EV_REMAINING, 1), Update(DROPPED, 1)];
    assert [Update(EV_COUNT, -1), Update(EV_REMAINING, 1), Update(DROPPED, 1)] == [Update(EV_COUNT, -1)] + rest;
    acts, t5 := Make(cfg, acts, t4, d, Idle, Update(EV_COUNT, -1), rest, Unused);
    Onwards(t0, t4, t5, d);
    assert rest == [Update(EV_REMAINING, 1)] + [Update(DROPPED, 1)];
    acts, t := Make(cfg, acts, t5, d, Idle, Update(EV_REMAINING, 1), [Update(DROPPED, 1)], Unused);
    Onwards(t0, t5, t, d);
  }

  // ---------------------------------------------------------------- two devices

  /** Nothing has happened yet. */
  lemma AtStart(cfg: Config) returns (t: Tally)
    requires cfg.pool >= 1 && cfg.devices >= 2
    ensures Reaches(cfg, [], t) && AtRest(t) && Stands(t, 0, Idle, [], Unused) && |t.bus.phases| == |t.lanes| == cfg.devices
    ensures forall j :: 0 <= j < |t.lanes| ==> t.lanes[j] == Lane([], None)
  {
    t := TallyStart(cfg);
  }

  /** Device 0 has loaded `ev_dropped` and not stored it back. */
  lemma LoadedEarly(cfg: Config) returns (acts: seq<Act>, t: Tally)
    requires cfg.pool >= 1 && cfg.devices >= 2
    ensures Reaches(cfg, acts, t) && AtRest(t) && Stands(t, 1, Idle, [], Unused) && |t.lanes| == cfg.devices
    ensures t.lanes[0] == Lane([Update(DROPPED, 1)], Some(t.counts[DROPPED]))
    ensures forall j :: 0 < j < |t.lanes| ==> t.lanes[j] == Lane([], None)
  {
    hide Reaches;
    var t0 := AtStart(cfg);
    var t1;
    acts, t1 := CallDropped(cfg, [], t0, 0);
    assert AtRest(t1);
    acts, t := Then(cfg, acts, t1, Load(0));
  }

  /** Meanwhile device 1 drops a call of its own. */
  lemma StoredMeanwhile(cfg: Config) returns (acts: seq<Act>, t: Tally)
    requires cfg.pool >= 1 && cfg.devices >= 2
    ensures Reaches(cfg, acts, t) && |t.counts| == COUNTERS && |t.lanes| == cfg.devices
    ensures t.lanes[0] == Lane([Update(DROPPED, 1)], Some(t.counts[DROPPED] - 1))
    ensures forall j :: 0 < j < |t.lanes| ==> t.lanes[j] == Lane([], None)
  {
    hide Reaches;
    var t0, t1;
    acts, t0 := LoadedEarly(cfg);
    acts, t1 := CallDropped(cfg, acts, t0, 1);
    acts, t := MakeUpdate(cfg, acts, t1, 1);
  }

  /** The store of device 0 then undoes that of device 1. */
  lemma LostUpdate(cfg: Config) returns (acts: seq<Act>)
    requires cfg.pool >= 1 && cfg.devices >= 2
    ensures ObeyingTally(ALL, cfg, TallyStart(cfg), acts) && Quiescent(TallyRun(cfg, TallyStart(cfg), acts))
    ensures !Undisturbed(cfg, TallyStart(cfg), acts, DROPPED)
  {
    hide TallyRun, TallyStart, ObeyingTally, Undisturbed;
    var t0, t;
    acts, t0 := StoredMeanwhile(cfg);
    acts, t := Then(cfg, acts, t0, Store(0));
    forall j | 0 <= j < |t.lanes| ensures t.lanes[j].todo == [] {
      assert j > 0 ==> t.lanes[j] == t0.lanes[j];
    }
  }

  // ---------------------------------------------------------------- the exact condition

  lemma {:induction false} WeakerTally(r: Rules, cfg: Config, t: Tally, acts: seq<Act>)
    requires ObeyingTally(ALL, cfg, t, acts)
    ensures ObeyingTally(r, cfg, t, acts)
    decreases |acts|
  {
    hide TallyStep, Serial, SerialSub, Calm, Busy;
    if acts != [] { WeakerTally(r, cfg, TallyStep(cfg, t, acts[0]), acts[1..]); }
  }

  /** Whenever a run that keeps to these rules comes to rest, every call is counted. */
  ghost predicate CountsCalls(r: Rules, cfg: Config) {
    forall acts :: ObeyingTally(r, cfg, TallyStart(cfg), acts) && Quiescent(TallyRun(cfg, TallyStart(cfg), acts)) ==>
      CallsCounted(TallyRun(cfg, TallyStart(cfg), acts))
  }

  lemma OneDeviceCounts(cfg: Config, acts: seq<Act>)
    requires cfg.devices <= 1
    ensures Undisturbed(cfg, TallyStart(cfg), acts, EV) && Undisturbed(cfg, TallyStart(cfg), acts, DROPPED)
  {
    TallyStarts(cfg, EV);
    assert OneWriter(cfg, TallyStart(cfg), EV) && OneWriter(cfg, TallyStart(cfg), DROPPED);
    hide OneWriter, Shaped, TallyStart, Undisturbed;
    RunOneWriter(cfg, TallyStart(cfg), acts, EV);
    RunOneWriter(cfg, TallyStart(cfg), acts, DROPPED);
  }

  /** Whatever rules the runs keep to, the calls are accounted for exactly when there is one device at most. */
  lemma CountsCallsExactly(r: Rules, cfg: Config)
    requires cfg.pool >= 1
    ensures CountsCalls(r, cfg) <==> cfg.devices <= 1
  {
    hide TallyRun, TallyStart, ObeyingTally, Undisturbed, CallsCounted, Quiescent;
    if cfg.devices <= 1 {
      forall acts | ObeyingTally(r, cfg, TallyStart(cfg), acts) && Quiescent(TallyRun(cfg, TallyStart(cfg), acts))
        ensures CallsCounted(TallyRun(cfg, TallyStart(cfg), acts))
      {
        OneDeviceCounts(cfg, acts);
        CallsCountedExactly(cfg, acts);
      }
    } else {
      var acts := LostUpdate(cfg);
      WeakerTally(r, cfg, TallyStart(cfg), acts);
      CallsCountedExactly(cfg, acts);
    }
  }
}
