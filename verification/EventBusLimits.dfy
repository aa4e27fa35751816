/**
 What the safety of the event bus rests on: retention by the endpoint, event and
 subscription allocations that do not overlap, and the note on device iteration.
 */
module EventBusLimits {
  import opened Common
  import opened EventBus
  import opened EventBusSafety

  /** No run that keeps to these rules faults. */
  ghost predicate SafeUnder(r: Rules, cfg: Config) {
    forall acts :: ObeyingRun(r, cfg, Start(cfg), acts) ==> !Run(cfg, Start(cfg), acts).fault
  }

  lemma {:induction false} RunSnoc(r: Rules, cfg: Config, s: Bus, acts: seq<Action>, a: Action)
    ensures Run(cfg, s, acts + [a]) == Step(cfg, Run(cfg, s, acts), a)
    ensures ObeyingRun(r, cfg, s, acts) && Obeys(r, Run(cfg, s, acts), a) ==> ObeyingRun(r, cfg, s, acts + [a])
    decreases |acts|
  {
    hide Step, Obeys;
    if acts == [] {
      assert acts + [a] == [a] && [a][1..] == [];
    } else {
      RunSnoc(r, cfg, Step(cfg, s, acts[0]), acts[1..], a);
      assert (acts + [a])[1..] == acts[1..] + [a];
    }
  }

  /** The run `acts` keeps to the rules and ends in `s`. */
  ghost predicate Leads(r: Rules, cfg: Config, acts: seq<Action>, s: Bus) {
    Run(cfg, Start(cfg), acts) == s && ObeyingRun(r, cfg, Start(cfg), acts)
  }

  lemma Nothing(r: Rules, cfg: Config)
    ensures Leads(r, cfg, [], Start(cfg))
  {
  }

  /** One more action at the end of a run. */
  lemma Extend(r: Rules, cfg: Config, acts: seq<Action>, s: Bus, a: Action) returns (acts': seq<Action>, s': Bus)
    requires Leads(r, cfg, acts, s) && Obeys(r, s, a)
    ensures s' == Step(cfg, s, a) && Leads(r, cfg, acts', s')
  {
    RunSnoc(r, cfg, Start(cfg), acts, a);
    acts', s' := acts + [a], Step(cfg, s, a);
  }

  /** An action that none of the rules is about. */
  lemma Further(r: Rules, cfg: Config, acts: seq<Action>, s: Bus, a: Action) returns (acts': seq<Action>, s': Bus)
    requires Leads(r, cfg, acts, s) && !a.Begin? && !a.SubBegin? && !a.LockLast?
    ensures s' == Step(cfg, s, a) && Leads(r, cfg, acts', s')
  {
    acts', s' := Extend(r, cfg, acts, s, a);
  }

  lemma {:induction false} Weaken(r: Rules, r': Rules, cfg: Config, s: Bus, acts: seq<Action>)
    requires ObeyingRun(r, cfg, s, acts)
    requires (r'.events ==> r.events) && (r'.subs ==> r.subs) && (r'.calm ==> r.calm)
    ensures ObeyingRun(r', cfg, s, acts)
    decreases |acts|
  {
    hide Step, Serial, SerialSub, Calm;
    if acts != [] {
      Weaken(r, r', cfg, Step(cfg, s, acts[0]), acts[1..]);
    }
  }

  // ---------------------------------------------------------------- a subscription and an event

  /** Thread 0 subscribes, with block 0. */
  lemma OneSubscription(cfg: Config) returns (acts: seq<Action>, s: Bus)
    requires cfg.maxSubs >= 1 && cfg.threads >= 1
    ensures Leads(ALL, cfg, acts, s)
    ensures s == Start(cfg).(subs := Start(cfg).subs[0 := Listed([])], subSlot := Some(0), list := [0], handles := multiset{0})
  {
    hide Leads;
    Nothing(ALL, cfg);
    acts, s := Extend(ALL, cfg, [], Start(cfg), SubBegin(0, 0));
    acts, s := Further(ALL, cfg, acts, s, SubAdvance(0));
    assert s.subscribers[0] == SubFresh(0) && s.subs == Start(cfg).subs[0 := Raw];
    acts, s := Further(ALL, cfg, acts, s, SubAdvance(0));
    assert s.subscribers[0] == SubReady(0) && s.subs == Start(cfg).subs[0 := Ready];
    acts, s := Further(ALL, cfg, acts, s, SubAdvance(0));
    assert s.subscribers == Start(cfg).subscribers && s.list == [0];
  }

  /** A subscription, and an event allocated for device `d`. */
  lemma Allocated(cfg: Config, d: nat) returns (acts: seq<Action>, s: Bus)
    requires cfg.pool >= 1 && cfg.maxSubs >= 1 && cfg.threads >= 1 && d < cfg.devices
    ensures Leads(ALL, cfg, acts, s)
    ensures Sized(cfg, s) && s.phases[d] == Allocating(Some(0)) && s.slot == Some(0) && s.blocks[0] == Live(0, 0, d)
    ensures s.subs[0] == Listed([]) && s.list == [0] && s.lock == None && s.eps == Start(cfg).eps
    ensures s.handles == multiset{0} && s.held == multiset{} && s.dying == multiset{}
  {
    hide Leads;
    acts, s := OneSubscription(cfg);
    acts, s := Extend(ALL, cfg, acts, s, Begin(d, 0));
  }

  /** The event being built for endpoint `k`. */
  lemma BeingBuilt(cfg: Config, d: nat, k: nat) returns (acts: seq<Action>, s: Bus)
    requires cfg.pool >= 1 && cfg.maxSubs >= 1 && cfg.threads >= 1 && d < cfg.devices && k < 2
    ensures Leads(ALL, cfg, acts, s)
    ensures Sized(cfg, s) && s.phases[d] == Loaded(0, k) && s.blocks[0] == Live(0, 0, d)
    ensures s.subs[0] == Listed([]) && s.list == [0] && s.lock == None && s.eps[2 * d + k] == Endpoint(None, 0)
    ensures s.handles == multiset{0} && s.held == multiset{} && s.dying == multiset{}
  {
    hide Leads;
    acts, s := Allocated(cfg, d);
    acts, s := Further(ALL, cfg, acts, s, Returned(d));
    assert s.phases[d] == Fresh(0) && s.blocks[0] == Live(0, 0, d);
    acts, s := Further(ALL, cfg, acts, s, Accept(d, k, 0));
  }

  // ---------------------------------------------------------------- an endpoint that does not retain

  /** The event is queued, the endpoint having kept no reference of its own. */
  lemma QueuedUnretained(cfg: Config, d: nat, k: nat) returns (acts: seq<Action>, s: Bus)
    requires ValidConfig(cfg) && cfg.pool >= 1 && cfg.maxSubs >= 1 && cfg.threads >= 1 && d < cfg.devices && k < 2
    requires !cfg.retain[2 * d + k]
    ensures Leads(ALL, cfg, acts, s)
    ensures |s.phases| > d && s.phases[d] == Queueing(0, k, [0]) && |s.blocks| > 0 && s.blocks[0] == Live(1, 0, d)
    ensures |s.subs| > 0 && s.subs[0] == Listed([]) && s.handles == multiset{0} && s.held == multiset{} && s.dying == multiset{}
  {
    hide Leads;
    acts, s := BeingBuilt(cfg, d, k);
    acts, s := Further(ALL, cfg, acts, s, Advance(d));
    assert s.phases[d] == Zeroing(0, k);
    acts, s := Further(ALL, cfg, acts, s, Advance(d));
    assert s.phases[d] == Locking(0, k);
    acts, s := Further(ALL, cfg, acts, s, Advance(d));
    assert s.phases[d] == Notifying(0, k, [0]);
    acts, s := Further(ALL, cfg, acts, s, Match(d, true));
  }

  /** A consumer takes a queued event whose only reference is the queue's, drops it and frees it. */
  lemma ConsumedFirst(cfg: Config, acts0: seq<Action>, s0: Bus, d: nat, k: nat)
    returns (acts: seq<Action>, s: Bus)
    requires Leads(ALL, cfg, acts0, s0)
    requires |s0.phases| > d && s0.phases[d] == Notifying(0, k, [])
    requires |s0.blocks| > 0 && s0.blocks[0] == Live(1, 0, d)
    requires |s0.subs| > 0 && s0.subs[0] == Listed([0]) && s0.handles == multiset{0}
    requires s0.held == multiset{} && s0.dying == multiset{}
    ensures Leads(ALL, cfg, acts, s)
    ensures |s.phases| > d && s.phases[d] == Notifying(0, k, []) && At(s.blocks, 0) == Unused
  {
    hide Leads;
    acts, s := Further(ALL, cfg, acts0, s0, Take(0));
    assert s.held == multiset{0} && s.blocks == s0.blocks && s.phases == s0.phases;
    acts, s := Further(ALL, cfg, acts, s, Unref(0));
    assert s.dying == multiset{0} && s.blocks[0] == Live(0, 0, d) && s.phases == s0.phases;
    acts, s := Further(ALL, cfg, acts, s, Reap(0));
  }

  /** The end of the notification, then the test. */
  lemma TestFreed(cfg: Config, acts0: seq<Action>, s0: Bus, d: nat, k: nat) returns (acts: seq<Action>, s: Bus)
    requires Leads(ALL, cfg, acts0, s0)
    requires |s0.phases| > d && s0.phases[d] == Notifying(0, k, []) && At(s0.blocks, 0) == Unused
    ensures Leads(ALL, cfg, acts, s) && s.fault
  {
    hide Leads;
    acts, s := Further(ALL, cfg, acts0, s0, Advance(d));
    assert s == StepUnlock(s0, d, 0, k);
    acts, s := Further(ALL, cfg, acts, s, Advance(d));
  }

  /** The consumer is done with the event before the producer's final test of its count. */
  lemma TestAfterFree(cfg: Config, d: nat, k: nat) returns (acts: seq<Action>)
    requires ValidConfig(cfg) && cfg.pool >= 1 && cfg.maxSubs >= 1 && cfg.threads >= 1 && d < cfg.devices && k < 2
    requires !cfg.retain[2 * d + k]
    ensures ObeyingRun(ALL, cfg, Start(cfg), acts) && Run(cfg, Start(cfg), acts).fault
  {
    var s;
    acts, s := QueuedUnretained(cfg, d, k);
    acts, s := Further(ALL, cfg, acts, s, Advance(d));
    assert s.phases[d] == Notifying(0, k, []) && s.subs[0] == Listed([0]);
    acts, s := ConsumedFirst(cfg, acts, s, d, k);
    acts, s := TestFreed(cfg, acts, s, d, k);
  }

  // ---------------------------------------------------------------- overlapping event allocations

  const OVERLAPPING_EVENTS: Rules := Rules(false, true, true)

  /** Two devices whose threads both fail on the same block free it twice. */
  lemma FreedTwice(cfg: Config, acts0: seq<Action>, s0: Bus, e: nat) returns (acts: seq<Action>, s: Bus)
    requires Leads(OVERLAPPING_EVENTS, cfg, acts0, s0) && |s0.phases| >= 2 && e < |s0.blocks|
    requires s0.phases[0] == Fresh(e) && s0.phases[1] == Fresh(e)
    ensures Leads(OVERLAPPING_EVENTS, cfg, acts, s) && s.fault
  {
    hide Leads;
    acts, s := Further(OVERLAPPING_EVENTS, cfg, acts0, s0, Reject(0, NoEndpoint));
    assert s.phases == s0.phases[0 := Failing(e)] && s.blocks == s0.blocks;
    acts, s := Further(OVERLAPPING_EVENTS, cfg, acts, s, Reject(1, NoEndpoint));
    assert s.phases == s0.phases[0 := Failing(e)][1 := Failing(e)] && s.blocks == s0.blocks;
    acts, s := FreeBoth(cfg, acts, s, e);
  }

  lemma FreeBoth(cfg: Config, acts0: seq<Action>, s0: Bus, e: nat) returns (acts: seq<Action>, s: Bus)
    requires Leads(OVERLAPPING_EVENTS, cfg, acts0, s0) && |s0.phases| >= 2 && e < |s0.blocks|
    requires s0.phases[0] == Failing(e) && s0.phases[1] == Failing(e)
    ensures Leads(OVERLAPPING_EVENTS, cfg, acts, s) && s.fault
  {
    hide Leads;
    acts, s := Further(OVERLAPPING_EVENTS, cfg, acts0, s0, Advance(0));
    assert s == StepDrop(s0, 0, e);
    assert s.fault || At(s.blocks, e) == Unused;
    acts, s := Further(OVERLAPPING_EVENTS, cfg, acts, s, Advance(1));
  }

  /** Both threads write the static variable before either reads it back. */
  lemma SharedBlock(cfg: Config) returns (acts: seq<Action>)
    requires cfg.pool >= 2 && cfg.devices >= 2
    ensures ObeyingRun(OVERLAPPING_EVENTS, cfg, Start(cfg), acts) && Run(cfg, Start(cfg), acts).fault
  {
    var s;
    acts, s := BothAllocated(cfg);
    acts, s := FreedTwice(cfg, acts, s, 1);
  }

  lemma BothAllocated(cfg: Config) returns (acts: seq<Action>, s: Bus)
    requires cfg.pool >= 2 && cfg.devices >= 2
    ensures Leads(OVERLAPPING_EVENTS, cfg, acts, s) && |s.phases| >= 2 && |s.blocks| >= 2
    ensures s.phases[0] == Fresh(1) && s.phases[1] == Fresh(1)
  {
    Nothing(OVERLAPPING_EVENTS, cfg);
    hide Leads;
    acts, s := Extend(OVERLAPPING_EVENTS, cfg, [], Start(cfg), Begin(0, 0));
    assert s.phases[0].Allocating? && s.phases[1].Idle? && s.blocks[1].Unused? && !Locked(s, 1);
    acts, s := Extend(OVERLAPPING_EVENTS, cfg, acts, s, Begin(1, 1));
    assert s.phases[0].Allocating? && s.phases[1].Allocating? && s.slot == Some(1);
    acts, s := Further(OVERLAPPING_EVENTS, cfg, acts, s, Returned(0));
    acts, s := Further(OVERLAPPING_EVENTS, cfg, acts, s, Returned(1));
  }

  /** The first thread takes the only block and fails on it. */
  lemma OnlyBlockTaken(cfg: Config) returns (acts: seq<Action>, s: Bus)
    requires cfg.pool == 1 && cfg.devices >= 2
    ensures Leads(OVERLAPPING_EVENTS, cfg, acts, s) && |s.phases| >= 2 && |s.eps| == 2 * |s.phases|
    ensures s.phases[0] == Failing(0) && s.phases[1] == Idle && s.blocks == [Live(0, 0, 0)]
    ensures !Locked(s, 0) && !Locked(s, 1)
  {
    Nothing(OVERLAPPING_EVENTS, cfg);
    hide Leads;
    acts, s := Extend(OVERLAPPING_EVENTS, cfg, [], Start(cfg), Begin(0, 0));
    assert s.phases[0] == Allocating(Some(0)) && s.slot == Some(0) && s.blocks == [Live(0, 0, 0)];
    acts, s := Further(OVERLAPPING_EVENTS, cfg, acts, s, Returned(0));
    assert s.phases[0] == Fresh(0) && s.phases[1] == Idle;
    acts, s := Further(OVERLAPPING_EVENTS, cfg, acts, s, Reject(0, NoEndpoint));
  }

  /** With a single block, a second thread finds none left and stores NULL. */
  lemma OutOfBlocks(cfg: Config) returns (acts: seq<Action>, s: Bus)
    requires cfg.pool == 1 && cfg.devices >= 2
    ensures Leads(OVERLAPPING_EVENTS, cfg, acts, s) && |s.phases| >= 2 && |s.eps| == 2 * |s.phases|
    ensures s.phases[0] == Failing(0) && s.phases[1] == Allocating(None) && s.blocks == [Live(0, 0, 0)]
    ensures !Locked(s, 0)
  {
    hide Leads;
    acts, s := OnlyBlockTaken(cfg);
    acts, s := Extend(OVERLAPPING_EVENTS, cfg, acts, s, Begin(1, 0));
  }

  /** Meanwhile the first thread frees the block and takes it once more. */
  lemma TakenAgain(cfg: Config) returns (acts: seq<Action>, s: Bus)
    requires cfg.pool == 1 && cfg.devices >= 2
    ensures Leads(OVERLAPPING_EVENTS, cfg, acts, s) && |s.phases| >= 2 && |s.blocks| == 1
    ensures s.phases[0].Allocating? && s.phases[1].Allocating? && s.slot == Some(0)
  {
    hide Leads;
    acts, s := OutOfBlocks(cfg);
    acts, s := Further(OVERLAPPING_EVENTS, cfg, acts, s, Advance(0));
    assert s.phases[0] == Idle && s.blocks == [Unused] && s.phases[1] == Allocating(None) && !Locked(s, 0);
    acts, s := Extend(OVERLAPPING_EVENTS, cfg, acts, s, Begin(0, 0));
  }

  /** The failed allocation then reads back the block of the first thread. */
  lemma SharedOnlyBlock(cfg: Config) returns (acts: seq<Action>)
    requires cfg.pool == 1 && cfg.devices >= 2
    ensures ObeyingRun(OVERLAPPING_EVENTS, cfg, Start(cfg), acts) && Run(cfg, Start(cfg), acts).fault
  {
    var s;
    acts, s := TakenAgain(cfg);
    acts, s := Further(OVERLAPPING_EVENTS, cfg, acts, s, Returned(0));
    acts, s := Further(OVERLAPPING_EVENTS, cfg, acts, s, Returned(1));
    acts, s := FreedTwice(cfg, acts, s, 0);
  }

  // ---------------------------------------------------------------- overlapping subscriptions

  const OVERLAPPING_SUBS: Rules := Rules(true, false, true)

  /** Two threads that both read back the same block: the second initialises it under the first one's feet. */
  lemma ListedThenInitialised(cfg: Config, acts0: seq<Action>, s0: Bus, i: nat) returns (acts: seq<Action>, s: Bus)
    requires Leads(OVERLAPPING_SUBS, cfg, acts0, s0) && |s0.subscribers| >= 2 && i < |s0.subs| && s0.lock == None
    requires s0.subscribers[0] == SubFresh(i) && s0.subscribers[1] == SubFresh(i) && s0.subs[i] == Raw
    ensures Leads(OVERLAPPING_SUBS, cfg, acts, s) && s.fault
  {
    hide Leads;
    acts, s := Further(OVERLAPPING_SUBS, cfg, acts0, s0, SubAdvance(0));
    assert s.subscribers[0] == SubReady(i) && s.subscribers[1] == SubFresh(i) && s.subs[i] == Ready && s.lock == None;
    acts, s := Further(OVERLAPPING_SUBS, cfg, acts, s, SubAdvance(0));
    assert s.subscribers[1] == SubFresh(i) && s.subs[i] == Listed([]);
    acts, s := Further(OVERLAPPING_SUBS, cfg, acts, s, SubAdvance(1));
  }

  /** Both threads write the static variable of `sub_alloc` before either reads it back. */
  lemma SharedSubscription(cfg: Config) returns (acts: seq<Action>)
    requires cfg.maxSubs >= 2 && cfg.threads >= 2
    ensures ObeyingRun(OVERLAPPING_SUBS, cfg, Start(cfg), acts) && Run(cfg, Start(cfg), acts).fault
  {
    var s;
    acts, s := BothSubscribing(cfg);
    acts, s := ListedThenInitialised(cfg, acts, s, 1);
  }

  lemma BothSubscribing(cfg: Config) returns (acts: seq<Action>, s: Bus)
    requires cfg.maxSubs >= 2 && cfg.threads >= 2
    ensures Leads(OVERLAPPING_SUBS, cfg, acts, s) && |s.subscribers| >= 2 && |s.subs| >= 2 && s.lock == None
    ensures s.subscribers[0] == SubFresh(1) && s.subscribers[1] == SubFresh(1) && s.subs[1] == Raw
  {
    Nothing(OVERLAPPING_SUBS, cfg);
    hide Leads;
    acts, s := Extend(OVERLAPPING_SUBS, cfg, [], Start(cfg), SubBegin(0, 0));
    assert s.subscribers[0].SubAllocating? && s.subscribers[1] == Outside && s.subs[1] == NoSub;
    acts, s := Extend(OVERLAPPING_SUBS, cfg, acts, s, SubBegin(1, 1));
    assert s.subscribers[0].SubAllocating? && s.subscribers[1].SubAllocating? && s.subSlot == Some(1) && s.subs[1] == Raw;
    acts, s := Further(OVERLAPPING_SUBS, cfg, acts, s, SubAdvance(0));
    acts, s := Further(OVERLAPPING_SUBS, cfg, acts, s, SubAdvance(1));
  }

  /** With one subscription, taken by the first thread, the second stores NULL. */
  lemma OneTooMany(cfg: Config) returns (acts: seq<Action>, s: Bus)
    requires cfg.maxSubs == 1 && cfg.threads >= 2
    ensures Leads(OVERLAPPING_SUBS, cfg, acts, s) && |s.subscribers| >= 2 && s.lock == None
    ensures s.subscribers[0] == Outside && s.subscribers[1] == SubAllocating(None) && s.subs == [Listed([])]
    ensures 0 in s.handles && s.list == [0]
  {
    acts, s := OneSubscription(cfg);
    Weaken(ALL, OVERLAPPING_SUBS, cfg, Start(cfg), acts);
    assert Leads(OVERLAPPING_SUBS, cfg, acts, s);
    hide Leads;
    assert s.subs == [Listed([])];
    acts, s := Extend(OVERLAPPING_SUBS, cfg, acts, s, SubBegin(1, 0));
  }

  /** Then the first thread gives its subscription back. */
  lemma OutOfSubscriptions(cfg: Config) returns (acts: seq<Action>, s: Bus)
    requires cfg.maxSubs == 1 && cfg.threads >= 2
    ensures Leads(OVERLAPPING_SUBS, cfg, acts, s) && |s.subscribers| >= 2 && s.lock == None
    ensures s.subscribers[0] == Outside && s.subscribers[1] == SubAllocating(None) && s.subs == [NoSub]
  {
    hide Leads;
    acts, s := OneTooMany(cfg);
    acts, s := Further(OVERLAPPING_SUBS, cfg, acts, s, Unsubscribe(0));
    assert s.subs == [Draining([])];
    acts, s := Further(OVERLAPPING_SUBS, cfg, acts, s, Release(0));
  }

  lemma SharedOnlySubscription(cfg: Config) returns (acts: seq<Action>)
    requires cfg.maxSubs == 1 && cfg.threads >= 2
    ensures ObeyingRun(OVERLAPPING_SUBS, cfg, Start(cfg), acts) && Run(cfg, Start(cfg), acts).fault
  {
    var s;
    acts, s := OutOfSubscriptions(cfg);
    acts, s := Extend(OVERLAPPING_SUBS, cfg, acts, s, SubBegin(0, 0));
    assert s.subscribers[0].SubAllocating? && s.subscribers[1].SubAllocating? && s.subSlot == Some(0) && s.subs == [Raw];
    acts, s := Further(OVERLAPPING_SUBS, cfg, acts, s, SubAdvance(0));
    acts, s := Further(OVERLAPPING_SUBS, cfg, acts, s, SubAdvance(1));
    acts, s := ListedThenInitialised(cfg, acts, s, 0);
  }

  // ---------------------------------------------------------------- iteration while an event is added

  const RESTLESS: Rules := Rules(true, true, false)

  /** An endpoint is locked while it has no event, and an event is begun for it. */
  lemma LockedFirst(cfg: Config) returns (acts: seq<Action>, s: Bus)
    requires cfg.pool >= 1 && cfg.devices >= 1
    ensures Leads(RESTLESS, cfg, acts, s) && |s.phases| >= 1 && |s.eps| >= 2 && |s.blocks| >= 1
    ensures s.phases[0] == Allocating(Some(0)) && s.slot == Some(0) && s.blocks[0] == Live(0, 0, 0)
    ensures s.eps[0] == Endpoint(None, 1) && s.dying == multiset{}
  {
    Nothing(RESTLESS, cfg);
    hide Leads;
    acts, s := Extend(RESTLESS, cfg, [], Start(cfg), LockLast(0));
    acts, s := Extend(RESTLESS, cfg, acts, s, Begin(0, 0));
  }

  lemma LoadedWhileLocked(cfg: Config) returns (acts: seq<Action>, s: Bus)
    requires cfg.pool >= 1 && cfg.devices >= 1
    ensures Leads(RESTLESS, cfg, acts, s) && |s.phases| >= 1 && |s.eps| >= 2 && |s.blocks| >= 1
    ensures s.phases[0] == Loaded(0, 0) && s.blocks[0] == Live(0, 0, 0)
    ensures s.eps[0] == Endpoint(None, 1) && s.dying == multiset{}
  {
    hide Leads;
    acts, s := LockedFirst(cfg);
    acts, s := Further(RESTLESS, cfg, acts, s, Returned(0));
    assert s.phases[0] == Fresh(0) && s.blocks[0] == Live(0, 0, 0) && s.eps[0] == Endpoint(None, 1);
    acts, s := Further(RESTLESS, cfg, acts, s, Accept(0, 0, 0));
  }

  /** The endpoint retains the event once. */
  lemma RetainedWhileLocked(cfg: Config) returns (acts: seq<Action>, s: Bus)
    requires Retains(cfg) && cfg.pool >= 1 && cfg.devices >= 1
    ensures Leads(RESTLESS, cfg, acts, s) && |s.phases| >= 1 && |s.eps| >= 2 && |s.blocks| >= 1
    ensures s.phases[0] == Retaining(0, 0) && s.blocks[0] == Live(0, 0, 0)
    ensures s.eps[0] == Endpoint(None, 1) && s.dying == multiset{}
  {
    hide Leads;
    acts, s := LoadedWhileLocked(cfg);
    acts, s := Further(RESTLESS, cfg, acts, s, Advance(0));
    assert s.phases[0] == Zeroing(0, 0) && s.blocks[0] == Live(0, 0, 0) && s.eps[0] == Endpoint(None, 1);
    acts, s := Further(RESTLESS, cfg, acts, s, Advance(0));
  }

  lemma StoredWhileLocked(cfg: Config) returns (acts: seq<Action>, s: Bus)
    requires Retains(cfg) && cfg.pool >= 1 && cfg.devices >= 1
    ensures Leads(RESTLESS, cfg, acts, s)
    ensures |s.eps| >= 2 && s.eps[0] == Endpoint(Some(0), 1) && |s.blocks| >= 1 && s.blocks[0] == Live(1, 0, 0)
    ensures s.dying == multiset{}
  {
    hide Leads;
    acts, s := RetainedWhileLocked(cfg);
    acts, s := Further(RESTLESS, cfg, acts, s, Advance(0));
    assert s.phases[0] == Storing(0, 0) && s.blocks[0] == Live(1, 0, 0) && s.eps[0] == Endpoint(None, 1);
    acts, s := Further(RESTLESS, cfg, acts, s, Advance(0));
  }

  /** The unlock drops the reference of the endpoint itself, and the event is freed under it. */
  lemma UnlockFrees(cfg: Config, acts0: seq<Action>, s0: Bus) returns (acts: seq<Action>, s: Bus)
    requires Leads(RESTLESS, cfg, acts0, s0)
    requires |s0.eps| >= 2 && s0.eps[0] == Endpoint(Some(0), 1) && |s0.blocks| >= 1 && s0.blocks[0] == Live(1, 0, 0)
    requires s0.dying == multiset{}
    ensures Leads(RESTLESS, cfg, acts, s)
    ensures |s.eps| >= 2 && s.eps[0] == Endpoint(Some(0), 0) && |s.blocks| >= 1 && s.blocks[0] == Unused
  {
    hide Leads;
    acts, s := Further(RESTLESS, cfg, acts0, s0, UnlockLast(0));
    assert s.eps[0] == Endpoint(Some(0), 0) && s.blocks[0] == Live(0, 0, 0) && 0 in s.dying;
    acts, s := Further(RESTLESS, cfg, acts, s, Reap(0));
  }

  /** Iterating over the endpoint once more then takes a reference on a freed event. */
  lemma UnlockedTooMuch(cfg: Config) returns (acts: seq<Action>)
    requires Retains(cfg) && cfg.pool >= 1 && cfg.devices >= 1
    ensures ObeyingRun(RESTLESS, cfg, Start(cfg), acts) && Run(cfg, Start(cfg), acts).fault
  {
    var s;
    acts, s := StoredWhileLocked(cfg);
    acts, s := UnlockFrees(cfg, acts, s);
    acts, s := Extend(RESTLESS, cfg, acts, s, LockLast(0));
  }

  // ---------------------------------------------------------------- the exact condition

  lemma AdvanceThreads(cfg: Config, s: Bus, d: nat)
    requires d < |s.phases|
    ensures |StepAdvance(cfg, s, d).phases| == |s.phases|
  {
    if s.phases[d].Locking? || s.phases[d].Notifying? {
      AdvanceMutex(cfg, s, d);
    } else if !s.phases[d].Loaded? && !s.phases[d].Storing? && !s.phases[d].Queueing? {
      AdvancePhase(cfg, s, d);
    }
  }

  lemma SameDevices(cfg: Config, s: Bus, a: Action)
    ensures |Step(cfg, s, a).phases| == |s.phases|
  {
    hide SetCount, Count;
    if a.Advance? {
      if a.dev < |s.phases| { AdvanceThreads(cfg, s, a.dev); }
    } else if Quiet(a) {
      QuietShape(cfg, s, a);
    } else if a.LockLast? || a.UnlockLast? {
      LockPhases(s, a.ep);
    } else if a.Match? {
      MatchPhases(s, a.dev, a.yes);
    }
  }

  lemma LockPhases(s: Bus, i: nat)
    ensures StepLockLast(s, i).phases == s.phases && StepUnlockLast(s, i).phases == s.phases
  {
  }

  lemma MatchPhases(s: Bus, d: nat, yes: bool)
    ensures |StepMatch(s, d, yes).phases| == |s.phases|
  {
  }

  lemma SameThreads(cfg: Config, s: Bus, a: Action)
    ensures |Step(cfg, s, a).subscribers| == |s.subscribers|
  {
    if !OfSubscriber(a) {
      StepAlone(cfg, s, a);
    }
  }

  /** A single device, or a single subscribing thread, cannot overlap with itself. */
  lemma {:induction false} AloneIsSerial(r: Rules, cfg: Config, s: Bus, acts: seq<Action>)
    requires ObeyingRun(r, cfg, s, acts) && r.calm
    requires (r.events || |s.phases| == 1) && (r.subs || |s.subscribers| == 1)
    ensures ObeyingRun(ALL, cfg, s, acts)
    decreases |acts|
  {
    if acts != [] {
      SameDevices(cfg, s, acts[0]);
      SameThreads(cfg, s, acts[0]);
      hide Step;
      AloneIsSerial(r, cfg, Step(cfg, s, acts[0]), acts[1..]);
    }
  }

  lemma Unsafe(r: Rules, r': Rules, cfg: Config, acts: seq<Action>)
    requires ObeyingRun(r, cfg, Start(cfg), acts) && Run(cfg, Start(cfg), acts).fault
    requires (r'.events ==> r.events) && (r'.subs ==> r.subs) && (r'.calm ==> r.calm)
    ensures !SafeUnder(r', cfg)
  {
    Weaken(r, r', cfg, Start(cfg), acts);
  }

  /**
   Whatever rules the runs keep to, the bus is safe exactly when every endpoint
   retains its last event, the note on iteration is kept, and each of the two
   allocators either is used by one thread at a time or has one thread only.
   */
  lemma SafeExactly(r: Rules, cfg: Config)
    requires ValidConfig(cfg) && cfg.pool >= 1 && cfg.devices >= 1 && cfg.maxSubs >= 1 && cfg.threads >= 1
    ensures SafeUnder(r, cfg) <==>
      && Retains(cfg) && r.calm
      && (r.events || cfg.devices == 1)
      && (r.subs || cfg.threads == 1)
  {
    hide ObeyingRun, Run, SafeUnder;
    if !Retains(cfg) {
      var i :| 0 <= i < |cfg.retain| && !cfg.retain[i];
      assert i == 2 * (i / 2) + i % 2;
      var acts := TestAfterFree(cfg, i / 2, i % 2);
      Unsafe(ALL, r, cfg, acts);
    } else if !r.calm {
      var acts := UnlockedTooMuch(cfg);
      Unsafe(RESTLESS, r, cfg, acts);
    } else if !r.events && cfg.devices > 1 {
      var acts;
      if cfg.pool >= 2 { acts := SharedBlock(cfg); } else { acts := SharedOnlyBlock(cfg); }
      Unsafe(OVERLAPPING_EVENTS, r, cfg, acts);
    } else if !r.subs && cfg.threads > 1 {
      var acts;
      if cfg.maxSubs >= 2 { acts := SharedSubscription(cfg); } else { acts := SharedOnlySubscription(cfg); }
      Unsafe(OVERLAPPING_SUBS, r, cfg, acts);
    } else {
      Safe(r, cfg);
    }
  }

  /** When all three rules are kept, retention alone decides. */
  lemma SafeExactlyWhenRetaining(cfg: Config)
    requires ValidConfig(cfg) && cfg.pool >= 1 && cfg.devices >= 1 && cfg.maxSubs >= 1 && cfg.threads >= 1
    ensures SafeUnder(ALL, cfg) <==> Retains(cfg)
  {
    SafeExactly(ALL, cfg);
  }

  lemma Safe(r: Rules, cfg: Config)
    requires Retains(cfg) && r.calm && (r.events || cfg.devices == 1) && (r.subs || cfg.threads == 1)
    ensures SafeUnder(r, cfg)
  {
    forall acts | ObeyingRun(r, cfg, Start(cfg), acts)
      ensures !Run(cfg, Start(cfg), acts).fault
    {
      AloneIsSerial(r, cfg, Start(cfg), acts);
      OwnershipSafety(cfg, acts);
    }
  }
}
