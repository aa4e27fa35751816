/**
 The extended subscription filters: a lookup table, grown in place, keeps one
 counter or timestamp per device (or one for all devices), and a filter decides
 on each event. Every run equals, device by device, the filter run on that
 device's events alone, and each filter has a closed form.
 */
module SubsFilters {

  import opened Common

  /** The filters `ha_subs_ext_conf_set` supports, with their 32-bit parameter. */
  datatype Filter =
    | Unfiltered
    | Duplicate
    | Count(maxCount: nat)
    | Interval(interval: nat)
    | Subsampling(every: nat)

  /** The lookup types it supports. */
  datatype Lookup = Any | Sdevuid

  /** A 32-bit word. */
  type word = n: int | 0 <= n < 0x1_0000_0000

  /**
   An event, as a filter sees it: `listened` tells whether it passes the type and
   address tests ahead of the filter; `memory` whether an entry could be allocated,
   and what the memory of it held, which is not cleared.
   */
  datatype Event = Event(sdevuid: nat, timestamp: nat, listened: bool, memory: Option<word>)

  // ---------------------------------------------------------------- one device alone

  /** The table entry of a device, if it has one. */
  datatype Cell = Absent | Present(value: nat)

  /** The entry after an event, given the one found or just allocated. */
  function NewValue(f: Filter, created: bool, value: nat, e: Event): nat {
    match f
    case Unfiltered => value
    case Duplicate => value
    case Count(_) => (value + 1) % U32
    case Interval(n) => if created || Elapsed(value, e.timestamp) >= n then e.timestamp else value
    case Subsampling(n) => ((if value == n then 0 else value) + 1) % U32
  }

  predicate Passes(f: Filter, created: bool, value: nat, e: Event) {
    match f
    case Unfiltered => true
    case Duplicate => created
    case Count(n) => (value + 1) % U32 <= n
    case Interval(n) => created || Elapsed(value, e.timestamp) >= n
    case Subsampling(n) => value == n || value == 0
  }

  function CellStep(f: Filter, c: Cell, e: Event): Cell {
    match c
    case Present(v) => Present(NewValue(f, false, v, e))
    case Absent => if e.memory.Some? then Present(NewValue(f, true, e.memory.value, e)) else Absent
  }

  predicate CellPasses(f: Filter, c: Cell, e: Event) {
    match c
    case Present(v) => Passes(f, false, v, e)
    case Absent => if e.memory.Some? then Passes(f, true, e.memory.value, e) else f == Unfiltered
  }

  /** The entry of a device after its events `own`. */
  function CellAfter(f: Filter, own: seq<Event>): Cell {
    if own == [] then Absent else CellStep(f, CellAfter(f, own[..|own| - 1]), own[|own| - 1])
  }

  /** The decision on the last of a device's events. */
  predicate Decision(f: Filter, own: seq<Event>) {
    own != [] && CellPasses(f, CellAfter(f, own[..|own| - 1]), own[|own| - 1])
  }

  // ---------------------------------------------------------------- all devices

  predicate SameKey(lookup: Lookup, a: nat, b: nat) {
    lookup == Any || a == b
  }

  /** The events that share the table entry of device `dev`. */
  function Own(lookup: Lookup, evs: seq<Event>, dev: nat): seq<Event> {
    if evs == [] then []
    else
      var init, e := Own(lookup, evs[..|evs| - 1], dev), evs[|evs| - 1];
      if e.listened && SameKey(lookup, e.sdevuid, dev) then init + [e] else init
  }

  datatype Entry = Entry(sdevuid: nat, value: nat)

  /** The position of the first entry that serves `dev`, or the length of the list. */
  function Position(lookup: Lookup, entries: seq<Entry>, dev: nat): nat
    ensures Position(lookup, entries, dev) <= |entries|
  {
    if entries == [] then 0
    else if SameKey(lookup, entries[0].sdevuid, dev) then 0
    else 1 + Position(lookup, entries[1..], dev)
  }

  function CellOf(lookup: Lookup, entries: seq<Entry>, dev: nat): Cell {
    var k := Position(lookup, entries, dev);
    if k < |entries| then Present(entries[k].value) else Absent
  }

  /** At most one entry per device, or a single one for all. */
  predicate OneEach(lookup: Lookup, entries: seq<Entry>) {
    forall i, j :: 0 <= i < j < |entries| ==> !SameKey(lookup, entries[i].sdevuid, entries[j].sdevuid)
  }

  /** Every device's entry is what its own events make it. */
  ghost predicate Reflects(lookup: Lookup, f: Filter, entries: seq<Entry>, evs: seq<Event>) {
    forall dev: nat :: CellOf(lookup, entries, dev) == CellAfter(f, Own(lookup, evs, dev))
  }

  lemma {:induction false} PositionIs(lookup: Lookup, entries: seq<Entry>, dev: nat, k: nat)
    requires k <= |entries| && (forall i :: 0 <= i < k ==> !SameKey(lookup, entries[i].sdevuid, dev))
    requires k < |entries| ==> SameKey(lookup, entries[k].sdevuid, dev)
    ensures Position(lookup, entries, dev) == k
    decreases k
  {
    if k > 0 {
      PositionIs(lookup, entries[1..], dev, k - 1);
    }
  }

  lemma {:induction false} PositionFinds(lookup: Lookup, entries: seq<Entry>, dev: nat)
    ensures var k := Position(lookup, entries, dev);
      && (forall i :: 0 <= i < k ==> !SameKey(lookup, entries[i].sdevuid, dev))
      && (k < |entries| ==> SameKey(lookup, entries[k].sdevuid, dev))
    decreases |entries|
  {
    if entries != [] && !SameKey(lookup, entries[0].sdevuid, dev) {
      PositionFinds(lookup, entries[1..], dev);
    }
  }

  /** Writing the entry of one device leaves those of the others alone. */
  lemma UpdateCell(lookup: Lookup, entries: seq<Entry>, k: nat, value: nat, dev: nat)
    requires k < |entries| && OneEach(lookup, entries)
    ensures
      CellOf(lookup, entries[k := entries[k].(value := value)], dev) ==
      if SameKey(lookup, entries[k].sdevuid, dev) then Present(value) else CellOf(lookup, entries, dev)
  {
    var entries' := entries[k := entries[k].(value := value)];
    PositionFinds(lookup, entries, dev);
    var p := Position(lookup, entries, dev);
    PositionIs(lookup, entries', dev, p);
  }

  lemma AppendCell(lookup: Lookup, entries: seq<Entry>, e: Entry, dev: nat)
    requires forall i :: 0 <= i < |entries| ==> !SameKey(lookup, entries[i].sdevuid, e.sdevuid)
    ensures OneEach(lookup, entries) ==> OneEach(lookup, entries + [e])
    ensures
      CellOf(lookup, entries + [e], dev) ==
      if SameKey(lookup, e.sdevuid, dev) then Present(e.value) else CellOf(lookup, entries, dev)
  {
    PositionFinds(lookup, entries, dev);
    var p := Position(lookup, entries, dev);
    if p == |entries| && !SameKey(lookup, e.sdevuid, dev) {
      PositionIs(lookup, entries + [e], dev, p + 1);
    } else {
      PositionIs(lookup, entries + [e], dev, p);
    }
  }

  /** The entry of an event's device has become `c`; those of the other devices are as they were. */
  ghost predicate Became(lookup: Lookup, before: seq<Entry>, after: seq<Entry>, e: Event, c: Cell) {
    && OneEach(lookup, after)
    && forall dev: nat ::
         CellOf(lookup, after, dev) == if SameKey(lookup, e.sdevuid, dev) then c else CellOf(lookup, before, dev)
  }

  // ---------------------------------------------------------------- the lookup table

  class LookupTable {
    const lookup: Lookup
    const filter: Filter
    var entries: seq<Entry>

    constructor (lookup: Lookup, filter: Filter)
      ensures this.lookup == lookup && this.filter == filter && entries == []
    {
      this.lookup, this.filter, entries := lookup, filter, [];
    }

    /** `lt_find`; the length of the list stands for "none". */
    method Find(e: Event) returns (k: nat)
      ensures k == Position(lookup, entries, e.sdevuid)
    {
      k := 0;
      while k < |entries| && !SameKey(lookup, entries[k].sdevuid, e.sdevuid)
        invariant k <= |entries|
        invariant forall i :: 0 <= i < k ==> !SameKey(lookup, entries[i].sdevuid, e.sdevuid)
      {
        k := k + 1;
      }
      PositionIs(lookup, entries, e.sdevuid, k);
    }

    /** `lt_find_otherwise_allocate`; a new entry holds what its memory did. */
    method FindOtherwiseAllocate(e: Event) returns (k: nat, created: bool)
      requires OneEach(lookup, entries)
      modifies this
      ensures k <= |entries|
      ensures k == |entries| <==> old(CellOf(lookup, entries, e.sdevuid)) == Absent && e.memory.None?
      ensures k == |entries| ==> entries == old(entries) && !created
      ensures k < |entries| ==>
        && SameKey(lookup, entries[k].sdevuid, e.sdevuid)
        && created == (old(CellOf(lookup, entries, e.sdevuid)) == Absent)
        && (if created
            then && e.memory.Some? && entries[k].value == e.memory.value
                 && Became(lookup, old(entries), entries, e, Present(e.memory.value))
            else entries == old(entries) && Present(entries[k].value) == CellOf(lookup, entries, e.sdevuid))
    {
      created := false;
      k := Find(e);
      PositionFinds(lookup, entries, e.sdevuid);
      if k == |entries| && e.memory.Some? {
        var entry := Entry(e.sdevuid, e.memory.value);
        forall dev: nat
          ensures CellOf(lookup, entries + [entry], dev) ==
            if SameKey(lookup, e.sdevuid, dev) then Present(e.memory.value) else CellOf(lookup, entries, dev)
          ensures OneEach(lookup, entries + [entry])
        {
          AppendCell(lookup, entries, entry, dev);
        }
        entries := entries + [entry];
        created := true;
      }
    }

    /** `lt_update_cb` and the four filter callbacks. */
    method FilterCb(e: Event) returns (pass: bool)
      requires OneEach(lookup, entries)
      modifies this
      ensures pass == CellPasses(filter, old(CellOf(lookup, entries, e.sdevuid)), e)
      ensures Became(lookup, old(entries), entries, e, CellStep(filter, old(CellOf(lookup, entries, e.sdevuid)), e))
    {
      var k, created := FindOtherwiseAllocate(e);
      if k == |entries| {
        forall dev: nat | SameKey(lookup, e.sdevuid, dev)
          ensures CellOf(lookup, entries, dev) == CellOf(lookup, entries, e.sdevuid)
        {
          assert lookup == Any || dev == e.sdevuid;
        }
        return filter == Unfiltered;
      }
      var value := entries[k].value;
      match filter {
        case Unfiltered =>
          pass := true;
        case Duplicate =>
          pass := created;
        case Count(maxCount) =>
          value := (value + 1) % U32;
          pass := value <= maxCount;
        case Interval(interval) =>
          pass := created || Elapsed(value, e.timestamp) >= interval;
          if pass {
            value := e.timestamp;
          }
        case Subsampling(every) =>
          if value == every {
            value := 0;
          }
          pass := value == 0;
          value := (value + 1) % U32;
      }
      assert CellStep(filter, old(CellOf(lookup, entries, e.sdevuid)), e) == Present(value);
      ghost var found := entries;
      SetValue(k, value);
      forall dev: nat
        ensures CellOf(lookup, entries, dev) ==
          if SameKey(lookup, e.sdevuid, dev) then Present(value) else old(CellOf(lookup, entries, dev))
      {
        assert SameKey(lookup, found[k].sdevuid, dev) == SameKey(lookup, e.sdevuid, dev);
        assert SameKey(lookup, e.sdevuid, dev) || CellOf(lookup, found, dev) == old(CellOf(lookup, entries, dev));
      }
    }

    method SetValue(k: nat, value: nat)
      requires k < |entries| && OneEach(lookup, entries)
      modifies this
      ensures OneEach(lookup, entries)
      ensures forall dev: nat ::
        CellOf(lookup, entries, dev) ==
        if SameKey(lookup, old(entries[k]).sdevuid, dev) then Present(value) else old(CellOf(lookup, entries, dev))
    {
      forall dev: nat
        ensures CellOf(lookup, entries[k := entries[k].(value := value)], dev) ==
          if SameKey(lookup, entries[k].sdevuid, dev) then Present(value) else CellOf(lookup, entries, dev)
      {
        UpdateCell(lookup, entries, k, value, dev);
      }
      entries := entries[k := entries[k].(value := value)];
    }

    /** `event_match_sub` of a subscription with this table. */
    method MatchSub(e: Event, ghost evs: seq<Event>) returns (pass: bool)
      requires OneEach(lookup, entries) && Reflects(lookup, filter, entries, evs)
      modifies this
      ensures OneEach(lookup, entries) && Reflects(lookup, filter, entries, evs + [e])
      ensures pass <==> e.listened && Decision(filter, Own(lookup, evs + [e], e.sdevuid))
    {
      ghost var before := entries;
      assert (evs + [e])[..|evs|] == evs;
      pass := false;
      if e.listened {
        pass := FilterCb(e);
        forall dev: nat
          ensures CellOf(lookup, entries, dev) == CellAfter(filter, Own(lookup, evs + [e], dev))
        {
          OwnStep(lookup, filter, before, evs, e, dev);
        }
        OwnStep(lookup, filter, before, evs, e, e.sdevuid);
      }
    }

    /** `ha_subs_ext_lt_clear`. */
    method Clear()
      modifies this
      ensures entries == []
    {
      while entries != []
        decreases |entries|
      {
        entries := entries[1..];
      }
    }
  }

  /** An event that reaches the filter joins the events of exactly the devices sharing its entry. */
  lemma OwnStep(lookup: Lookup, f: Filter, entries: seq<Entry>, evs: seq<Event>, e: Event, dev: nat)
    requires Reflects(lookup, f, entries, evs) && e.listened
    ensures
      var own := Own(lookup, evs + [e], dev);
      && (!SameKey(lookup, e.sdevuid, dev) ==> CellAfter(f, own) == CellOf(lookup, entries, dev))
      && (SameKey(lookup, e.sdevuid, dev) ==>
            && CellAfter(f, own) == CellStep(f, CellOf(lookup, entries, e.sdevuid), e)
            && own != [] && Decision(f, own) == CellPasses(f, CellOf(lookup, entries, e.sdevuid), e))
  {
    var own := Own(lookup, evs, dev);
    assert (evs + [e])[..|evs|] == evs;
    assert CellOf(lookup, entries, dev) == CellAfter(f, own);
    if SameKey(lookup, e.sdevuid, dev) {
      assert CellOf(lookup, entries, dev) == CellOf(lookup, entries, e.sdevuid);
      assert (own + [e])[..|own|] == own;
    }
  }

  /** The decision on event `i` of a stream: the filter's, on the events that share its entry alone. */
  predicate Decided(lookup: Lookup, f: Filter, evs: seq<Event>, i: nat)
    requires i < |evs|
  {
    evs[i].listened && Decision(f, Own(lookup, evs[..i + 1], evs[i].sdevuid))
  }

  /** A subscription over any stream of events: no device's events change the decisions on another's. */
  method Run(lookup: Lookup, f: Filter, evs: seq<Event>) returns (passed: seq<bool>)
    ensures |passed| == |evs|
    ensures forall i :: 0 <= i < |evs| ==> passed[i] == Decided(lookup, f, evs, i)
  {
    var table := new LookupTable(lookup, f);
    passed := [];
    while |passed| < |evs|
      invariant |passed| <= |evs|
      invariant table.lookup == lookup && table.filter == f && fresh(table)
      invariant OneEach(lookup, table.entries) && Reflects(lookup, f, table.entries, evs[..|passed|])
      invariant forall i :: 0 <= i < |passed| ==> passed[i] == Decided(lookup, f, evs, i)
    {
      var i := |passed|;
      var pass := Next(table, evs, i);
      passed := passed + [pass];
    }
  }

  method Next(table: LookupTable, evs: seq<Event>, i: nat) returns (pass: bool)
    requires i < |evs|
    requires OneEach(table.lookup, table.entries) && Reflects(table.lookup, table.filter, table.entries, evs[..i])
    modifies table
    ensures OneEach(table.lookup, table.entries) && Reflects(table.lookup, table.filter, table.entries, evs[..i + 1])
    ensures pass == Decided(table.lookup, table.filter, evs, i)
  {
    assert evs[..i + 1] == evs[..i] + [evs[i]];
    pass := table.MatchSub(evs[i], evs[..i]);
  }

  // ---------------------------------------------------------------- closed forms

  /** How many of a device's events had an entry: all of them, from the first one that could allocate it. */
  function Rank(own: seq<Event>): nat {
    if own == [] then 0
    else
      var init := Rank(own[..|own| - 1]);
      if init > 0 || own[|own| - 1].memory.Some? then init + 1 else 0
  }

  lemma {:induction false} RankAll(own: seq<Event>)
    requires forall e :: e in own ==> e.memory.Some?
    ensures Rank(own) == |own|
  {
    if own != [] {
      RankAll(own[..|own| - 1]);
    }
  }

  /** What the memory of a device's entry held when it was allocated. */
  function Initial(own: seq<Event>): word {
    if own == [] then 0
    else if Rank(own[..|own| - 1]) > 0 then Initial(own[..|own| - 1])
    else if own[|own| - 1].memory.Some? then own[|own| - 1].memory.value
    else 0
  }

  /** Some device's events: `r` of them, the first of which finds `init` in the memory of its entry. */
  function Alike(r: nat, init: word): seq<Event> {
    seq(r, _ => Event(0, 0, true, Some(init)))
  }

  lemma {:induction false} AlikeHas(r: nat, init: word)
    ensures Rank(Alike(r, init)) == r && (r > 0 ==> Alike(r, init) != [] && Initial(Alike(r, init)) == init)
  {
    if r > 0 {
      AlikeHas(r - 1, init);
      assert Alike(r, init)[..r - 1] == Alike(r - 1, init);
    }
  }

  /** Without a filter everything passes, memory or not. */
  lemma UnfilteredForm(own: seq<Event>)
    requires own != []
    ensures Decision(Unfiltered, own)
  {
  }

  /** Duplicate: a device's first event only. */
  lemma {:induction false} DuplicateForm(own: seq<Event>)
    ensures CellAfter(Duplicate, own) == (if Rank(own) == 0 then Absent else Present(Initial(own)))
    ensures own != [] ==> (Decision(Duplicate, own) <==> Rank(own) == 1)
  {
    if own != [] {
      DuplicateForm(own[..|own| - 1]);
    }
  }

  /** A counter of 32 bits that started at `init`, after `r` increments. */
  function Counted(init: word, r: nat): word {
    (init + r) % U32
  }

  lemma CountedNext(init: word, r: nat)
    ensures Counted(init, 0) == init && (Counted(init, r) + 1) % U32 == Counted(init, r + 1)
  {
  }

  /** Count: the events whose number, added to what the memory of the entry held, is at most the maximum modulo 2^32. */
  lemma {:induction false} CountForm(maxCount: nat, own: seq<Event>)
    requires maxCount < U32
    ensures CellAfter(Count(maxCount), own) == (if Rank(own) == 0 then Absent else Present(Counted(Initial(own), Rank(own))))
    ensures own != [] ==>
      (Decision(Count(maxCount), own) <==> 0 < Rank(own) && Counted(Initial(own), Rank(own)) <= maxCount)
  {
    hide Counted;
    if own != [] {
      CountForm(maxCount, own[..|own| - 1]);
      CountedNext(Initial(own), Rank(own[..|own| - 1]));
    }
  }

  /** Of fewer than 2^32 events of a device whose entry held `init`, the first ones pass, as many as the maximum. */
  ghost predicate CountsFirst(maxCount: nat, init: word) {
    forall own: seq<Event> :: own != [] && Initial(own) == init && 0 < Rank(own) < U32 ==>
      (Decision(Count(maxCount), own) <==> Rank(own) <= maxCount)
  }

  lemma CountedAgrees(maxCount: nat, init: word, r: nat)
    requires maxCount < U32 && 0 < r < U32 && (init == 0 || maxCount == U32 - 1)
    ensures Counted(init, r) <= maxCount <==> r <= maxCount
  {
  }

  lemma CountedDiffers(maxCount: nat, init: word) returns (r: nat)
    requires maxCount < U32 - 1 && init != 0
    ensures 0 < r < U32 && (Counted(init, r) <= maxCount) != (r <= maxCount)
  {
    r := if init + maxCount + 1 >= U32 then maxCount + 1 else if maxCount > 0 then maxCount else U32 - init;
  }

  /** That is so exactly if the memory held 0, or the maximum lets everything pass. */
  lemma CountsFirstExactly(maxCount: nat, init: word)
    requires maxCount < U32
    ensures CountsFirst(maxCount, init) <==> init == 0 || maxCount == U32 - 1
  {
    hide Counted, Decision, Rank, Initial, Alike;
    if init == 0 || maxCount == U32 - 1 {
      forall own: seq<Event> | own != [] && Initial(own) == init && 0 < Rank(own) < U32
        ensures Decision(Count(maxCount), own) <==> Rank(own) <= maxCount
      {
        CountForm(maxCount, own);
        CountedAgrees(maxCount, init, Rank(own));
      }
    } else {
      var r := CountedDiffers(maxCount, init);
      AlikeHas(r, init);
      CountForm(maxCount, Alike(r, init));
    }
  }

  /** The period of the subsampling counter: a parameter of 0 is only met again when the counter wraps. */
  function Period(every: nat): nat {
    if every == 0 then U32 else every
  }

  /** The counter left by `r` events, for `r > 0`. */
  function Counter(every: nat, r: nat): nat {
    ((r - 1) % Period(every) + 1) % U32
  }

  lemma CounterStep(every: nat, r: nat)
    requires every < U32 && r > 0
    ensures Counter(every, r) == every || Counter(every, r) == 0 <==> r % Period(every) == 0
    ensures ((if Counter(every, r) == every then 0 else Counter(every, r)) + 1) % U32 == Counter(every, r + 1)
  {
    NextRemainder(r - 1, Period(every));
  }

  /** The events ahead of the first one that passes: the counter rises to the parameter, or past it until it wraps. */
  function Lead(every: nat, init: word): nat {
    if init == 0 || init == every then 0 else if init < every then every - init else U32 - init
  }

  /** The counter after `r` events, from `init`. */
  function Sampled(every: nat, init: word, r: nat): nat {
    if r <= Lead(every, init) then Counted(init, r) else Counter(every, r - Lead(every, init))
  }

  /** The event after `r` others passes. */
  predicate SamplePasses(every: nat, init: word, r: nat) {
    r >= Lead(every, init) && (r - Lead(every, init)) % Period(every) == 0
  }

  lemma SampledAhead(every: nat, init: word, r: nat)
    requires every < U32 && r < Lead(every, init)
    ensures var v := Counted(init, r); v != every && v != 0 && (v + 1) % U32 == Counted(init, r + 1)
  {
  }

  lemma SampledNext(every: nat, init: word, r: nat)
    requires every < U32
    ensures var v := Sampled(every, init, r);
      && (v == every || v == 0 <==> SamplePasses(every, init, r))
      && ((if v == every then 0 else v) + 1) % U32 == Sampled(every, init, r + 1)
  {
    var lead := Lead(every, init);
    if r < lead {
      SampledAhead(every, init, r);
    } else if r > lead {
      CounterStep(every, r - lead);
      hide Counter;
    } else {
      SampledFirst(every, init);
      hide Counter, Counted, Lead;
    }
  }

  lemma SampledFirst(every: nat, init: word)
    requires every < U32
    ensures Counted(init, Lead(every, init)) == every || Counted(init, Lead(every, init)) == 0
    ensures Counter(every, 1) == 1 && 0 % Period(every) == 0
  {
  }

  /** Subsampling: after the lead, every N-th event, beginning with the first. */
  lemma {:induction false} SubsamplingForm(every: nat, own: seq<Event>)
    requires every < U32
    ensures CellAfter(Subsampling(every), own) == if Rank(own) == 0 then Absent else Present(Sampled(every, Initial(own), Rank(own)))
    ensures own != [] ==>
      (Decision(Subsampling(every), own) <==> Rank(own) > 0 && SamplePasses(every, Initial(own), Rank(own) - 1))
  {
    hide Sampled, SamplePasses;
    if own != [] {
      SubsamplingForm(every, own[..|own| - 1]);
      SampledNext(every, Initial(own), Rank(own[..|own| - 1]));
      SampledStart(every, Initial(own));
    }
  }

  lemma SampledStart(every: nat, init: word)
    ensures Sampled(every, init, 0) == init
  {
  }

  /** Of a device whose entry held `init`, every N-th event passes, beginning with the first. */
  ghost predicate SamplesFromFirst(every: nat, init: word) {
    forall own: seq<Event> :: own != [] && Initial(own) == init && Rank(own) > 0 ==>
      (Decision(Subsampling(every), own) <==> (Rank(own) - 1) % Period(every) == 0)
  }

  /** That is so exactly if the memory held 0 or the parameter itself. */
  lemma SamplesFromFirstExactly(every: nat, init: word)
    requires every < U32
    ensures SamplesFromFirst(every, init) <==> init == 0 || init == every
  {
    hide Decision, Rank, Initial, Alike;
    if init == 0 || init == every {
      forall own: seq<Event> | own != [] && Initial(own) == init && Rank(own) > 0
        ensures Decision(Subsampling(every), own) <==> (Rank(own) - 1) % Period(every) == 0
      {
        SubsamplingForm(every, own);
      }
    } else {
      AlikeHas(1, init);
      SubsamplingForm(every, Alike(1, init));
      assert 0 % Period(every) == 0;
    }
  }

  lemma NextRemainder(r: nat, m: nat)
    requires m > 0
    ensures (r + 1) % m == if r % m == m - 1 then 0 else r % m + 1
  {
    var q, x := r / m, r % m;
    var n := r + 1;
    assert r == q * m + x && n == n / m * m + n % m;
    if x == m - 1 {
      assert n == (q + 1) * m + 0;
      SameRemainder(q + 1, 0, n / m, n % m, m);
    } else {
      SameRemainder(q, x + 1, n / m, n % m, m);
    }
  }

  lemma SameRemainder(q: int, x: nat, p: int, y: nat, m: nat)
    requires x < m && y < m && q * m + x == p * m + y
    ensures x == y
  {
    if q < p {
      Multiples(q, p, m);
    } else if p < q {
      Multiples(p, q, m);
    }
  }

  lemma Multiples(a: int, b: int, m: nat)
    requires a < b
    ensures a * m + m <= b * m
  {
    assert b * m == a * m + m + (b - a - 1) * m;
    assert (b - a - 1) * m >= 0;
  }

  /** The events a filter lets through. */
  function Kept(f: Filter, own: seq<Event>): seq<Event> {
    if own == [] then []
    else Kept(f, own[..|own| - 1]) + if Decision(f, own) then [own[|own| - 1]] else []
  }

  /** Interval: the first event, then greedily each one far enough, modulo 2^32, from the last one let through. */
  lemma {:induction false} IntervalForm(interval: nat, own: seq<Event>)
    ensures var kept := Kept(Interval(interval), own);
      && (kept == [] <==> Rank(own) == 0)
      && CellAfter(Interval(interval), own) == if kept == [] then Absent else Present(kept[|kept| - 1].timestamp)
    ensures own != [] ==>
      var e, before := own[|own| - 1], Kept(Interval(interval), own[..|own| - 1]);
      Decision(Interval(interval), own) <==>
        if before == [] then e.memory.Some? else Elapsed(before[|before| - 1].timestamp, e.timestamp) >= interval
  {
    if own != [] {
      IntervalForm(interval, own[..|own| - 1]);
    }
  }

  /** Hence any two consecutive events let through are at least the interval apart. */
  lemma {:induction false} KeptSpaced(interval: nat, own: seq<Event>, i: nat)
    requires i + 1 < |Kept(Interval(interval), own)|
    ensures var kept := Kept(Interval(interval), own);
      Elapsed(kept[i].timestamp, kept[i + 1].timestamp) >= interval
    decreases |own|
  {
    var init := own[..|own| - 1];
    IntervalForm(interval, own);
    if i + 1 < |Kept(Interval(interval), init)| {
      KeptSpaced(interval, init, i);
    }
  }

  // ---------------------------------------------------------------- devices apart, or all alike

  /** The events of one device alone. */
  function Only(evs: seq<Event>, dev: nat): seq<Event> {
    if evs == [] then []
    else Only(evs[..|evs| - 1], dev) + if evs[|evs| - 1].sdevuid == dev then [evs[|evs| - 1]] else []
  }

  lemma {:induction false} OwnOfOnly(evs: seq<Event>, dev: nat)
    ensures Own(Sdevuid, Only(evs, dev), dev) == Own(Sdevuid, evs, dev)
  {
    if evs != [] {
      var init, e := evs[..|evs| - 1], evs[|evs| - 1];
      OwnOfOnly(init, dev);
      if e.sdevuid == dev {
        assert Only(evs, dev)[..|Only(init, dev)|] == Only(init, dev);
      } else {
        assert Only(evs, dev) == Only(init, dev);
      }
    }
  }

  lemma {:induction false} OnlyPrefix(evs: seq<Event>, dev: nat, i: nat)
    requires i <= |evs|
    ensures Only(evs[..i], dev) <= Only(evs, dev)
    decreases |evs|
  {
    if i == |evs| {
      assert evs[..i] == evs;
    } else {
      OnlyPrefix(evs[..|evs| - 1], dev, i);
      assert evs[..|evs| - 1][..i] == evs[..i];
    }
  }

  /**
   With the lookup by device, taking the events of all other devices out of a
   stream changes no decision on the events of this one.
   */
  lemma OthersDoNotMatter(f: Filter, evs: seq<Event>, i: nat)
    requires i < |evs|
    ensures var dev := evs[i].sdevuid;
      var k := |Only(evs[..i], dev)|;
      && k < |Only(evs, dev)| && Only(evs, dev)[k] == evs[i]
      && Decided(Sdevuid, f, evs, i) == Decided(Sdevuid, f, Only(evs, dev), k)
  {
    var dev := evs[i].sdevuid;
    var upto, only := Only(evs[..i + 1], dev), Only(evs, dev);
    assert evs[..i + 1][..i] == evs[..i];
    var k := |Only(evs[..i], dev)|;
    assert |upto| == k + 1 && upto[k] == evs[i];
    OnlyPrefix(evs, dev, i + 1);
    assert only[..k + 1] == upto;
    OwnOfOnly(evs[..i + 1], dev);
  }

  /** With the lookup common to all, the events of all devices count as one device's. */
  lemma {:induction false} AnyIsOneDevice(evs: seq<Event>, dev: nat, dev': nat)
    ensures Own(Any, evs, dev) == Own(Any, evs, dev')
    ensures (forall e :: e in evs ==> e.listened) ==> Own(Any, evs, dev) == evs
  {
    if evs != [] {
      AnyIsOneDevice(evs[..|evs| - 1], dev, dev');
      assert forall e :: e in evs[..|evs| - 1] ==> e in evs;
      assert evs[|evs| - 1] in evs;
      assert evs[..|evs| - 1] + [evs[|evs| - 1]] == evs;
    }
  }

  /** Hence of two devices that report once, both pass the duplicate filter by device, and only the first the common one. */
  lemma FirstOfEach(a: Event, b: Event)
    requires a.listened && b.listened && a.memory.Some? && b.memory.Some? && a.sdevuid != b.sdevuid
    ensures Decided(Sdevuid, Duplicate, [a, b], 0) && Decided(Sdevuid, Duplicate, [a, b], 1)
    ensures Decided(Any, Duplicate, [a, b], 0) && !Decided(Any, Duplicate, [a, b], 1)
  {
    assert [a, b][..1] == [a] && [a, b][..2] == [a, b] && [a][..0] == [];
    AnyIsOneDevice([a], a.sdevuid, b.sdevuid);
    AnyIsOneDevice([a, b], b.sdevuid, b.sdevuid);
    assert Own(Sdevuid, [], a.sdevuid) == [] && Own(Sdevuid, [a], a.sdevuid) == [a];
    assert Own(Sdevuid, [a], b.sdevuid) == [] && Own(Sdevuid, [a, b], b.sdevuid) == [b];
    assert Rank([]) == 0 && [b][..0] == [];
    assert Rank([a]) == 1 && Rank([b]) == 1 && Rank([a, b]) == 2;
    DuplicateForm([a]);
    DuplicateForm([b]);
    DuplicateForm([a, b]);
  }
}
