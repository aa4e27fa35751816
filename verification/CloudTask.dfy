/**
 The cloud task: the state machine that connects, subscribes to home-automation
 events, publishes them and starts over after every loss of the connection. The
 outcomes of platform, network and broker calls are inputs of each step; events
 arrive between steps, through the subscription's filter.
 */
module CloudTask {

  import opened SubsFilters

  datatype State = Init | ResolveHost | Connecting | Connected | Disconnecting | Disconnected | Error

  /** Calls of the platform's two entry points. */
  datatype Call = PlatformInit(ok: bool) | PlatformDeinit

  /** The outcomes of the calls one step may make. */
  datatype Outcome = Outcome(
    init: bool, resolve: bool, connect: bool, subscribe: bool,
    poll: bool, process: bool, ready: bool, appEvent: bool, publish: bool)

  /** What happens next: a step of the task, or an event of some device on the bus. */
  datatype Act = Step(outcome: Outcome) | Offer(event: Event)

  /** The platform is up after these calls. */
  predicate Up(calls: seq<Call>) {
    calls != [] && calls[|calls| - 1] == PlatformInit(true)
  }

  /** Init is only called on a platform that is down, deinit only on one that is up. */
  predicate Alternates(calls: seq<Call>) {
    calls == [] ||
    (var before := calls[..|calls| - 1];
     Alternates(before) && (calls[|calls| - 1].PlatformInit? <==> !Up(before)))
  }

  /** The state diagram; `event`: the subscription has an event to take. */
  function NextState(s: State, o: Outcome, event: bool): State {
    match s
    case Init => if o.init then ResolveHost else Error
    case ResolveHost => if o.resolve then Connecting else ResolveHost
    case Connecting => if o.connect then Connected else Error
    case Connected =>
      if !o.poll then Error
      else if !o.process || (o.ready && o.appEvent && event && !o.publish) then Disconnecting
      else Connected
    case Disconnecting => Disconnected
    case Disconnected => Init
    case Error => Error
  }

  /**
   The task as its surroundings see it: the filter is its verdict on the events
   offered since the last subscription, without any table.
   */
  datatype View = View(state: State, running: bool, sub: bool, queue: seq<Event>, seen: seq<Event>, calls: seq<Call>)

  function CallsOf(s: State, o: Outcome): seq<Call> {
    match s
    case Init => [PlatformInit(o.init)]
    case Disconnected => [PlatformDeinit]
    case _ => []
  }

  /** A subscription lasts from a connection to the step that leaves CONNECTED, or through an error to its clean-up. */
  predicate Subscribed(v: View, o: Outcome) {
    if v.state == Connecting then o.connect && o.subscribe
    else v.sub && v.state != Error && NextState(v.state, o, v.queue != []) in {Connected, Error}
  }

  function Stepped(v: View, o: Outcome): View {
    var sub := Subscribed(v, o);
    var takes := v.state == Connected && o.poll && o.ready && o.appEvent && v.queue != [];
    View(
      NextState(v.state, o, v.queue != []),
      v.state != Error,
      sub,
      if !sub then [] else if takes then v.queue[1..] else v.queue,
      if v.state == Connecting && sub then [] else v.seen,
      v.calls + CallsOf(v.state, o))
  }

  function OfferedTo(interval: nat, v: View, e: Event): View {
    if !v.sub then v
    else
      var seen := v.seen + [e];
      v.(seen := seen,
         queue := v.queue + if e.listened && Decision(Interval(interval), Own(Sdevuid, seen, e.sdevuid)) then [e] else [])
  }

  function ViewAfter(interval: nat, acts: seq<Act>): View {
    if acts == [] then View(Init, true, false, [], [], [])
    else
      var v := ViewAfter(interval, acts[..|acts| - 1]);
      match acts[|acts| - 1]
      case Step(o) => if v.running then Stepped(v, o) else v
      case Offer(e) => OfferedTo(interval, v, e)
  }

  // ---------------------------------------------------------------- runs of the state diagram

  /** The outcomes of the steps, in order. */
  function Outcomes(acts: seq<Act>): seq<Outcome> {
    if acts == [] then []
    else Outcomes(acts[..|acts| - 1]) + match acts[|acts| - 1] case Step(o) => [o] case Offer(_) => []
  }

  /** From step `a` a platform that came up, resolves that failed, and one at step `b` that did not. */
  predicate Resolved(os: seq<Outcome>, a: nat, b: nat) {
    a < b < |os| && os[a].init && (forall k :: a < k < b ==> !os[k].resolve) && os[b].resolve
  }

  /** Then a connect, and steps without failure up to step `n`. */
  predicate Connects(os: seq<Outcome>, a: nat, b: nat, n: nat) {
    && n <= |os| && Resolved(os, a, b) && b + 1 < n && os[b + 1].connect
    && forall k :: b + 1 < k < n ==> os[k].poll && os[k].process
  }

  /** How a running task came to its state, by the outcomes of its steps. */
  predicate CameBy(s: State, os: seq<Outcome>, a: nat, b: nat) {
    var n := |os|;
    match s
    case Init => true
    case ResolveHost => a < n && os[a].init && forall k :: a < k < n ==> !os[k].resolve
    case Connecting => Resolved(os, a, b) && b == n - 1
    case Connected => Connects(os, a, b, n)
    case Disconnecting =>
      && n > 0 && Connects(os, a, b, n - 1) && os[n - 1].poll
      && (!os[n - 1].process || (os[n - 1].ready && os[n - 1].appEvent && !os[n - 1].publish))
    case Disconnected => n > 1
    case Error => b < n && (!os[b].init || !os[b].connect || !os[b].poll)
  }

  lemma CameByStep(v: View, o: Outcome, os: seq<Outcome>, a: nat, b: nat) returns (a': nat, b': nat)
    requires CameBy(v.state, os, a, b) && (v.state == Connected ==> v.sub == os[b + 1].subscribe)
    ensures CameBy(Stepped(v, o).state, os + [o], a', b')
    ensures Stepped(v, o).state == Connected ==> Stepped(v, o).sub == (os + [o])[b' + 1].subscribe
  {
    a', b' := a, b;
    var os', n := os + [o], |os|;
    assert forall k :: 0 <= k < n ==> os'[k] == os[k];
    match v.state
    case Init => a', b' := n, n;
    case ResolveHost => if o.resolve { b' := n; }
    case Connecting => if !o.connect { b' := n; }
    case Connected => if !o.poll { b' := n; }
    case _ =>
  }

  /**
   In every run: CONNECTED means that the platform came up, the host was resolved
   at last, the connection succeeded and nothing failed since, with a subscription
   if that call succeeded when the connection was made; DISCONNECTING that
   then processing or publishing failed; ERROR that the platform, the connection
   or a poll did.
   */
  lemma {:induction false} HowReached(interval: nat, acts: seq<Act>) returns (a: nat, b: nat)
    ensures CameBy(ViewAfter(interval, acts).state, Outcomes(acts), a, b)
    ensures var v := ViewAfter(interval, acts); v.state == Connected ==> v.sub == Outcomes(acts)[b + 1].subscribe
  {
    if acts == [] {
      a, b := 0, 0;
    } else {
      var init := acts[..|acts| - 1];
      a, b := HowReached(interval, init);
      var v, os := ViewAfter(interval, init), Outcomes(init);
      if acts[|acts| - 1].Step? {
        var o := acts[|acts| - 1].outcome;
        if v.running {
          a, b := CameByStep(v, o, os, a, b);
        } else {
          StoppedInError(interval, init);
          assert (os + [o])[b] == os[b];
        }
      }
    }
  }

  lemma {:induction false} StoppedInError(interval: nat, acts: seq<Act>)
    ensures !ViewAfter(interval, acts).running ==> ViewAfter(interval, acts).state == Error
  {
    if acts != [] { StoppedInError(interval, acts[..|acts| - 1]); }
  }

  /** However often resolving fails, the task goes on trying. */
  lemma {:induction false} KeepsResolving(interval: nat, first: Outcome, fails: seq<Outcome>)
    requires first.init && forall o :: o in fails ==> !o.resolve
    ensures var v := ViewAfter(interval, [Step(first)] + seq(|fails|, i requires 0 <= i < |fails| => Step(fails[i])));
      v.state == ResolveHost && v.running
    decreases |fails|
  {
    var acts := [Step(first)] + seq(|fails|, i requires 0 <= i < |fails| => Step(fails[i]));
    if fails == [] {
      assert acts == [Step(first)] && acts[..0] == [];
    } else {
      var init := fails[..|fails| - 1];
      KeepsResolving(interval, first, init);
      assert acts[..|acts| - 1] == [Step(first)] + seq(|init|, i requires 0 <= i < |init| => Step(init[i]));
      assert fails[|fails| - 1] in fails;
    }
  }

  /** And from there a resolve and a connect are enough; a step without failure stays, any failure leaves. */
  lemma ThenConnects(interval: nat, acts: seq<Act>, resolved: Outcome, connected: Outcome, next: Outcome)
    requires ViewAfter(interval, acts).state == ResolveHost && ViewAfter(interval, acts).running
    requires resolved.resolve && connected.connect
    ensures ViewAfter(interval, acts + [Step(resolved)] + [Step(connected)]).state == Connected
    ensures var v := ViewAfter(interval, acts + [Step(resolved)] + [Step(connected)] + [Step(next)]);
      && (!next.poll ==> v.state == Error)
      && (next.poll && !next.process ==> v.state == Disconnecting)
      && (next.poll && next.process ==> v.state == Connected)
  {
    var one := acts + [Step(resolved)];
    var two := one + [Step(connected)];
    var three := two + [Step(next)];
    assert one[..|acts|] == acts && two[..|one|] == one && three[..|two|] == two;
    NoQueueUnsubscribed(interval, acts);
  }

  /** An event that cannot be published ends the connection, and everything queued is given back. */
  lemma FailedPublishLeaves(interval: nat, acts: seq<Act>, o: Outcome)
    requires ViewAfter(interval, acts).state == Connected && ViewAfter(interval, acts).running
    requires ViewAfter(interval, acts).queue != [] && o.poll && o.process && o.ready && o.appEvent
    ensures var v := ViewAfter(interval, acts + [Step(o)]);
      && (o.publish ==> v.state == Connected && v.sub && v.queue == ViewAfter(interval, acts).queue[1..])
      && (!o.publish ==> v.state == Disconnecting && !v.sub && v.queue == [])
  {
    assert (acts + [Step(o)])[..|acts|] == acts;
    NoQueueUnsubscribed(interval, acts);
  }

  /** Without a subscription nothing is queued; there is none before a connection. */
  lemma {:induction false} NoQueueUnsubscribed(interval: nat, acts: seq<Act>)
    ensures var v := ViewAfter(interval, acts);
      (!v.sub ==> v.queue == []) && (v.sub ==> v.state == Connected || v.state == Error)
  {
    if acts != [] { NoQueueUnsubscribed(interval, acts[..|acts| - 1]); }
  }

  // ---------------------------------------------------------------- what is published

  /** The events offered to the present subscription that its filter passes, by index. */
  function Passing(interval: nat, seen: seq<Event>): seq<Event> {
    if seen == [] then []
    else
      Passing(interval, seen[..|seen| - 1])
      + if Decided(Sdevuid, Interval(interval), seen, |seen| - 1) then [seen[|seen| - 1]] else []
  }

  /** The queue is what remains of them when those taken first are gone. */
  lemma {:induction false} QueueIsRest(interval: nat, acts: seq<Act>) returns (taken: nat)
    ensures var v := ViewAfter(interval, acts);
      v.sub ==> taken <= |Passing(interval, v.seen)| && v.queue == Passing(interval, v.seen)[taken..]
  {
    taken := 0;
    if acts != [] {
      var init := acts[..|acts| - 1];
      var before := QueueIsRest(interval, init);
      NoQueueUnsubscribed(interval, init);
      var v := ViewAfter(interval, init);
      match acts[|acts| - 1]
      case Offer(e) =>
        taken := before;
        var seen := v.seen + [e];
        assert seen[..|v.seen|] == v.seen && seen[..|seen|] == seen;
      case Step(o) =>
        var takes := v.state == Connected && o.poll && o.ready && o.appEvent && v.queue != [];
        if v.running && !(v.state == Connecting && Subscribed(v, o)) && takes { taken := before + 1; }
        else if v.running && v.state == Connecting && Subscribed(v, o) { taken := 0; }
        else { taken := before; }
    }
  }

  lemma Calls(calls: seq<Call>, c: Call)
    requires Alternates(calls) && (c.PlatformInit? <==> !Up(calls))
    ensures Alternates(calls + [c]) && (Up(calls + [c]) <==> c == PlatformInit(true))
  {
    assert (calls + [c])[..|calls|] == calls;
  }

  class Task {
    const interval: nat
    const table: LookupTable

    var state: State
    var running: bool
    var calls: seq<Call>
    /** `user_data` of the subscription's configuration is set. */
    var configured: bool
    /** `sub` is not NULL. */
    var sub: bool
    /** Subscriptions held with the bus. */
    var held: nat
    /** Events queued to the subscription, each with a reference. */
    var queue: seq<Event>
    /** All the events offered to the present subscription. */
    var seen: seq<Event>
    var referenced: nat
    var unreferenced: nat

    constructor (interval: nat)
      ensures Valid() && fresh(table) && this.interval == interval && Seen() == ViewAfter(interval, [])
    {
      this.interval := interval;
      table := new LookupTable(Sdevuid, Interval(interval));
      state, running, calls := Init, true, [];
      configured, sub, held, queue, seen := false, false, 0, [], [];
      referenced, unreferenced := 0, 0;
    }

    /** The subscription: at most one, the table and the queue follow it. */
    ghost predicate Subscription()
      reads this`configured, this`sub, this`held, this`queue, this`seen, this`referenced, this`unreferenced, table
    {
      && table.lookup == Sdevuid && table.filter == Interval(interval)
      && held == (if sub then 1 else 0)
      && referenced == unreferenced + |queue|
      && (!sub ==> queue == [] && table.entries == [])
      && (sub ==> configured && OneEach(Sdevuid, table.entries)
                  && Reflects(Sdevuid, Interval(interval), table.entries, seen))
    }

    /** Where in the state machine there may be a subscription, and where the platform is up. */
    ghost predicate Progress()
      reads this
    {
      && Alternates(calls)
      && (sub ==> state == Connected || (state == Error && running))
      && (running ==> (state == Init ==> !Up(calls)))
      && (running && state != Init && state != Error ==> Up(calls))
    }

    ghost predicate Valid()
      reads this, table
    {
      Subscription() && Progress()
    }

    function Seen(): View
      reads this
    {
      View(state, running, sub, queue, seen, calls)
    }

    /** `cloud_app_init`: the configuration is set once only, so a new subscription relies on a cleared table. */
    method CloudAppInit(subscribes: bool)
      requires Subscription() && !sub
      modifies this`configured, this`sub, this`held, this`seen, table
      ensures Subscription() && sub == subscribes && seen == if sub then [] else old(seen)
    {
      if !configured {
        table.entries := [];
        configured := true;
      }
      if subscribes {
        sub, held, seen := true, held + 1, [];
      }
    }

    /** `cloud_app_process`: an event taken is always given back; false for a negative result. */
    method CloudAppProcess(publishes: bool) returns (ok: bool)
      requires Subscription()
      modifies this`queue, this`unreferenced
      ensures Subscription()
      ensures ok <==> old(queue) == [] || publishes
      ensures queue == (if old(queue) == [] then [] else old(queue)[1..])
    {
      ok := true;
      if sub && queue != [] {
        queue := queue[1..];
        ok := publishes;
        unreferenced := unreferenced + 1;
      }
    }

    /** `cloud_app_cleanup`: `ha_unsubscribe` drains the queue; then the table is cleared. */
    method CloudAppCleanup()
      requires Subscription()
      modifies this`sub, this`held, this`queue, this`unreferenced, table
      ensures Subscription() && !sub
    {
      if sub {
        held := held - 1;
        while queue != []
          invariant referenced == unreferenced + |queue| && sub && held == 0
          decreases |queue|
        {
          queue := queue[1..];
          unreferenced := unreferenced + 1;
        }
      }
      table.Clear();
      sub := false;
    }

    method SetState(s: State)
      modifies this`state
      ensures state == s
    {
      state := s;
    }

    /** An event on the bus is matched against the subscription, if there is one, and queued if it passes. */
    method Offered(e: Event)
      requires Valid()
      modifies this`queue, this`seen, this`referenced, table
      ensures Valid() && Seen() == OfferedTo(interval, old(Seen()), e)
    {
      hide Alternates, Up, Decision, Own;
      if sub {
        var pass := table.MatchSub(e, seen);
        seen := seen + [e];
        if pass {
          queue := queue + [e];
          referenced := referenced + 1;
        }
      }
    }

    /** The state CONNECTED. */
    method StepConnected(o: Outcome)
      requires Valid() && running && state == Connected
      modifies this`state, this`sub, this`held, this`queue, this`unreferenced, table
      ensures Valid() && Seen() == Stepped(old(Seen()), o)
    {
      hide Reflects, OneEach, Alternates, Up;
      assert calls + [] == calls;
      if o.poll {
        if !o.process {
          SetState(Disconnecting);
          CloudAppCleanup();
        }
        if o.ready && o.appEvent {
          var ok := CloudAppProcess(o.publish);
          if !ok {
            SetState(Disconnecting);
            CloudAppCleanup();
          }
        }
      } else {
        SetState(Error);
      }
    }

    /** The state INIT. */
    method StepInit(o: Outcome)
      requires Valid() && running && state == Init
      modifies this`state, this`calls
      ensures Valid() && Seen() == Stepped(old(Seen()), o)
    {
      hide Reflects, OneEach, Alternates, Up;
      assert !sub && queue == [];
      hide Subscription;
      Calls(calls, PlatformInit(o.init));
      calls := calls + [PlatformInit(o.init)];
      SetState(if o.init then ResolveHost else Error);
    }

    /** The state DISCONNECTED. */
    method StepDisconnected(o: Outcome)
      requires Valid() && running && state == Disconnected
      modifies this`state, this`calls
      ensures Valid() && Seen() == Stepped(old(Seen()), o)
    {
      hide Reflects, OneEach, Alternates, Up;
      assert !sub && queue == [];
      hide Subscription;
      Calls(calls, PlatformDeinit);
      calls := calls + [PlatformDeinit];
      SetState(Init);
    }

    /** The states RESOLVE_HOST, CONNECTING and DISCONNECTING. */
    method StepNetwork(o: Outcome)
      requires Valid() && running && (state == ResolveHost || state == Connecting || state == Disconnecting)
      modifies this`state, this`configured, this`sub, this`held, this`seen, table
      ensures Valid() && Seen() == Stepped(old(Seen()), o)
    {
      hide Reflects, OneEach, Alternates, Up;
      assert !sub && queue == [] && calls + [] == calls;
      hide Subscription;
      match state
      case ResolveHost =>
        if o.resolve {
          SetState(Connecting);
        }
      case Connecting =>
        if o.connect {
          SetState(Connected);
          CloudAppInit(o.subscribe);
        } else {
          SetState(Error);
        }
      case Disconnecting =>
        SetState(Disconnected);
    }

    /** The state ERROR, which ends the task. */
    method StepError(o: Outcome)
      requires Valid() && running && state == Error
      modifies this`running, this`sub, this`held, this`queue, this`unreferenced, table
      ensures Valid() && Seen() == Stepped(old(Seen()), o)
    {
      hide Reflects, OneEach, Alternates, Up;
      assert calls + [] == calls;
      CloudAppCleanup();
      assert queue == [];
      hide Subscription;
      running := false;
    }

    /** `state_machine`; the task ends when it returns false. */
    method StateMachine(o: Outcome)
      requires Valid() && running
      modifies this, table
      ensures Valid() && Seen() == Stepped(old(Seen()), o)
    {
      hide Valid, Stepped;
      match state
      case Init => StepInit(o);
      case ResolveHost => StepNetwork(o);
      case Connecting => StepNetwork(o);
      case Connected => StepConnected(o);
      case Disconnecting => StepNetwork(o);
      case Disconnected => StepDisconnected(o);
      case Error => StepError(o);
    }
  }

  /**
   Every run, with any number of reconnections and of events between the steps:
   the task is what its surroundings should see; one subscription at most, held
   only while connected or before the clean-up of an error; platform calls
   alternate; every reference is given back or queued.
   */
  method Run(interval: nat, acts: seq<Act>) returns (v: View, held: nat, referenced: nat, unreferenced: nat)
    ensures v == ViewAfter(interval, acts)
    ensures held == (if v.sub then 1 else 0) && (v.sub ==> v.state == Connected || (v.state == Error && v.running))
    ensures Alternates(v.calls)
    ensures referenced == unreferenced + |v.queue|
  {
    var task := new Task(interval);
    var i := 0;
    assert acts[..0] == [];
    while i < |acts|
      invariant 0 <= i <= |acts| && fresh(task) && fresh(task.table) && task.Valid()
      invariant task.interval == interval && task.Seen() == ViewAfter(interval, acts[..i])
    {
      assert acts[..i + 1][..i] == acts[..i];
      match acts[i] {
        case Step(o) =>
          if task.running {
            task.StateMachine(o);
          }
        case Offer(e) =>
          task.Offered(e);
      }
      i := i + 1;
    }
    assert acts[..i] == acts;
    v, held, referenced, unreferenced := task.Seen(), task.held, task.referenced, task.unreferenced;
  }
}
