/**
 The sessions of the HTTP server: a pool of session objects moved between a free
 and an active list, beside a pollfd array compacted in place. Every run of the
 server thread refines a plain list of clients.
 */
module HttpSessions {

  import opened Common

  /** Upper end of the configurable session timeout, in milliseconds. */
  const MAX_TIMEOUT: nat := 600_000

  datatype Event = Quiet | Readable | Broken

  datatype PollFd = PollFd(fd: int, polled: bool, revents: Event)

  const ZERO: PollFd := PollFd(0, false, Quiet)

  datatype Session = Session(sock: int, timeout: nat, lastActivity: nat)

  /** The result of accepting on a server socket: nothing usable, or a client socket at some uptime. */
  datatype Accepted = NoClient | Client(fd: nat, now: nat)

  /**
   One turn of the server thread: what poll reports for a socket, the clients
   accepted, and for each socket serviced whether its request is processed with
   keep-alive and what the clock says.
   */
  datatype Turn = Turn(events: int -> Event, accepts: seq<Accepted>, keeps: int -> bool, clock: int -> nat)

  // ---------------------------------------------------------------- the plain list

  datatype Entry = Entry(fd: int, revents: Event, session: Session)

  /** `http_session_is_outdated`. */
  predicate Outdated(s: Session, now: nat) {
    Elapsed(s.lastActivity, now) > s.timeout
  }

  predicate Closes(e: Entry, turn: Turn) {
    match e.revents
    case Readable => !turn.keeps(e.fd)
    case Broken => true
    case Quiet => Outdated(e.session, turn.clock(e.fd))
  }

  function Serviced(e: Entry, turn: Turn): Entry {
    if e.revents == Readable then e.(session := e.session.(lastActivity := turn.clock(e.fd) % U32)) else e
  }

  /** A pass over the clients: each is serviced, in order; those that close disappear. */
  function Pass(es: seq<Entry>, turn: Turn): seq<Entry> {
    if es == [] then []
    else
      var init := Pass(es[..|es| - 1], turn);
      var e := es[|es| - 1];
      if Closes(e, turn) then init else init + [Serviced(e, turn)]
  }

  function Polled(es: seq<Entry>, turn: Turn): seq<Entry> {
    seq(|es|, i requires 0 <= i < |es| => es[i].(revents := turn.events(es[i].fd)))
  }

  /** An accepted client goes to the end of the list, with nothing reported yet, if there is room. */
  function Joined(max: nat, timeout: nat, es: seq<Entry>, a: Accepted): seq<Entry> {
    match a
    case NoClient => es
    case Client(fd, now) =>
      if |es| < max then es + [Entry(fd, Quiet, Session(fd, timeout, now % U32))] else es
  }

  function JoinedAll(max: nat, timeout: nat, es: seq<Entry>, accepts: seq<Accepted>): seq<Entry> {
    if accepts == [] then es
    else Joined(max, timeout, JoinedAll(max, timeout, es, accepts[..|accepts| - 1]), accepts[|accepts| - 1])
  }

  function Turned(max: nat, timeout: nat, es: seq<Entry>, turn: Turn): seq<Entry> {
    Pass(JoinedAll(max, timeout, Polled(es, turn), turn.accepts), turn)
  }

  function Sockets(es: seq<Entry>): seq<int> {
    seq(|es|, i requires 0 <= i < |es| => es[i].fd)
  }

  /** The socket layer never hands out a descriptor that is still open. */
  predicate Fresh(es: seq<Entry>, a: Accepted) {
    a.Client? ==> a.fd !in Sockets(es)
  }

  predicate FreshAll(max: nat, timeout: nat, es: seq<Entry>, accepts: seq<Accepted>) {
    accepts == [] ||
    (var init := accepts[..|accepts| - 1];
     FreshAll(max, timeout, es, init) && Fresh(JoinedAll(max, timeout, es, init), accepts[|accepts| - 1]))
  }

  /** The clients after some turns, starting with none. */
  function After(max: nat, timeout: nat, turns: seq<Turn>): seq<Entry> {
    if turns == [] then []
    else Turned(max, timeout, After(max, timeout, turns[..|turns| - 1]), turns[|turns| - 1])
  }

  /** The clients that the pass of the last turn finds. */
  function Arrived(max: nat, timeout: nat, turns: seq<Turn>): seq<Entry>
    requires turns != []
  {
    var turn := turns[|turns| - 1];
    JoinedAll(max, timeout, Polled(After(max, timeout, turns[..|turns| - 1]), turn), turn.accepts)
  }

  predicate FreshTurns(max: nat, timeout: nat, turns: seq<Turn>) {
    turns == [] ||
    (var init, turn := turns[..|turns| - 1], turns[|turns| - 1];
     FreshTurns(max, timeout, init) && FreshAll(max, timeout, Polled(After(max, timeout, init), turn), turn.accepts))
  }

  // ---------------------------------------------------------------- the pool

  predicate NoDup(s: seq<nat>) {
    forall i, j :: 0 <= i < j < |s| ==> s[i] != s[j]
  }

  /** The sessions below `max`, each in exactly one of the two lists. */
  predicate Lists(active: seq<nat>, free: seq<nat>, max: nat) {
    && |active| + |free| == max
    && (forall i :: 0 <= i < |active| ==> active[i] < max)
    && (forall i :: 0 <= i < |free| ==> free[i] < max)
    && NoDup(active) && NoDup(free)
    && (forall i, j :: 0 <= i < |active| && 0 <= j < |free| ==> active[i] != free[j])
  }

  lemma TakeKeepsLists(active: seq<nat>, free: seq<nat>, max: nat)
    requires Lists(active, free, max) && free != []
    ensures Lists(active + [free[0]], free[1..], max)
  {
  }

  lemma GiveKeepsLists(active: seq<nat>, free: seq<nat>, max: nat, k: nat)
    requires Lists(active, free, max) && k < |active|
    ensures Lists(active[..k] + active[k + 1..], free + [active[k]], max)
  {
  }

  /** Slot `i` of the array and session `i` of the active list are about the same client; further slots are zero. */
  predicate Table(slots: seq<PollFd>, pool: seq<Session>, active: seq<nat>, timeout: nat) {
    && |active| <= |slots| && (forall i :: 0 <= i < |active| ==> active[i] < |pool|)
    && (forall i :: 0 <= i < |active| ==> Same(slots[i], pool[active[i]], timeout))
    && (forall i :: |active| <= i < |slots| ==> slots[i] == ZERO)
  }

  predicate Same(slot: PollFd, session: Session, timeout: nat) {
    slot.polled && slot.fd == session.sock && session.timeout == timeout && session.lastActivity < U32
  }

  function Entries(slots: seq<PollFd>, pool: seq<Session>, active: seq<nat>): seq<Entry>
    requires |active| <= |slots| && forall i :: 0 <= i < |active| ==> active[i] < |pool|
  {
    seq(|active|, i requires 0 <= i < |active| => Entry(slots[i].fd, slots[i].revents, pool[active[i]]))
  }

  predicate DistinctSockets(es: seq<Entry>) {
    forall i, j :: 0 <= i < j < |es| ==> es[i].fd != es[j].fd
  }

  lemma AcceptStep(slots: seq<PollFd>, pool: seq<Session>, active: seq<nat>, free: seq<nat>, timeout: nat, new_: Session)
    requires Lists(active, free, |pool|) && |slots| == |pool| + 1 && Table(slots, pool, active, timeout) && free != []
    requires new_.timeout == timeout && new_.lastActivity < U32
    ensures
      var n := |active|;
      var slots' := slots[n := slots[n].(fd := new_.sock, polled := true)];
      var pool' := pool[free[0] := new_];
      var active' := active + [free[0]];
      && Table(slots', pool', active', timeout)
      && Entries(slots', pool', active') == Entries(slots, pool, active) + [Entry(new_.sock, Quiet, new_)]
  {
    var n := |active|;
    assert forall i :: 0 <= i < n ==> active[i] != free[0];
    var slots' := slots[n := slots[n].(fd := new_.sock, polled := true)];
    var pool' := pool[free[0] := new_];
    var active' := active + [free[0]];
    assert forall i :: 0 <= i < n ==> active'[i] == active[i] && pool'[active[i]] == pool[active[i]];
  }

  function Without<T>(s: seq<T>, k: nat): seq<T>
    requires k < |s|
  {
    s[..k] + s[k + 1..]
  }

  lemma CloseStep(slots: seq<PollFd>, pool: seq<Session>, active: seq<nat>, free: seq<nat>, timeout: nat, k: nat)
    requires Lists(active, free, |pool|) && |slots| == |pool| + 1 && Table(slots, pool, active, timeout) && k < |active|
    ensures
      var slots' := Without(slots, k) + [ZERO];
      var pool' := pool[active[k] := pool[active[k]].(sock := -1)];
      var active' := Without(active, k);
      && Table(slots', pool', active', timeout)
      && Entries(slots', pool', active') == Without(Entries(slots, pool, active), k)
  {
    var slots' := Without(slots, k) + [ZERO];
    var pool' := pool[active[k] := pool[active[k]].(sock := -1)];
    var active' := Without(active, k);
    forall i | 0 <= i < |active'|
      ensures active'[i] < |pool'| && pool'[active'[i]] == pool[active'[i]]
      ensures var j := if i < k then i else i + 1; slots'[i] == slots[j] && active'[i] == active[j]
    {
      var j := if i < k then i else i + 1;
      assert active'[i] == active[j] && active[j] != active[k];
    }
    var es, es' := Entries(slots, pool, active), Entries(slots', pool', active');
    forall i | 0 <= i < |es'|
      ensures es'[i] == Without(es, k)[i]
    {
      var j := if i < k then i else i + 1;
      assert es'[i] == es[j] == Without(es, k)[i];
    }
    assert es' == Without(es, k);
  }

  lemma ServiceStep(slots: seq<PollFd>, pool: seq<Session>, active: seq<nat>, free: seq<nat>, timeout: nat, k: nat, now: nat)
    requires Lists(active, free, |pool|) && Table(slots, pool, active, timeout) && k < |active| && now < U32
    ensures
      var pool' := pool[active[k] := pool[active[k]].(lastActivity := now)];
      var es := Entries(slots, pool, active);
      && Table(slots, pool', active, timeout)
      && Entries(slots, pool', active) == es[k := es[k].(session := es[k].session.(lastActivity := now))]
  {
    var pool' := pool[active[k] := pool[active[k]].(lastActivity := now)];
    forall i | 0 <= i < |active| && i != k
      ensures pool'[active[i]] == pool[active[i]]
    {
      assert active[i] != active[k];
    }
  }

  // ---------------------------------------------------------------- the server thread

  /**
   The server's state. The pollfd array of the source has `max` slots; the one
   more here stands for the memory behind it, and `strayed` records that it has
   been touched.
   */
  class Server {
    const max: nat
    const keepAlive: nat
    const cli: array<PollFd>
    const pool: array<Session>
    var clientsCount: nat
    var free: seq<nat>
    var active: seq<nat>
    var strayed: bool

    constructor (max: nat, keepAlive: nat)
      requires keepAlive <= MAX_TIMEOUT
      ensures this.max == max && this.keepAlive == keepAlive && fresh(cli) && fresh(pool)
      ensures Valid() && Clients() == [] && !strayed
    {
      this.max, this.keepAlive := max, keepAlive;
      clientsCount, active, strayed := 0, [], false;
      free := seq(max, i => i);
      cli := new PollFd[max + 1](_ => ZERO);
      pool := new Session[max](_ => Session(0, 0, 0));
    }

    ghost predicate Valid()
      reads this, cli, pool
    {
      && cli.Length == max + 1 && pool.Length == max && keepAlive <= MAX_TIMEOUT
      && clientsCount == |active| && Lists(active, free, max)
      && Table(cli[..], pool[..], active, keepAlive)
      && DistinctSockets(Entries(cli[..], pool[..], active))
    }

    ghost function Clients(): seq<Entry>
      requires Valid()
      reads this, cli, pool
    {
      Entries(cli[..], pool[..], active)
    }

    /** `zsock_poll`: new reports for every client polled. */
    method Poll(turn: Turn)
      requires Valid()
      modifies cli
      ensures Valid() && Clients() == Polled(old(Clients()), turn)
    {
      var i := 0;
      while i < clientsCount
        invariant 0 <= i <= clientsCount
        invariant forall k :: 0 <= k < i ==> cli[k] == old(cli[k]).(revents := turn.events(old(cli[k]).fd))
        invariant forall k :: i <= k <= max ==> cli[k] == old(cli[k])
      {
        cli[i] := cli[i].(revents := turn.events(cli[i].fd));
        i := i + 1;
      }
      PollStep(old(cli[..]), cli[..], pool[..], active, keepAlive, turn);
    }

    /** `srv_accept` with `http_session_alloc`. */
    method SrvAccept(a: Accepted)
      requires Valid() && Fresh(Clients(), a)
      modifies this, cli, pool
      ensures Valid() && Clients() == Joined(max, keepAlive, old(Clients()), a) && strayed == old(strayed)
    {
      match a
      case NoClient =>
      case Client(fd, now) =>
        if free != [] {
          TakeKeepsLists(active, free, max);
          AcceptStep(cli[..], pool[..], active, free, keepAlive, Session(fd, keepAlive, now % U32));
          ghost var es := Clients();
          assert Sockets(es)[..] == Sockets(es);
          var s := free[0];
          free := free[1..];
          pool[s] := Session(-1, 0, 0);
          active := active + [s];
          assert clientsCount < max;
          cli[clientsCount] := cli[clientsCount].(fd := fd, polled := true);
          clientsCount := clientsCount + 1;
          pool[s] := Session(fd, keepAlive, now % U32);
          assert pool[..] == old(pool[..])[s := Session(fd, keepAlive, now % U32)];
          assert forall i :: 0 <= i < |es| ==> es[i].fd == Sockets(es)[i];
        }
    }

    /** `remove_pollfd_by_index`: the slots behind move up by one, the last of them is cleared. */
    method RemovePollFd(index: nat)
      requires clientsCount <= max && cli.Length == max + 1
      modifies this`clientsCount, this`strayed, cli
      ensures index >= old(clientsCount) ==> clientsCount == old(clientsCount) && cli[..] == old(cli[..]) && strayed == old(strayed)
      ensures index < old(clientsCount) ==>
        && clientsCount == old(clientsCount) - 1
        && (forall k :: 0 <= k < index || old(clientsCount) < k < cli.Length ==> cli[k] == old(cli[k]))
        && (forall k :: index <= k < old(clientsCount) ==> cli[k] == old(cli[k + 1]))
        && cli[old(clientsCount)] == ZERO
        && strayed == (old(strayed) || old(clientsCount) == max)
    {
      if index >= clientsCount { return; }
      var i := index;
      while i < clientsCount
        invariant index <= i <= clientsCount == old(clientsCount)
        invariant forall k :: 0 <= k < index || i < k < cli.Length ==> cli[k] == old(cli[k])
        invariant i < clientsCount ==> cli[i] == old(cli[i])
        invariant forall k :: index <= k < i ==> cli[k] == old(cli[k + 1])
        invariant strayed == (old(strayed) || i >= max)
      {
        if i + 1 >= max { strayed := true; }
        cli[i] := cli[i + 1];
        i := i + 1;
      }
      if clientsCount >= max { strayed := true; }
      cli[clientsCount] := ZERO;
      clientsCount := clientsCount - 1;
    }

    /** `http_session_get_by_sock`: the first session of the active list with this socket; its length for none. */
    method GetBySock(fd: int) returns (k: nat)
      requires Valid()
      ensures k <= |active| && (k == |active| <==> forall i :: 0 <= i < |active| ==> Clients()[i].fd != fd)
      ensures k < |active| ==> Clients()[k].fd == fd
    {
      k := 0;
      while k < |active| && pool[active[k]].sock != fd
        invariant k <= |active|
        invariant forall i :: 0 <= i < k ==> Clients()[i].fd != fd
      {
        assert Same(cli[..][k], pool[..][active[k]], keepAlive);
        k := k + 1;
      }
      if k < |active| {
        assert Same(cli[..][k], pool[..][active[k]], keepAlive);
        assert Clients()[k].fd == fd;
      }
    }

    /** Closing the client in slot `k`: `http_session_free` and `remove_pollfd_by_index`. */
    method CloseClient(k: nat)
      requires Valid() && k < clientsCount
      modifies this, cli, pool
      ensures Valid() && Clients() == Without(old(Clients()), k)
      ensures strayed == (old(strayed) || |old(Clients())| == max)
    {
      GiveKeepsLists(active, free, max, k);
      CloseStep(cli[..], pool[..], active, free, keepAlive, k);
      ghost var es := Clients();
      assert DistinctSockets(Without(es, k));
      var s := active[k];
      active := active[..k] + active[k + 1..];
      pool[s] := pool[s].(sock := -1);
      free := free + [s];
      RemovePollFd(k);
      assert pool[..] == old(pool[..])[s := old(pool[s]).(sock := -1)];
      ShiftedUp(old(cli[..]), cli[..], k, old(clientsCount));
    }

    /** What the pass does with the client in slot `k`, short of closing it. */
    method Service(k: nat, turn: Turn) returns (close: bool)
      requires Valid() && k < clientsCount
      modifies pool
      ensures Valid() && close == Closes(old(Clients())[k], turn)
      ensures Clients() == if close then old(Clients()) else old(Clients())[k := Serviced(old(Clients())[k], turn)]
    {
      ghost var es := Clients();
      var fd := cli[k].fd;
      close := false;
      match cli[k].revents
      case Readable =>
        close := !turn.keeps(fd);
        if !close {
          ServiceStep(cli[..], pool[..], active, free, keepAlive, k, turn.clock(fd) % U32);
          pool[active[k]] := pool[active[k]].(lastActivity := turn.clock(fd) % U32);
          assert pool[..] == old(pool[..])[active[k] := pool[active[k]]];
          assert forall i :: 0 <= i < |es| ==> Clients()[i].fd == es[i].fd;
        }
      case Broken =>
        close := true;
      case Quiet =>
        close := Outdated(pool[active[k]], turn.clock(fd));
    }

    /** One turn of the loop of `handle_active_sessions`; the slot of a closed client is taken by the next one. */
    method Visit(idx: nat, turn: Turn) returns (fd: int, closed: bool)
      requires Valid() && idx < clientsCount
      modifies this, cli, pool
      ensures Valid() && clientsCount == |Clients()|
      ensures fd == old(Clients())[idx].fd && closed == Closes(old(Clients())[idx], turn)
      ensures Clients() ==
        if closed then Without(old(Clients()), idx) else old(Clients())[idx := Serviced(old(Clients())[idx], turn)]
      ensures strayed == (old(strayed) || (closed && |old(Clients())| == max))
    {
      fd := cli[idx].fd;
      ghost var es := Clients();
      assert es[idx].fd == fd;
      var k := GetBySock(fd);
      assert Clients() == es;
      assert k < |active| && k == idx;
      closed := Service(k, turn);
      if closed {
        CloseClient(idx);
      }
    }

    lemma ClientsFit()
      requires Valid()
      ensures clientsCount == |Clients()| <= max
    {
    }

    /** `handle_active_sessions`; `log` lists the sockets serviced. */
    method HandleActiveSessions(turn: Turn) returns (log: seq<int>)
      requires Valid()
      modifies this, cli, pool
      ensures Valid() && Clients() == Pass(old(Clients()), turn)
      ensures log == Sockets(old(Clients()))
      ensures strayed == (old(strayed) || Overruns(max, old(Clients()), turn))
    {
      hide Valid, Clients, Reached, Closes, Serviced, Pass, Overruns, OverrunsBy, Sockets;
      ghost var es := Clients();
      ClientsFit();
      var idx := 0;
      log := [];
      ReachedStart(es, turn);
      OverrunsNone(max, es, turn);
      while idx < clientsCount
        invariant Valid() && clientsCount == |Clients()|
        invariant Reached(es, log, turn, Clients(), idx)
        invariant strayed == (old(strayed) || OverrunsBy(max, es, |log|, turn))
        decreases clientsCount - idx
      {
        ghost var before := Clients();
        var fd, closed := Visit(idx, turn);
        ReachedStep(es, log, turn, before, idx);
        OverrunsStep(max, es, log, turn, before, idx);
        log := log + [fd];
        if !closed {
          idx := idx + 1;
        }
      }
      ReachedEnd(es, log, turn, Clients(), idx);
      OverrunsAll(max, es, turn);
    }

    method AcceptAll(accepts: seq<Accepted>)
      requires Valid() && FreshAll(max, keepAlive, Clients(), accepts)
      modifies this, cli, pool
      ensures Valid() && Clients() == JoinedAll(max, keepAlive, old(Clients()), accepts) && strayed == old(strayed)
      decreases |accepts|
    {
      hide Valid, Clients, Fresh, Joined;
      if accepts != [] {
        AcceptAll(accepts[..|accepts| - 1]);
        SrvAccept(accepts[|accepts| - 1]);
      }
    }

    /** One turn of `http_srv_thread`. */
    method TakeTurn(turn: Turn) returns (log: seq<int>)
      requires Valid() && FreshAll(max, keepAlive, Polled(Clients(), turn), turn.accepts)
      modifies this, cli, pool
      ensures Valid() && Clients() == Turned(max, keepAlive, old(Clients()), turn)
      ensures log == Sockets(JoinedAll(max, keepAlive, Polled(old(Clients()), turn), turn.accepts))
      ensures strayed == (old(strayed) || Overruns(max, JoinedAll(max, keepAlive, Polled(old(Clients()), turn), turn.accepts), turn))
    {
      hide Valid, Clients, FreshAll, JoinedAll, Polled, Pass, Sockets, Overruns;
      Poll(turn);
      AcceptAll(turn.accepts);
      log := HandleActiveSessions(turn);
    }

    method OpenSockets() returns (sockets: seq<int>)
      requires Valid()
      ensures sockets == Sockets(Clients())
    {
      sockets := [];
      while |sockets| < clientsCount
        invariant |sockets| <= clientsCount
        invariant forall i :: 0 <= i < |sockets| ==> sockets[i] == cli[i].fd
      {
        sockets := sockets + [cli[|sockets|].fd];
      }
    }

    /** `http_session_time_to_next_outdated`; -1 stands for "forever". */
    method TimeToNextOutdated(now: nat) returns (timeout: int)
      requires Valid()
      ensures Clients() == [] <==> timeout == -1
      ensures AnyOutdated(Clients(), now) ==> timeout == 0
      ensures timeout >= 0 && !AnyOutdated(Clients(), now) ==>
        && (forall later: nat :: now <= later <= now + timeout ==> !AnyOutdated(Clients(), later))
        && AnyOutdated(Clients(), now + timeout + 1)
    {
      timeout := -1;
      var k := 0;
      while k < |active|
        invariant 0 <= k <= |active| && (timeout == -1 <==> k == 0) && timeout >= -1
        invariant forall i :: 0 <= i < k ==> !Outdated(Clients()[i].session, now)
        invariant forall i :: 0 <= i < k ==> timeout <= TimeLeft(Clients()[i].session, now)
        invariant k > 0 ==> exists i :: 0 <= i < k && timeout == TimeLeft(Clients()[i].session, now)
      {
        var s := pool[active[k]];
        assert Same(cli[..][k], pool[..][active[k]], keepAlive) && Clients()[k].session == s;
        var diff := Elapsed(s.lastActivity, now);
        if diff > s.timeout {
          assert Outdated(Clients()[k].session, now);
          return 0;
        }
        var timeToExpire := s.timeout - diff;
        timeout := if timeout == -1 || timeToExpire < timeout then timeToExpire else timeout;
        k := k + 1;
      }
      if k > 0 {
        NextOutdated(Clients(), keepAlive, now, timeout);
      }
    }
  }

  predicate AnyCloses(es: seq<Entry>, turn: Turn) {
    exists i :: 0 <= i < |es| && Closes(es[i], turn)
  }

  /** The pass closes a client while the table is full. */
  predicate Overruns(max: nat, es: seq<Entry>, turn: Turn) {
    |es| == max && AnyCloses(es, turn)
  }

  lemma {:induction false} PassLength(es: seq<Entry>, turn: Turn)
    ensures |Pass(es, turn)| <= |es| && (|Pass(es, turn)| == |es| <==> !AnyCloses(es, turn))
  {
    if es != [] {
      PassLength(es[..|es| - 1], turn);
      hide Closes;
      assert forall i :: 0 <= i < |es| - 1 ==> es[..|es| - 1][i] == es[i];
    }
  }

  /** The pass has closed a client while the table was full, among its first `n`. */
  ghost predicate OverrunsBy(max: nat, es: seq<Entry>, n: nat, turn: Turn) {
    |es| == max && n <= |es| && AnyCloses(es[..n], turn)
  }

  lemma OverrunsNone(max: nat, es: seq<Entry>, turn: Turn)
    ensures !OverrunsBy(max, es, 0, turn)
  {
  }

  lemma OverrunsAll(max: nat, es: seq<Entry>, turn: Turn)
    ensures OverrunsBy(max, es, |es|, turn) == Overruns(max, es, turn)
  {
    assert es[..|es|] == es;
  }

  /** Only the first close of a pass can find the table full. */
  lemma OverrunsStep(max: nat, es: seq<Entry>, log: seq<int>, turn: Turn, now: seq<Entry>, idx: nat)
    requires Reached(es, log, turn, now, idx) && idx < |now| && |es| <= max
    ensures OverrunsBy(max, es, |log| + 1, turn) <==> OverrunsBy(max, es, |log|, turn) || (Closes(now[idx], turn) && |now| == max)
  {
    var m := |log|;
    assert now[idx] == es[m];
    PassLength(es[..m], turn);
    hide Closes;
    assert forall i :: 0 <= i < m ==> es[..m + 1][i] == es[..m][i];
    assert es[..m + 1][m] == es[m];
  }

  predicate AnyOutdated(es: seq<Entry>, now: nat) {
    exists i :: 0 <= i < |es| && Outdated(es[i].session, now)
  }

  function TimeLeft(s: Session, now: nat): int {
    s.timeout - Elapsed(s.lastActivity, now)
  }

  /** A session that is not outdated stays so for exactly the time left to it, the clock wrapping or not. */
  lemma OutdatedLater(s: Session, now: nat, d: nat)
    requires s.timeout <= MAX_TIMEOUT && s.lastActivity < U32 && !Outdated(s, now)
    requires d <= TimeLeft(s, now) + 1
    ensures Outdated(s, now + d) <==> d > TimeLeft(s, now)
  {
    assert Elapsed(s.lastActivity, now + d) == Elapsed(s.lastActivity, now) + d;
  }

  lemma NextOutdated(es: seq<Entry>, timeout: nat, now: nat, t: int)
    requires timeout <= MAX_TIMEOUT
    requires forall i :: 0 <= i < |es| ==> es[i].session.timeout == timeout && es[i].session.lastActivity < U32
    requires forall i :: 0 <= i < |es| ==> !Outdated(es[i].session, now) && t <= TimeLeft(es[i].session, now)
    requires exists i :: 0 <= i < |es| && t == TimeLeft(es[i].session, now)
    ensures t >= 0 && AnyOutdated(es, now + t + 1)
    ensures forall later: nat :: now <= later <= now + t ==> !AnyOutdated(es, later)
  {
    var i :| 0 <= i < |es| && t == TimeLeft(es[i].session, now);
    OutdatedLater(es[i].session, now, t + 1);
    forall later: nat | now <= later <= now + t
      ensures !AnyOutdated(es, later)
    {
      forall k | 0 <= k < |es|
        ensures !Outdated(es[k].session, later)
      {
        OutdatedLater(es[k].session, now, later - now);
      }
    }
  }

  // ---------------------------------------------------------------- who stays, from turns and sockets alone

  /** The sockets accepted in a turn, in order. */
  function Callers(accepts: seq<Accepted>): seq<int> {
    if accepts == [] then []
    else Callers(accepts[..|accepts| - 1]) + match accepts[|accepts| - 1] case Client(fd, _) => [fd] case NoClient => []
  }

  /** When the socket was accepted in a turn, if it was. */
  function AcceptedAt(accepts: seq<Accepted>, fd: int): Option<nat> {
    if accepts == [] then None
    else
      var a := accepts[|accepts| - 1];
      if a.Client? && a.fd == fd then Some(a.now) else AcceptedAt(accepts[..|accepts| - 1], fd)
  }

  /** What the pass of the last turn sees reported: nothing for a client accepted in that turn. */
  function Reported(turns: seq<Turn>, fd: int): Event
    requires turns != []
  {
    var turn := turns[|turns| - 1];
    if AcceptedAt(turn.accepts, fd).Some? then Quiet else turn.events(fd)
  }

  /** The time of its accept or of its last request, as the pass of the last turn finds it. */
  function LastActive(turns: seq<Turn>, fd: int): nat
    requires turns != []
  {
    var init, turn := turns[..|turns| - 1], turns[|turns| - 1];
    if AcceptedAt(turn.accepts, fd).Some? then AcceptedAt(turn.accepts, fd).value
    else if init == [] then 0
    else if Reported(init, fd) == Readable then init[|init| - 1].clock(fd)
    else LastActive(init, fd)
  }

  /** A client stays that has sent a request and keeps the connection, or has been idle for the timeout at most. */
  predicate Stays(timeout: nat, turns: seq<Turn>, fd: int)
    requires turns != []
  {
    var turn := turns[|turns| - 1];
    match Reported(turns, fd)
    case Readable => turn.keeps(fd)
    case Broken => false
    case Quiet => (turn.clock(fd) - LastActive(turns, fd)) % U32 <= timeout
  }

  function Staying(timeout: nat, turns: seq<Turn>, fds: seq<int>): seq<int>
    requires turns != []
  {
    if fds == [] then []
    else
      var fd := fds[|fds| - 1];
      Staying(timeout, turns, fds[..|fds| - 1]) + if Stays(timeout, turns, fd) then [fd] else []
  }

  function FirstOf(s: seq<int>, n: int): seq<int> {
    if n <= 0 then [] else if n >= |s| then s else s[..n]
  }

  /** The sockets open after some turns. */
  function Open(max: nat, timeout: nat, turns: seq<Turn>): seq<int>
    decreases |turns|, 1
  {
    if turns == [] then [] else Staying(timeout, turns, Found(max, timeout, turns))
  }

  /** The sockets the pass of the last turn finds: those open before, then those accepted as far as there is room. */
  function Found(max: nat, timeout: nat, turns: seq<Turn>): seq<int>
    requires turns != []
    decreases |turns|, 0
  {
    var before := Open(max, timeout, turns[..|turns| - 1]);
    before + FirstOf(Callers(turns[|turns| - 1].accepts), max - |before|)
  }

  /** An entry as the pass of the last turn should find it. */
  predicate Current(timeout: nat, turns: seq<Turn>, e: Entry)
    requires turns != []
  {
    e.revents == Reported(turns, e.fd) && e.session == Session(e.fd, timeout, LastActive(turns, e.fd) % U32)
  }

  /** The time of the last activity once the pass is over. */
  function Refreshed(turns: seq<Turn>, fd: int): nat
    requires turns != []
  {
    if Reported(turns, fd) == Readable then turns[|turns| - 1].clock(fd) else LastActive(turns, fd)
  }

  predicate Passed(timeout: nat, turns: seq<Turn>, e: Entry)
    requires turns != []
  {
    e.session == Session(e.fd, timeout, Refreshed(turns, e.fd) % U32)
  }

  lemma SocketAt(es: seq<Entry>, i: nat)
    requires i < |es|
    ensures Sockets(es)[i] == es[i].fd && es[i].fd in Sockets(es)
  {
    assert Sockets(es)[i] == es[i].fd;
  }

  lemma SocketsSnoc(es: seq<Entry>, e: Entry)
    ensures Sockets(es + [e]) == Sockets(es) + [e.fd]
  {
  }

  /** A socket that is open is not accepted again. */
  lemma {:induction false} OpenIsNotAccepted(max: nat, timeout: nat, es: seq<Entry>, accepts: seq<Accepted>, fd: int)
    requires FreshAll(max, timeout, es, accepts) && fd in Sockets(es)
    ensures AcceptedAt(accepts, fd) == None && fd in Sockets(JoinedAll(max, timeout, es, accepts))
    decreases |accepts|
  {
    if accepts != [] {
      var init, a := accepts[..|accepts| - 1], accepts[|accepts| - 1];
      OpenIsNotAccepted(max, timeout, es, init, fd);
      var joined := JoinedAll(max, timeout, es, init);
      var i :| 0 <= i < |joined| && Sockets(joined)[i] == fd;
      var joined' := Joined(max, timeout, joined, a);
      assert joined'[i] == joined[i];
      SocketAt(joined', i);
      SocketAt(joined, i);
    }
  }

  /** What accepting adds: the first callers there is room for, each with the time of its accept. */
  predicate Newcomers(timeout: nat, accepts: seq<Accepted>, es: seq<Entry>) {
    forall i :: 0 <= i < |es| ==>
      && AcceptedAt(accepts, es[i].fd).Some? && es[i].revents == Quiet
      && es[i].session == Session(es[i].fd, timeout, AcceptedAt(accepts, es[i].fd).value % U32)
  }

  lemma {:induction false} JoinedIs(max: nat, timeout: nat, es: seq<Entry>, accepts: seq<Accepted>) returns (more: seq<Entry>)
    requires FreshAll(max, timeout, es, accepts) && |es| <= max
    ensures JoinedAll(max, timeout, es, accepts) == es + more && Newcomers(timeout, accepts, more)
    ensures Sockets(more) == FirstOf(Callers(accepts), max - |es|)
    decreases |accepts|
  {
    if accepts == [] {
      more := [];
    } else {
      var init, a := accepts[..|accepts| - 1], accepts[|accepts| - 1];
      var before := JoinedIs(max, timeout, es, init);
      more := before;
      if a.Client? {
        OthersKept(max, timeout, es, before, accepts);
        if |es + before| < max {
          var e := Entry(a.fd, Quiet, Session(a.fd, timeout, a.now % U32));
          more := before + [e];
          SocketsSnoc(before, e);
          assert es + before + [e] == es + more;
          assert |Sockets(before)| == |before|;
        }
      } else {
        assert forall i :: 0 <= i < |before| ==> AcceptedAt(accepts, before[i].fd) == AcceptedAt(init, before[i].fd);
      }
    }
  }

  /** A further accept is of another socket. */
  lemma OthersKept(max: nat, timeout: nat, es: seq<Entry>, before: seq<Entry>, accepts: seq<Accepted>)
    requires accepts != [] && accepts[|accepts| - 1].Client? && FreshAll(max, timeout, es, accepts)
    requires JoinedAll(max, timeout, es, accepts[..|accepts| - 1]) == es + before
    requires Newcomers(timeout, accepts[..|accepts| - 1], before)
    ensures Newcomers(timeout, accepts, before)
  {
    forall i | 0 <= i < |before|
      ensures before[i].fd != accepts[|accepts| - 1].fd
    {
      assert (es + before)[|es| + i] == before[i];
      SocketAt(es + before, |es| + i);
    }
  }

  /** Given what the pass finds, it closes exactly those that do not stay. */
  lemma ClosesIs(timeout: nat, turns: seq<Turn>, e: Entry)
    requires turns != [] && Current(timeout, turns, e)
    ensures Closes(e, turns[|turns| - 1]) <==> !Stays(timeout, turns, e.fd)
    ensures Passed(timeout, turns, Serviced(e, turns[|turns| - 1]))
    ensures Serviced(e, turns[|turns| - 1]).fd == e.fd
  {
    var now, since := turns[|turns| - 1].clock(e.fd), LastActive(turns, e.fd);
    ElapsedMod(since, now);
  }

  lemma ElapsedMod(since: nat, now: nat)
    ensures Elapsed(since % U32, now) == (now - since) % U32
  {
    assert now - since % U32 == now - since + U32 * (since / U32);
  }

  lemma {:induction false} PassIs(timeout: nat, turns: seq<Turn>, es: seq<Entry>)
    requires turns != [] && forall i :: 0 <= i < |es| ==> Current(timeout, turns, es[i])
    ensures var out := Pass(es, turns[|turns| - 1]);
      && Sockets(out) == Staying(timeout, turns, Sockets(es))
      && forall i :: 0 <= i < |out| ==> Passed(timeout, turns, out[i])
    decreases |es|
  {
    if es != [] {
      var init, e := es[..|es| - 1], es[|es| - 1];
      hide Current, Closes, Serviced, Stays, Passed;
      PassIs(timeout, turns, init);
      ClosesIs(timeout, turns, e);
      assert Sockets(es)[..|es| - 1] == Sockets(init) && Sockets(es)[|es| - 1] == e.fd;
      SocketsSnoc(Pass(init, turns[|turns| - 1]), Serviced(e, turns[|turns| - 1]));
      assert Staying(timeout, turns, Sockets(es)) ==
        Staying(timeout, turns, Sockets(init)) + if Stays(timeout, turns, e.fd) then [e.fd] else [];
    }
  }

  /** A client that was there before, as the next turn polls it. */
  lemma PolledCurrent(timeout: nat, turns: seq<Turn>, e: Entry)
    requires |turns| >= 2 && Passed(timeout, turns[..|turns| - 1], e)
    requires AcceptedAt(turns[|turns| - 1].accepts, e.fd) == None
    ensures Current(timeout, turns, e.(revents := turns[|turns| - 1].events(e.fd)))
  {
  }

  lemma NewcomerCurrent(timeout: nat, turns: seq<Turn>, e: Entry)
    requires turns != [] && AcceptedAt(turns[|turns| - 1].accepts, e.fd).Some? && e.revents == Quiet
    requires e.session == Session(e.fd, timeout, AcceptedAt(turns[|turns| - 1].accepts, e.fd).value % U32)
    ensures Current(timeout, turns, e)
  {
  }

  /** The plain list of clients, seen by its sockets. */
  ghost predicate Agree(max: nat, timeout: nat, turns: seq<Turn>) {
    var es := After(max, timeout, turns);
    && |es| <= max && Sockets(es) == Open(max, timeout, turns)
    && forall i :: 0 <= i < |es| ==> turns != [] && Passed(timeout, turns, es[i])
  }

  lemma ArrivedIs(max: nat, timeout: nat, turns: seq<Turn>)
    requires turns != [] && FreshTurns(max, timeout, turns) && Agree(max, timeout, turns[..|turns| - 1])
    ensures var es := Arrived(max, timeout, turns);
      && |es| <= max && Sockets(es) == Found(max, timeout, turns)
      && forall i :: 0 <= i < |es| ==> Current(timeout, turns, es[i])
  {
    var init, turn := turns[..|turns| - 1], turns[|turns| - 1];
    var before := After(max, timeout, init);
    var polled := Polled(before, turn);
    assert Sockets(polled) == Sockets(before);
    var more := JoinedIs(max, timeout, polled, turn.accepts);
    var es := polled + more;
    hide After, FreshTurns, FreshAll, JoinedAll, Current, Passed, Open;
    assert Sockets(es) == Sockets(polled) + Sockets(more);
    forall i | 0 <= i < |es|
      ensures Current(timeout, turns, es[i])
    {
      if i < |polled| {
        SocketAt(polled, i);
        OpenIsNotAccepted(max, timeout, polled, turn.accepts, polled[i].fd);
        PolledCurrent(timeout, turns, before[i]);
      } else {
        NewcomerCurrent(timeout, turns, more[i - |polled|]);
      }
    }
    assert |Sockets(more)| == |more|;
  }

  /** After any turns the open sockets are those that stay, and the pass finds those that should be there. */
  lemma {:induction false} WhoStays(max: nat, timeout: nat, turns: seq<Turn>)
    requires FreshTurns(max, timeout, turns)
    ensures Agree(max, timeout, turns)
    ensures turns != [] ==>
      && Sockets(Arrived(max, timeout, turns)) == Found(max, timeout, turns)
      && (Overruns(max, Arrived(max, timeout, turns), turns[|turns| - 1]) <==>
            |Found(max, timeout, turns)| == max && |Open(max, timeout, turns)| < max)
    decreases |turns|
  {
    if turns != [] {
      WhoStays(max, timeout, turns[..|turns| - 1]);
      ArrivedIs(max, timeout, turns);
      var es := Arrived(max, timeout, turns);
      PassIs(timeout, turns, es);
      PassLength(es, turns[|turns| - 1]);
      hide Found, Passed, Current, Closes, Serviced, FreshTurns, AnyCloses;
      assert After(max, timeout, turns) == Pass(es, turns[|turns| - 1]);
      assert |Sockets(es)| == |es|;
    }
  }

  /**
   Any number of turns of the server thread: the sockets left are those that stay,
   and the pass of each turn services every client it finds, once, in order. Memory behind the pollfd array is touched exactly if some pass closes
   a client while the table is full.
   */
  method Serve(max: nat, keepAlive: nat, turns: seq<Turn>) returns (sockets: seq<int>, logs: seq<seq<int>>, strayed: bool)
    requires keepAlive <= MAX_TIMEOUT && FreshTurns(max, keepAlive, turns)
    ensures sockets == Open(max, keepAlive, turns)
    ensures |logs| == |turns|
    ensures forall i :: 0 <= i < |turns| ==> logs[i] == Found(max, keepAlive, turns[..i + 1])
    ensures strayed <==> Strays(max, keepAlive, turns, |turns|)
  {
    hide Server.Valid, Server.Clients, FreshAll, JoinedAll, Polled, Sockets, After, Arrived, FreshTurns, Turned, Overruns, Strays, Found, Open, LosesFromFull;
    var server := new Server(max, keepAlive);
    logs := [];
    NoTurns(max, keepAlive, turns);
    var i := 0;
    while i < |turns|
      invariant 0 <= i <= |turns| && |logs| == i
      invariant fresh(server) && fresh(server.cli) && fresh(server.pool)
      invariant server.max == max && server.keepAlive == keepAlive
      invariant server.Valid() && server.Clients() == After(max, keepAlive, turns[..i])
      invariant forall k :: 0 <= k < i ==> logs[k] == Found(max, keepAlive, turns[..k + 1])
      invariant server.strayed <==> Strays(max, keepAlive, turns, i)
    {
      NextTurn(max, keepAlive, turns, i);
      StraysNext(max, keepAlive, turns, i);
      var log := server.TakeTurn(turns[i]);
      logs := logs + [log];
      i := i + 1;
    }
    sockets := server.OpenSockets();
    strayed := server.strayed;
    WhoStays(max, keepAlive, turns);
  }

  lemma NoTurns(max: nat, timeout: nat, turns: seq<Turn>)
    ensures After(max, timeout, turns[..0]) == [] && !Strays(max, timeout, turns, 0) && turns[..|turns|] == turns
  {
  }

  /** The pass of turn `i` finds the table full and does not leave it so. */
  predicate LosesFromFull(max: nat, timeout: nat, turns: seq<Turn>, i: nat)
    requires i < |turns|
  {
    |Found(max, timeout, turns[..i + 1])| == max && |Open(max, timeout, turns[..i + 1])| < max
  }

  /** One of the first `n` turns closes a client while the table is full. */
  ghost predicate Strays(max: nat, timeout: nat, turns: seq<Turn>, n: nat)
    requires n <= |turns|
  {
    exists i :: 0 <= i < n && LosesFromFull(max, timeout, turns, i)
  }

  lemma StraysNext(max: nat, timeout: nat, turns: seq<Turn>, n: nat)
    requires n < |turns|
    ensures Strays(max, timeout, turns, n + 1) <==> Strays(max, timeout, turns, n) || LosesFromFull(max, timeout, turns, n)
  {
    hide LosesFromFull;
  }

  lemma NextTurn(max: nat, timeout: nat, turns: seq<Turn>, i: nat)
    requires FreshTurns(max, timeout, turns) && i < |turns|
    ensures
      var es := After(max, timeout, turns[..i]);
      var polled := Polled(es, turns[i]);
      && FreshAll(max, timeout, polled, turns[i].accepts)
      && After(max, timeout, turns[..i + 1]) == Turned(max, timeout, es, turns[i])
      && Arrived(max, timeout, turns[..i + 1]) == JoinedAll(max, timeout, polled, turns[i].accepts)
      && Sockets(Arrived(max, timeout, turns[..i + 1])) == Found(max, timeout, turns[..i + 1])
      && (Overruns(max, Arrived(max, timeout, turns[..i + 1]), turns[i]) <==> LosesFromFull(max, timeout, turns, i))
  {
    FreshPrefix(max, timeout, turns, i + 1);
    WhoStays(max, timeout, turns[..i + 1]);
    hide Found, Open, Sockets, Overruns;
    assert turns[..i + 1][..i] == turns[..i];
  }

  lemma {:induction false} FreshPrefix(max: nat, timeout: nat, turns: seq<Turn>, i: nat)
    requires FreshTurns(max, timeout, turns) && i <= |turns|
    ensures FreshTurns(max, timeout, turns[..i])
    decreases |turns|
  {
    if i == |turns| {
      assert turns[..i] == turns;
    } else {
      FreshPrefix(max, timeout, turns[..|turns| - 1], i);
      assert turns[..|turns| - 1][..i] == turns[..i];
    }
  }

  /** The pass has serviced as many of the clients `es` as `log` has entries, and stands at `idx` in `now`. */
  ghost predicate Reached(es: seq<Entry>, log: seq<int>, turn: Turn, now: seq<Entry>, idx: int) {
    && |log| <= |es| && idx == |Pass(es[..|log|], turn)|
    && now == Pass(es[..|log|], turn) + es[|log|..]
    && forall i :: 0 <= i < |log| ==> log[i] == es[i].fd
  }

  lemma ReachedStart(es: seq<Entry>, turn: Turn)
    ensures Reached(es, [], turn, es, 0)
  {
    assert es[..0] == [] && es == [] + es[0..];
  }

  lemma ReachedEnd(es: seq<Entry>, log: seq<int>, turn: Turn, now: seq<Entry>, idx: int)
    requires Reached(es, log, turn, now, idx) && idx >= |now|
    ensures now == Pass(es, turn) && log == Sockets(es) && |log| == |es|
  {
    assert es[..|es|] == es && es[|es|..] == [];
  }

  lemma ReachedStep(es: seq<Entry>, log: seq<int>, turn: Turn, now: seq<Entry>, idx: nat)
    requires Reached(es, log, turn, now, idx) && idx < |now|
    ensures
      var log' := log + [now[idx].fd];
      if Closes(now[idx], turn) then Reached(es, log', turn, Without(now, idx), idx)
      else Reached(es, log', turn, now[idx := Serviced(now[idx], turn)], idx + 1)
  {
    var m := |log|;
    var done, done' := Pass(es[..m], turn), Pass(es[..m + 1], turn);
    assert now[idx] == es[m];
    assert es[..m + 1][..m] == es[..m] && es[m..] == [es[m]] + es[m + 1..];
    hide Closes, Serviced;
    assert done' == if Closes(es[m], turn) then done else done + [Serviced(es[m], turn)];
    if Closes(es[m], turn) {
      assert Without(now, idx) == done' + es[m + 1..];
    } else {
      assert now[idx := Serviced(now[idx], turn)] == done' + es[m + 1..];
    }
  }

  /** Moving the slots behind `k` up by one, when all those from `n` on are zero. */
  lemma ShiftedUp(a: seq<PollFd>, b: seq<PollFd>, k: nat, n: nat)
    requires k < n < |a| == |b| && forall i :: n <= i < |a| ==> a[i] == ZERO
    requires forall i :: 0 <= i < k || n < i < |a| ==> b[i] == a[i]
    requires forall i :: k <= i < n ==> b[i] == a[i + 1]
    requires b[n] == ZERO
    ensures b == Without(a, k) + [ZERO]
  {
    forall i | 0 <= i < |b|
      ensures b[i] == (Without(a, k) + [ZERO])[i]
    {
    }
  }

  lemma PollStep(slots: seq<PollFd>, slots': seq<PollFd>, pool: seq<Session>, active: seq<nat>, timeout: nat, turn: Turn)
    requires |slots'| == |slots| && Table(slots, pool, active, timeout)
    requires forall k :: 0 <= k < |active| ==> slots'[k] == slots[k].(revents := turn.events(slots[k].fd))
    requires forall k :: |active| <= k < |slots| ==> slots'[k] == slots[k]
    ensures Table(slots', pool, active, timeout)
    ensures Entries(slots', pool, active) == Polled(Entries(slots, pool, active), turn)
  {
  }
}
