/**
 The device registry: devices register themselves with their first data. A
 failed registration still hands out the slot behind the registered ones; the
 runs show that nothing is ever kept there, so clearing it loses no reference.
 */
module DeviceRegistry {

  datatype Kind = Xiaomi | Caniot | Nucleo

  datatype Medium = NoMedium | Can | Ble

  /** A device address; a CANIOT identifier has a class and a number. */
  datatype Mac = NoMac | BleMac(ble: nat) | CaniotMac(cls: nat, sid: nat)

  datatype Addr = Addr(kind: Kind, medium: Medium, mac: Mac)

  /** The addresses that the three device drivers build. */
  predicate Shown(a: Addr) {
    match a.kind
    case Xiaomi => a.medium == Ble && a.mac.BleMac?
    case Caniot => a.medium == Can && a.mac.CaniotMac?
    case Nucleo => a.medium == NoMedium && a.mac == NoMac
  }

  /** A slot of the registry; `last` holds each endpoint's retained event, 0 for none. */
  datatype Device = Device(sdevuid: nat, addr: Addr, last: seq<nat>)

  /** Data from a device: its address, the endpoint it selects, whether an event can be made of it, and that event. */
  datatype Data = Data(addr: Addr, endpoint: nat, ok: bool, event: nat)

  /** `init_endpoints`: how many, or 0 for the refused CANIOT classes; `apps`: controllers with an application endpoint. */
  function Endpoints(apps: set<Addr>, a: Addr): nat {
    match a.kind
    case Caniot =>
      if a.mac.CaniotMac? && a.mac.cls < 2 then (if a in apps then 2 else 1) else 0
    case _ => 1
  }

  /** Which registered address a lookup takes: by medium and address, or by type if the medium has no comparison. */
  predicate Matches(wanted: Addr, a: Addr) {
    if wanted.kind == Caniot || wanted.medium != NoMedium
    then a.medium == wanted.medium && a.mac == wanted.mac
    else a.kind == wanted.kind
  }

  lemma MatchesIsEqual(wanted: Addr, a: Addr)
    requires Shown(wanted) && Shown(a)
    ensures Matches(wanted, a) <==> wanted == a
  {
  }

  // ---------------------------------------------------------------- the plain list of addresses

  /** The addresses registered by some data: the first of each kept kind, in order of arrival, as far as there is room. */
  function Registered(max: nat, apps: set<Addr>, datas: seq<Data>): seq<Addr> {
    if datas == [] then []
    else
      var before, a := Registered(max, apps, datas[..|datas| - 1]), datas[|datas| - 1].addr;
      if a !in before && |before| < max && Endpoints(apps, a) > 0 then before + [a] else before
  }

  /** Registration is for good: an address keeps its slot, whatever comes later. */
  lemma {:induction false} KeepsSlot(max: nat, apps: set<Addr>, datas: seq<Data>, more: seq<Data>)
    ensures Registered(max, apps, datas) <= Registered(max, apps, datas + more)
    decreases |more|
  {
    if more == [] {
      assert datas + more == datas;
    } else {
      KeepsSlot(max, apps, datas, more[..|more| - 1]);
      assert (datas + more)[..|datas + more| - 1] == datas + more[..|more| - 1];
    }
  }

  /** Which addresses have endpoints: all but CANIOT devices of a class above 1. */
  lemma WhoHasEndpoints(apps: set<Addr>, a: Addr)
    requires Shown(a)
    ensures Endpoints(apps, a) > 0 <==> (a.kind == Caniot ==> a.mac.cls == 0 || a.mac.cls == 1)
    ensures Endpoints(apps, a) == 2 <==> a.kind == Caniot && (a.mac.cls == 0 || a.mac.cls == 1) && a in apps
    ensures Endpoints(apps, a) <= 2
  {
  }

  /** The data at index `i` finds room for its address. */
  predicate RoomAt(max: nat, apps: set<Addr>, datas: seq<Data>, i: nat)
    requires i < |datas|
  {
    |Registered(max, apps, datas[..i])| < max
  }

  /** By index: registered are the addresses with endpoints of which some data found room. */
  lemma {:induction false} RegisteredExactly(max: nat, apps: set<Addr>, datas: seq<Data>, a: Addr)
    ensures a in Registered(max, apps, datas) <==>
      Endpoints(apps, a) > 0 && exists i :: 0 <= i < |datas| && datas[i].addr == a && RoomAt(max, apps, datas, i)
  {
    if datas != [] {
      var n := |datas| - 1;
      var init := datas[..n];
      RegisteredExactly(max, apps, init, a);
      assert forall i :: 0 <= i < n ==> init[i] == datas[i] && init[..i] == datas[..i];
      assert forall i :: 0 <= i < n ==> RoomAt(max, apps, datas, i) == RoomAt(max, apps, init, i);
      assert RoomAt(max, apps, datas, n) == (|Registered(max, apps, init)| < max);
    }
  }

  /** While there is room in the end, every address with endpoints that has sent data is registered. */
  lemma RegisteredWithRoom(max: nat, apps: set<Addr>, datas: seq<Data>, i: nat)
    requires i < |datas| && |Registered(max, apps, datas)| < max && Endpoints(apps, datas[i].addr) > 0
    ensures datas[i].addr in Registered(max, apps, datas)
  {
    KeepsSlot(max, apps, datas[..i], datas[i..]);
    assert datas[..i] + datas[i..] == datas;
    assert RoomAt(max, apps, datas, i);
    RegisteredExactly(max, apps, datas, datas[i].addr);
  }

  predicate NoDup(s: seq<Addr>) {
    forall i, j :: 0 <= i < j < |s| ==> s[i] != s[j]
  }

  lemma {:induction false} RegisteredOnce(max: nat, apps: set<Addr>, datas: seq<Data>)
    ensures NoDup(Registered(max, apps, datas)) && |Registered(max, apps, datas)| <= max
  {
    if datas != [] {
      RegisteredOnce(max, apps, datas[..|datas| - 1]);
    }
  }

  // ---------------------------------------------------------------- the registry

  const EMPTY: Device := Device(0, Addr(Xiaomi, NoMedium, NoMac), [])

  class Registry {
    const max: nat
    const apps: set<Addr>
    const list: array<Device>
    var count: nat
    var sdevuid: nat

    constructor (max: nat, apps: set<Addr>)
      ensures this.max == max && this.apps == apps && fresh(list) && Valid([])
    {
      this.max, this.apps, count, sdevuid := max, apps, 0, 1;
      list := new Device[max](_ => EMPTY);
    }

    /** The slots in use hold these addresses, numbered from 1; the others retain nothing. */
    ghost predicate Valid(addrs: seq<Addr>)
      reads this, list
    {
      && list.Length == max && count == |addrs| <= max && sdevuid == count + 1
      && (forall i :: 0 <= i < count ==>
            && list[i].addr == addrs[i] && list[i].sdevuid == i + 1
            && Shown(addrs[i]) && |list[i].last| == Endpoints(apps, addrs[i]) > 0)
      && (forall i :: count <= i < max ==> list[i].last == [])
    }

    /** `ha_dev_get_by_addr`; `count` stands for none. */
    method GetByAddr(a: Addr, ghost addrs: seq<Addr>) returns (slot: nat)
      requires Valid(addrs)
      ensures slot <= count && forall i :: 0 <= i < slot ==> !Matches(a, addrs[i])
      ensures slot < count ==> Matches(a, addrs[slot])
      ensures Shown(a) ==> (slot == count <==> a !in addrs) && (slot < count ==> addrs[slot] == a)
    {
      slot := 0;
      while slot < count && !Matches(a, list[slot].addr)
        invariant slot <= count && forall i :: 0 <= i < slot ==> !Matches(a, addrs[i])
      {
        slot := slot + 1;
      }
      if Shown(a) {
        forall i | 0 <= i < count
          ensures Matches(a, addrs[i]) <==> a == addrs[i]
        {
          MatchesIsEqual(a, addrs[i]);
        }
      }
    }

    /** `ha_dev_register`: the slot used, even when the device is not registered in the end; `max` for none. */
    method Register(a: Addr, ghost addrs: seq<Addr>) returns (slot: nat)
      requires Valid(addrs) && Shown(a)
      modifies this`count, this`sdevuid, list
      ensures Valid(if |addrs| < max && Endpoints(apps, a) > 0 then addrs + [a] else addrs)
      ensures slot == old(count)
    {
      slot := count;
      if count >= max { return; }
      list[slot] := EMPTY;
      list[slot] := list[slot].(sdevuid := sdevuid, addr := a);
      var n := Endpoints(apps, a);
      if n == 0 { return; }
      list[slot] := list[slot].(last := seq(n, _ => 0));
      count := count + 1;
      sdevuid := sdevuid + 1;
    }

    /** `device_process_data`, as far as the endpoint's retained event; the event replaced is given back. */
    method ProcessData(slot: nat, d: Data, ghost addrs: seq<Addr>) returns (retained: bool)
      requires Valid(addrs) && slot < max
      modifies list
      ensures Valid(addrs)
      ensures retained <==> slot < count && d.endpoint < Endpoints(apps, addrs[slot]) && d.ok
      ensures forall i :: 0 <= i < max && i != slot ==> list[i] == old(list[i])
      ensures list[slot] ==
        if retained then old(list[slot]).(last := old(list[slot].last)[d.endpoint := d.event]) else old(list[slot])
    {
      retained := false;
      if d.endpoint < |list[slot].last| && d.ok {
        list[slot] := list[slot].(last := list[slot].last[d.endpoint := d.event]);
        retained := true;
      }
    }

    /** `ha_dev_register_data`. */
    method RegisterData(d: Data, ghost datas: seq<Data>) returns (retained: bool)
      requires Shown(d.addr) && Valid(Registered(max, apps, datas))
      modifies this`count, this`sdevuid, list
      ensures Valid(Registered(max, apps, datas + [d]))
      ensures retained <==>
        d.addr in Registered(max, apps, datas + [d]) && d.endpoint < Endpoints(apps, d.addr) && d.ok
    {
      ghost var addrs := Registered(max, apps, datas);
      ghost var addrs' := Registered(max, apps, datas + [d]);
      assert (datas + [d])[..|datas|] == datas;
      retained := false;
      var slot := GetByAddr(d.addr, addrs);
      if slot == count {
        slot := Register(d.addr, addrs);
      }
      if slot < max {
        retained := ProcessData(slot, d, addrs');
      }
    }
  }

  /** Any sequence of data registrations: the devices are those of the plain list, numbered in order. */
  method Run(max: nat, apps: set<Addr>, datas: seq<Data>) returns (devices: seq<Device>)
    requires forall d :: d in datas ==> Shown(d.addr)
    ensures |devices| == |Registered(max, apps, datas)|
    ensures forall i :: 0 <= i < |devices| ==>
      devices[i].addr == Registered(max, apps, datas)[i] && devices[i].sdevuid == i + 1
  {
    var registry := new Registry(max, apps);
    var i := 0;
    assert datas[..0] == [];
    while i < |datas|
      invariant 0 <= i <= |datas| && fresh(registry) && fresh(registry.list)
      invariant registry.max == max && registry.apps == apps
      invariant registry.Valid(Registered(max, apps, datas[..i]))
    {
      assert datas[..i + 1] == datas[..i] + [datas[i]];
      var _ := registry.RegisterData(datas[i], datas[..i]);
      i := i + 1;
    }
    assert datas[..i] == datas;
    devices := registry.list[..registry.count];
  }
}
