// The known devices of the adapter: the bonded list, the bounded cache, the pairing flags per transport,
// and what the HAL is told about the bond state.

module Bonding {
  import opened Common

  type Address = nat

  const DEVICES_CACHE_MAX := 300

  datatype Bond = NONE | BONDING | BONDED

  // `touched` numbers the last time the device was put into the cache, and `told` lists the bond states the
  // HAL was told since the device was created; the program keeps neither, they only serve to state properties.
  datatype Device = Device(pairing: bool, bredrPaired: bool, bredrBonded: bool, lePaired: bool, leBonded: bool,
                           touched: nat, origin: Bond, told: seq<Bond>)

  const NewDevice := Device(false, false, false, false, false, 0, NONE, [])

  // Both lists hold addresses of known devices; the cache has the most recently touched first.
  datatype Adapter = Adapter(bonded: seq<Address>, cached: seq<Address>, devices: map<Address, Device>, clock: nat)

  datatype Transport = BREDR | LE

  predicate Paired(d: Device) {
    d.bredrPaired || d.lePaired
  }

  // device_bond_state
  function BondState(d: Device): Bond {
    if d.pairing then BONDING else if Paired(d) then BONDED else NONE
  }

  function At(a: Adapter, x: Address): Device {
    if x in a.devices then a.devices[x] else NewDevice
  }

  function Put(a: Adapter, x: Address, d: Device): Adapter {
    a.(devices := a.devices[x := d])
  }

  // ------------------------------------------------------------ operations

  function Touch(a: Adapter, x: Address): Adapter {
    Put(a, x, At(a, x).(touched := a.clock)).(clock := a.clock + 1)
  }

  // cache_device: a device that is in the cache moves to the front; for any other the last one goes when
  // the cache is full.
  function CacheDevice(a: Adapter, x: Address): Adapter {
    if x in a.cached then Touch(a, x).(cached := [x] + Remove(a.cached, x))
    else if |a.cached| < DEVICES_CACHE_MAX then Touch(a, x).(cached := [x] + a.cached)
    else
      var last := a.cached[|a.cached| - 1];
      var a1 := Touch(a, x);
      a1.(cached := [x] + a.cached[..|a.cached| - 1], devices := a1.devices - {last})
  }

  // get_device
  function GetDevice(a: Adapter, x: Address): Adapter {
    if x in a.devices then a else CacheDevice(Put(a, x, NewDevice), x)
  }

  // What update_bredr_state and update_le_state do to the flags of the transport they are for.
  function Flags(d: Device, t: Transport, paired: bool, bonded: bool): Device {
    match t
    case BREDR => d.(bredrPaired := paired, bredrBonded := paired && (d.bredrBonded || bonded))
    case LE => d.(lePaired := paired, leBonded := paired && (d.leBonded || bonded))
  }

  function PairedOn(d: Device, t: Transport): bool {
    if t == BREDR then d.bredrPaired else d.lePaired
  }

  function BondedOn(d: Device, t: Transport): bool {
    if t == BREDR then d.bredrBonded else d.leBonded
  }

  function PairedElsewhere(d: Device, t: Transport): bool {
    if t == BREDR then d.lePaired else d.bredrPaired
  }

  // update_bredr_state, update_le_state
  function UpdateTransport(a: Adapter, x: Address, t: Transport, pairing: bool, paired: bool, bonded: bool): Adapter {
    var d := At(a, x);
    if pairing == d.pairing && paired == PairedOn(d, t) && bonded == BondedOn(d, t) then a
    else if (pairing && PairedOn(d, t)) || (!pairing && !paired && d.pairing && PairedOn(d, t))
    then Put(a, x, d.(pairing := pairing))
    else
      var a1 := if paired && !PairedElsewhere(d, t) && !PairedOn(d, t)
                then a.(cached := Remove(a.cached, x), bonded := [x] + a.bonded)
                else if !paired && !PairedElsewhere(d, t)
                then CacheDevice(a.(bonded := Remove(a.bonded, x)), x)
                else a;
      Put(a1, x, Flags(At(a1, x), t, paired, bonded).(pairing := pairing))
  }

  // update_bond_state: between NONE and BONDED the HAL also hears of BONDING.
  function Told(was: Bond, now: Bond): seq<Bond> {
    if was == now then []
    else if (was == NONE && now == BONDED) || (was == BONDED && now == NONE) then [BONDING, now]
    else [now]
  }

  // update_device_state
  function UpdateDevice(a: Adapter, x: Address, t: Transport, pairing: bool, paired: bool, bonded: bool): Adapter {
    var a1 := UpdateTransport(a, x, t, pairing, paired, bonded);
    Put(a1, x, At(a1, x).(told := At(a1, x).told + Told(BondState(At(a, x)), BondState(At(a1, x)))))
  }

  // update_found_device, as far as the lists are concerned
  function FoundDevice(a: Adapter, x: Address): Adapter {
    var a1 := GetDevice(a, x);
    if Paired(At(a1, x)) then a1 else CacheDevice(a1, x)
  }

  // `create` says whether the handler gets the device or only finds it.
  datatype Event =
    | Get(x: Address)
    | Found(x: Address)
    | Update(x: Address, create: bool, t: Transport, pairing: bool, paired: bool, bonded: bool)

  function Step(a: Adapter, e: Event): Adapter {
    match e
    case Get(x) => GetDevice(a, x)
    case Found(x) => FoundDevice(a, x)
    case Update(x, create, t, pairing, paired, bonded) =>
      var a1 := if create then GetDevice(a, x) else a;
      if x in a1.devices then UpdateDevice(a1, x, t, pairing, paired, bonded) else a1
  }

  function Run(a: Adapter, es: seq<Event>): Adapter
    decreases |es|
  {
    if es == [] then a else Run(Step(a, es[0]), es[1..])
  }

  // ------------------------------------------------------------ what holds throughout

  // Most recently touched first.
  ghost predicate Recent(xs: seq<Address>, a: Adapter) {
    xs == [] || ((forall y :: y in xs[1..] ==> At(a, xs[0]).touched > At(a, y).touched) && Recent(xs[1..], a))
  }

  // A walk that starts at `from` and never steps directly between NONE and BONDED.
  ghost predicate Walk(from: Bond, told: seq<Bond>)
    decreases |told|
  {
    told == [] || (Adjacent(from, told[0]) && Walk(told[0], told[1..]))
  }

  predicate Adjacent(b: Bond, c: Bond) {
    b != c && (b == BONDING || c == BONDING)
  }

  function LastTold(d: Device): Bond {
    if d.told == [] then d.origin else d.told[|d.told| - 1]
  }

  ghost predicate DeviceOk(d: Device) {
    && (d.bredrBonded ==> d.bredrPaired) && (d.leBonded ==> d.lePaired)
    && Walk(d.origin, d.told) && LastTold(d) == BondState(d)
  }

  // Every device is in exactly one list, once; in the bonded list exactly if it is paired.
  ghost predicate ListsOk(a: Adapter) {
    && NoDuplicates(a.bonded) && NoDuplicates(a.cached)
    && (forall x :: x in a.devices ==> (x in a.bonded <==> Paired(a.devices[x])))
    && (forall x :: x in a.devices ==> (x in a.cached <==> !Paired(a.devices[x])))
    && (forall x :: x in a.bonded || x in a.cached ==> x in a.devices)
  }

  ghost predicate AllDevicesOk(a: Adapter) {
    forall x :: x in a.devices ==> DeviceOk(a.devices[x])
  }

  ghost predicate CacheOk(a: Adapter) {
    Recent(a.cached, a) && forall x :: x in a.cached ==> At(a, x).touched < a.clock
  }

  ghost predicate Ok(a: Adapter) {
    ListsOk(a) && AllDevicesOk(a) && CacheOk(a)
  }

  // ------------------------------------------------------------ the cache

  lemma {:induction false} RecentFrame(xs: seq<Address>, a: Adapter, b: Adapter)
    requires Recent(xs, a) && forall y :: y in xs ==> At(b, y).touched == At(a, y).touched
    ensures Recent(xs, b)
  {
    if xs != [] {
      RecentFrame(xs[1..], a, b);
      assert xs[0] in xs;
    }
  }

  lemma {:induction false} RemoveSubset(xs: seq<Address>, x: Address)
    ensures forall y :: y in Remove(xs, x) ==> y in xs
  {
    if xs != [] {
      RemoveSubset(xs[1..], x);
    }
  }

  lemma {:induction false} RecentRemove(xs: seq<Address>, x: Address, a: Adapter)
    requires Recent(xs, a)
    ensures Recent(Remove(xs, x), a)
  {
    if xs != [] && xs[0] != x {
      RecentRemove(xs[1..], x, a);
      RemoveSubset(xs[1..], x);
      assert ([xs[0]] + Remove(xs[1..], x))[1..] == Remove(xs[1..], x);
    }
  }

  lemma {:induction false} RecentFront(xs: seq<Address>, a: Adapter)
    requires Recent(xs, a) && xs != []
    ensures Recent(xs[..|xs| - 1], a)
    ensures forall y :: y in xs[..|xs| - 1] ==> At(a, y).touched > At(a, xs[|xs| - 1]).touched
  {
    if |xs| > 1 {
      RecentFront(xs[1..], a);
      assert xs[..|xs| - 1][1..] == xs[1..][..|xs| - 2];
      assert xs[|xs| - 1] == xs[1..][|xs| - 2];
      var front := xs[..|xs| - 1];
      forall y | y in front ensures At(a, y).touched > At(a, xs[|xs| - 1]).touched {
        if y != xs[0] {
          assert y in front[1..];
        }
      }
    }
  }

  // The devices of the cache after cache_device, and the one that goes, if any.
  function Rest(a: Adapter, x: Address): seq<Address> {
    if x in a.cached then Remove(a.cached, x)
    else if |a.cached| < DEVICES_CACHE_MAX then a.cached
    else a.cached[..|a.cached| - 1]
  }

  function Evicted(a: Adapter, x: Address): set<Address> {
    if x in a.cached || |a.cached| < DEVICES_CACHE_MAX then {} else {a.cached[|a.cached| - 1]}
  }

  lemma CacheShape(a: Adapter, x: Address)
    ensures CacheDevice(a, x) == Adapter(a.bonded, [x] + Rest(a, x),
                                         a.devices[x := At(a, x).(touched := a.clock)] - Evicted(a, x), a.clock + 1)
  {
  }

  // All that is used of the three cases.
  lemma RestFacts(a: Adapter, x: Address)
    requires NoDuplicates(a.cached) && Recent(a.cached, a)
    ensures var rest := Rest(a, x);
            && NoDuplicates([x] + rest) && x !in rest && Recent(rest, a)
            && (forall y :: y in a.cached && y != x ==> (y in rest <==> y !in Evicted(a, x)))
            && (forall y :: y in rest ==> y in a.cached)
            && (forall y :: y in Evicted(a, x) ==> y in a.cached && y != x)
  {
    RemoveOnce(a.cached, x);
    RecentRemove(a.cached, x, a);
    AddFresh(a, x);
    if x !in a.cached && |a.cached| >= DEVICES_CACHE_MAX {
      RecentFront(a.cached, a);
      LastOnce(a.cached);
    }
  }

  lemma AddFresh(a: Adapter, x: Address)
    requires NoDuplicates(a.cached)
    ensures NoDuplicates([x] + Rest(a, x))
  {
    RemoveOnce(a.cached, x);
    AddHead(x, Rest(a, x));
  }

  lemma LastOnce(xs: seq<Address>)
    requires NoDuplicates(xs) && xs != []
    ensures xs[|xs| - 1] !in xs[..|xs| - 1] && NoDuplicates(xs[..|xs| - 1])
    ensures forall y :: y in xs <==> y == xs[|xs| - 1] || y in xs[..|xs| - 1]
  {
    assert xs == xs[..|xs| - 1] + [xs[|xs| - 1]];
  }

  // Between the two lists x may be nowhere for a moment: x is known, unpaired, and not bonded.
  ghost predicate OkBut(a: Adapter, x: Address) {
    && x in a.devices && x !in a.bonded
    && NoDuplicates(a.bonded) && NoDuplicates(a.cached) && AllDevicesOk(a) && CacheOk(a)
    && (forall y :: y in a.devices && y != x ==> (y in a.bonded <==> Paired(a.devices[y])))
    && (forall y :: y in a.devices && y != x ==> (y in a.cached <==> !Paired(a.devices[y])))
    && (forall y :: y in a.bonded || y in a.cached ==> y in a.devices)
  }

  // The same, but with x at the front of the cache.
  ghost predicate OkFirst(b: Adapter, x: Address) {
    OkBut(b, x) && b.cached != [] && b.cached[0] == x
  }

  lemma CacheAllDevices(a: Adapter, x: Address)
    requires x in a.devices && AllDevicesOk(a) && x !in Evicted(a, x)
    ensures AllDevicesOk(CacheDevice(a, x)) && x in CacheDevice(a, x).devices
  {
    CacheShape(a, x);
    hide CacheDevice, Evicted, Walk;
    var b := CacheDevice(a, x);
    forall y | y in b.devices ensures DeviceOk(b.devices[y]) {
      assert DeviceOk(a.devices[y]);
    }
  }

  lemma CacheRecent(a: Adapter, x: Address)
    requires x in a.devices && NoDuplicates(a.cached) && CacheOk(a)
    requires forall y :: y in a.cached ==> y in a.devices
    ensures CacheOk(CacheDevice(a, x))
  {
    RestFacts(a, x);
    CacheShape(a, x);
    hide CacheDevice, Rest, NoDuplicates, Evicted;
    var b := CacheDevice(a, x);
    var rest := Rest(a, x);
    assert ([x] + rest)[1..] == rest;
    forall y | y in rest ensures At(b, y).touched == At(a, y).touched {
      assert y in a.cached && y !in Evicted(a, x);
    }
    RecentFrame(rest, a, b);
    assert At(b, x).touched == a.clock;
  }

  lemma CacheDevicesOk(a: Adapter, x: Address)
    requires OkBut(a, x)
    ensures AllDevicesOk(CacheDevice(a, x)) && CacheOk(CacheDevice(a, x))
    ensures x in CacheDevice(a, x).devices
  {
    hide AllDevicesOk, NoDuplicates, CacheDevice, Rest;
    assert Recent(a.cached, a);
    RestFacts(a, x);
    hide Recent;
    CacheAllDevices(a, x);
    CacheRecent(a, x);
  }

  lemma CacheMembers(a: Adapter, x: Address)
    requires OkBut(a, x)
    ensures var b := CacheDevice(a, x);
            && (forall y :: y in b.devices && y != x ==> (y in b.bonded <==> Paired(b.devices[y])))
            && (forall y :: y in b.devices && y != x ==> (y in b.cached <==> !Paired(b.devices[y])))
            && (forall y :: y in b.bonded || y in b.cached ==> y in b.devices)
  {
    RestFacts(a, x);
    CacheShape(a, x);
    hide CacheDevice, Rest, AllDevicesOk, CacheOk, Recent, NoDuplicates, Evicted;
    var b := CacheDevice(a, x);
    forall y | y in b.devices && y != x
      ensures (y in b.bonded <==> Paired(b.devices[y])) && (y in b.cached <==> !Paired(b.devices[y]))
    {
      assert y in a.devices && b.devices[y] == a.devices[y];
    }
  }

  lemma CacheLists(a: Adapter, x: Address)
    requires OkBut(a, x)
    ensures OkFirst(CacheDevice(a, x), x)
    ensures CacheDevice(a, x).devices[x] == a.devices[x].(touched := a.clock)
  {
    CacheDevicesOk(a, x);
    CacheMembers(a, x);
    CacheFront(a, x);
    hide CacheDevice, AllDevicesOk, CacheOk, Recent, NoDuplicates, Paired;
  }

  lemma CacheFront(a: Adapter, x: Address)
    requires x in a.devices && NoDuplicates(a.cached) && Recent(a.cached, a) && x in CacheDevice(a, x).devices
    ensures var b := CacheDevice(a, x);
            && b.bonded == a.bonded && b.cached != [] && b.cached[0] == x && NoDuplicates(b.cached)
            && b.devices[x] == a.devices[x].(touched := a.clock)
  {
    RestFacts(a, x);
    CacheShape(a, x);
    hide CacheDevice, Rest, Evicted, Recent, NoDuplicates;
  }

  // ------------------------------------------------------------ every event keeps it

  lemma GetOk(a: Adapter, x: Address)
    requires Ok(a)
    ensures Ok(GetDevice(a, x)) && x in GetDevice(a, x).devices
    ensures x !in a.devices ==> GetDevice(a, x).devices[x] == NewDevice.(touched := a.clock)
  {
    if x !in a.devices {
      var b := Put(a, x, NewDevice);
      PutFrame(a, x, NewDevice);
      assert DeviceOk(NewDevice);
      hide DeviceOk, Recent, NoDuplicates, CacheDevice;
      CacheLists(b, x);
      UnpairedOk(CacheDevice(b, x), x);
    }
  }

  lemma PutFrame(a: Adapter, x: Address, d: Device)
    requires CacheOk(a) && (x in a.cached ==> d.touched == At(a, x).touched)
    ensures CacheOk(Put(a, x, d))
  {
    RecentFrame(a.cached, a, Put(a, x, d));
  }

  // x sits first in the cache and is unpaired.
  lemma UnpairedOk(b: Adapter, x: Address)
    requires OkFirst(b, x) && !Paired(b.devices[x])
    ensures Ok(b)
  {
    hide DeviceOk, Recent, NoDuplicates, Paired;
    assert b.cached[0] in b.cached;
  }

  lemma FoundOk(a: Adapter, x: Address)
    requires Ok(a)
    ensures Ok(FoundDevice(a, x))
  {
    GetOk(a, x);
    hide DeviceOk, Recent, NoDuplicates, CacheDevice, GetDevice;
    var a1 := GetDevice(a, x);
    if !Paired(At(a1, x)) {
      CacheLists(a1, x);
      UnpairedOk(CacheDevice(a1, x), x);
    }
  }

  // A walk goes on where it ended.
  lemma {:induction false} WalkOn(from: Bond, told: seq<Bond>, more: seq<Bond>)
    requires Walk(from, told) && Walk(if told == [] then from else told[|told| - 1], more)
    ensures Walk(from, told + more)
    decreases |told|
  {
    if told == [] {
      assert told + more == more;
    } else {
      assert (told + more)[1..] == told[1..] + more;
      WalkOn(told[0], told[1..], more);
    }
  }

  // From one state to another the HAL is told a walk that ends there.
  lemma ToldWalks(was: Bond, now: Bond)
    ensures var more := Told(was, now);
            Walk(was, more) && (if more == [] then was == now else more[|more| - 1] == now)
  {
    assert [BONDING, now][1..] == [now] && [now][1..] == [];
  }

  // d is what an update leaves of a device that was `before`, with the HAL told of the difference.
  lemma ToldOk(before: Device, d: Device)
    requires DeviceOk(before) && d.origin == before.origin && d.told == before.told
    requires (d.bredrBonded ==> d.bredrPaired) && (d.leBonded ==> d.lePaired)
    ensures DeviceOk(d.(told := d.told + Told(BondState(before), BondState(d))))
  {
    var more := Told(BondState(before), BondState(d));
    ToldWalks(BondState(before), BondState(d));
    hide Told, Walk;
    WalkOn(d.origin, d.told, more);
    if more == [] {
      assert d.told + more == d.told;
    }
  }

  // What an update does to the record of its device.
  function After(d: Device, t: Transport, pairing: bool, paired: bool, bonded: bool): Device {
    if pairing == d.pairing && paired == PairedOn(d, t) && bonded == BondedOn(d, t) then d
    else if (pairing && PairedOn(d, t)) || (!pairing && !paired && d.pairing && PairedOn(d, t))
      then d.(pairing := pairing)
    else Flags(d, t, paired, bonded).(pairing := pairing)
  }

  lemma ToBondedLists(a: Adapter, x: Address, d: Device)
    requires ListsOk(a) && x in a.devices && !Paired(a.devices[x]) && Paired(d)
    ensures ListsOk(Put(a.(cached := Remove(a.cached, x), bonded := [x] + a.bonded), x, d))
  {
    RemoveOnce(a.cached, x);
    AddHead(x, a.bonded);
    hide NoDuplicates, Paired, Remove;
  }

  lemma PutDevices(a: Adapter, x: Address, d: Device)
    requires AllDevicesOk(a) && DeviceOk(d)
    ensures AllDevicesOk(Put(a, x, d))
  {
    hide DeviceOk;
  }

  lemma ToBondedCache(a: Adapter, x: Address, d: Device)
    requires CacheOk(a) && NoDuplicates(a.cached)
    ensures CacheOk(Put(a.(cached := Remove(a.cached, x), bonded := [x] + a.bonded), x, d))
  {
    var b := a.(cached := Remove(a.cached, x), bonded := [x] + a.bonded);
    RemoveSubset(a.cached, x);
    RecentRemove(a.cached, x, a);
    RemoveOnce(a.cached, x);
    hide Remove, NoDuplicates;
    RecentFrame(b.cached, a, Put(b, x, d));
    hide Recent;
  }

  lemma ToBonded(a: Adapter, x: Address, d: Device)
    requires Ok(a) && x in a.devices && !Paired(a.devices[x]) && Paired(d) && DeviceOk(d)
    ensures Ok(Put(a.(cached := Remove(a.cached, x), bonded := [x] + a.bonded), x, d))
  {
    var b := a.(cached := Remove(a.cached, x), bonded := [x] + a.bonded);
    ToBondedLists(a, x, d);
    ToBondedCache(a, x, d);
    assert AllDevicesOk(b);
    PutDevices(b, x, d);
    hide ListsOk, AllDevicesOk, CacheOk, Paired, Remove;
  }

  lemma SameCache(a: Adapter, b: Adapter)
    requires b.devices == a.devices && b.cached == a.cached && b.clock == a.clock
    ensures (AllDevicesOk(a) ==> AllDevicesOk(b)) && (CacheOk(a) ==> CacheOk(b))
  {
    hide DeviceOk;
    if CacheOk(a) {
      RecentFrame(a.cached, a, b);
    }
  }

  lemma Unbonded(a: Adapter, x: Address)
    requires Ok(a) && x in a.devices
    ensures OkBut(a.(bonded := Remove(a.bonded, x)), x)
  {
    var b := a.(bonded := Remove(a.bonded, x));
    RemoveOnce(a.bonded, x);
    SameCache(a, b);
    hide AllDevicesOk, CacheOk, NoDuplicates, Paired, Remove;
  }

  lemma ToCache(a: Adapter, x: Address, d: Device)
    requires Ok(a) && x in a.devices && !Paired(d) && DeviceOk(d) && d.touched == a.clock
    ensures Ok(Put(CacheDevice(a.(bonded := Remove(a.bonded, x)), x), x, d))
  {
    var b := a.(bonded := Remove(a.bonded, x));
    Unbonded(a, x);
    CacheLists(b, x);
    hide DeviceOk, Recent, NoDuplicates, Paired, Remove, CacheDevice, CacheOk;
    var c := CacheDevice(b, x);
    PutFirst(c, x, d);
  }

  lemma PutFirst(c: Adapter, x: Address, d: Device)
    requires OkFirst(c, x) && !Paired(d) && DeviceOk(d) && d.touched == c.devices[x].touched
    ensures Ok(Put(c, x, d))
  {
    PutFrame(c, x, d);
    hide DeviceOk, Recent, NoDuplicates, Paired, CacheOk;
    assert c.cached[0] in c.cached;
  }

  lemma StayOk(a: Adapter, x: Address, d: Device)
    requires Ok(a) && x in a.devices && (Paired(d) <==> Paired(a.devices[x])) && DeviceOk(d)
    requires d.touched == a.devices[x].touched
    ensures Ok(Put(a, x, d))
  {
    PutFrame(a, x, d);
    PutDevices(a, x, d);
    StayLists(a, x, d);
    hide AllDevicesOk, CacheOk, ListsOk, Paired;
  }

  lemma StayLists(a: Adapter, x: Address, d: Device)
    requires ListsOk(a) && x in a.devices && (Paired(d) <==> Paired(a.devices[x]))
    ensures ListsOk(Put(a, x, d))
  {
    hide NoDuplicates, Paired;
  }

  // The record with what the HAL is told.
  function Reported(before: Device, d: Device): Device {
    d.(told := d.told + Told(BondState(before), BondState(d)))
  }

  // Whether the update gets past its three early exits.
  predicate Moves(d: Device, t: Transport, pairing: bool, paired: bool, bonded: bool) {
    && !(pairing == d.pairing && paired == PairedOn(d, t) && bonded == BondedOn(d, t))
    && !(pairing && PairedOn(d, t)) && !(!pairing && !paired && d.pairing && PairedOn(d, t))
  }

  // What an update makes of the lists: the device changes to the bonded list, to the cache, or stays.
  function Relisted(a: Adapter, x: Address, t: Transport, pairing: bool, paired: bool, bonded: bool): Adapter {
    var d := At(a, x);
    if Moves(d, t, pairing, paired, bonded) && paired && !Paired(d)
    then a.(cached := Remove(a.cached, x), bonded := [x] + a.bonded)
    else if Moves(d, t, pairing, paired, bonded) && !paired && !PairedElsewhere(d, t)
    then CacheDevice(a.(bonded := Remove(a.bonded, x)), x)
    else a
  }

  // The record it leaves, but for what the HAL is told.
  function Record(a: Adapter, x: Address, t: Transport, pairing: bool, paired: bool, bonded: bool): Device {
    var d := At(a, x);
    var f := After(d, t, pairing, paired, bonded);
    if Moves(d, t, pairing, paired, bonded) && !paired && !PairedElsewhere(d, t) then f.(touched := a.clock) else f
  }

  lemma TransportStays(a: Adapter, x: Address, t: Transport, pairing: bool, paired: bool, bonded: bool)
    requires x in a.devices && !Moves(a.devices[x], t, pairing, paired, bonded)
    ensures UpdateTransport(a, x, t, pairing, paired, bonded)
            == Put(a, x, After(a.devices[x], t, pairing, paired, bonded))
  {
    PutSame(a, x);
    hide Remove, CacheDevice, Put, Flags;
  }

  lemma TransportMoves(a: Adapter, x: Address, t: Transport, pairing: bool, paired: bool, bonded: bool)
    requires x in a.devices && Moves(a.devices[x], t, pairing, paired, bonded)
    ensures UpdateTransport(a, x, t, pairing, paired, bonded)
            == Put(Relisted(a, x, t, pairing, paired, bonded), x, Record(a, x, t, pairing, paired, bonded))
  {
    hide Remove, CacheDevice, Put, Flags;
    var d := a.devices[x];
    if paired && !Paired(d) {
      assert !PairedElsewhere(d, t) && !PairedOn(d, t);
    } else if !paired && !PairedElsewhere(d, t) {
      CacheKeeps(a.(bonded := Remove(a.bonded, x)), x);
      TouchedFlags(d, t, paired, bonded, a.clock);
    } else {
      assert PairedElsewhere(d, t) || PairedOn(d, t);
    }
  }

  lemma TouchedFlags(d: Device, t: Transport, paired: bool, bonded: bool, touched: nat)
    ensures Flags(d.(touched := touched), t, paired, bonded) == Flags(d, t, paired, bonded).(touched := touched)
  {
  }

  lemma TransportShape(a: Adapter, x: Address, t: Transport, pairing: bool, paired: bool, bonded: bool)
    requires x in a.devices
    ensures UpdateTransport(a, x, t, pairing, paired, bonded)
            == Put(Relisted(a, x, t, pairing, paired, bonded), x, Record(a, x, t, pairing, paired, bonded))
  {
    hide UpdateTransport, CacheDevice, Remove, Put, Moves, After;
    if Moves(a.devices[x], t, pairing, paired, bonded) {
      TransportMoves(a, x, t, pairing, paired, bonded);
    } else {
      TransportStays(a, x, t, pairing, paired, bonded);
    }
  }

  // What an update makes of the adapter.
  function Updated(a: Adapter, x: Address, t: Transport, pairing: bool, paired: bool, bonded: bool): Adapter {
    Put(Relisted(a, x, t, pairing, paired, bonded), x, Reported(At(a, x), Record(a, x, t, pairing, paired, bonded)))
  }

  lemma UpdateShape(a: Adapter, x: Address, t: Transport, pairing: bool, paired: bool, bonded: bool)
    requires x in a.devices
    ensures UpdateDevice(a, x, t, pairing, paired, bonded) == Updated(a, x, t, pairing, paired, bonded)
  {
    TransportShape(a, x, t, pairing, paired, bonded);
    var f := Record(a, x, t, pairing, paired, bonded);
    PutTwice(Relisted(a, x, t, pairing, paired, bonded), x, f, Reported(At(a, x), f));
    hide Relisted, Record, UpdateTransport, Told, Put;
  }

  lemma CacheKeeps(b: Adapter, x: Address)
    requires x in b.devices
    ensures x in CacheDevice(b, x).devices && CacheDevice(b, x).devices[x] == b.devices[x].(touched := b.clock)
  {
  }

  lemma PutSame(a: Adapter, x: Address)
    requires x in a.devices
    ensures Put(a, x, a.devices[x]) == a && At(a, x) == a.devices[x]
  {
    assert a.devices[x := a.devices[x]] == a.devices;
  }

  lemma PutTwice(a: Adapter, x: Address, d: Device, e: Device)
    ensures Put(Put(a, x, d), x, e) == Put(a, x, e) && At(Put(a, x, d), x) == d
  {
  }

  lemma AfterFlags(d: Device, t: Transport, pairing: bool, paired: bool, bonded: bool)
    requires DeviceOk(d)
    ensures var f := After(d, t, pairing, paired, bonded);
            && (f.bredrBonded ==> f.bredrPaired) && (f.leBonded ==> f.lePaired)
            && f.origin == d.origin && f.told == d.told && f.touched == d.touched
            && (if Moves(d, t, pairing, paired, bonded)
                then Paired(f) == (paired || PairedElsewhere(d, t)) else Paired(f) == Paired(d))
  {
    hide Walk;
  }

  lemma DeviceAt(a: Adapter, x: Address)
    requires Ok(a) && x in a.devices
    ensures DeviceOk(a.devices[x])
  {
    hide ListsOk, CacheOk, DeviceOk;
  }

  lemma UpdateOk(a: Adapter, x: Address, t: Transport, pairing: bool, paired: bool, bonded: bool)
    requires Ok(a) && x in a.devices
    ensures Ok(UpdateDevice(a, x, t, pairing, paired, bonded))
  {
    hide Ok, UpdateDevice, CacheDevice, Remove, DeviceOk, Told, After, Moves, BondState;
    var d := a.devices[x];
    var f := After(d, t, pairing, paired, bonded);
    DeviceAt(a, x);
    AfterFlags(d, t, pairing, paired, bonded);
    ToldOk(d, f);
    ToldOk(d, f.(touched := a.clock));
    UpdateShape(a, x, t, pairing, paired, bonded);
    if Moves(d, t, pairing, paired, bonded) && paired && !Paired(d) {
      ToBonded(a, x, Reported(d, f));
    } else if Moves(d, t, pairing, paired, bonded) && !paired && !PairedElsewhere(d, t) {
      ToCache(a, x, Reported(d, f.(touched := a.clock)));
    } else {
      StayOk(a, x, Reported(d, f));
    }
  }

  lemma StepOk(a: Adapter, e: Event)
    requires Ok(a)
    ensures Ok(Step(a, e))
  {
    hide Ok, GetDevice, FoundDevice, UpdateDevice;
    match e {
      case Get(x) => GetOk(a, x);
      case Found(x) => FoundOk(a, x);
      case Update(x, create, t, pairing, paired, bonded) =>
        GetOk(a, x);
        var a1 := if create then GetDevice(a, x) else a;
        if x in a1.devices {
          UpdateOk(a1, x, t, pairing, paired, bonded);
        }
    }
  }

  lemma {:induction false} RunOk(a: Adapter, es: seq<Event>)
    requires Ok(a)
    ensures Ok(Run(a, es))
    decreases |es|
  {
    hide Ok, Step;
    if es != [] {
      StepOk(a, es[0]);
      RunOk(Step(a, es[0]), es[1..]);
    }
  }

  // ------------------------------------------------------------ the size of the cache

  function Limit(a: Adapter): nat {
    if |a.cached| > DEVICES_CACHE_MAX then |a.cached| else DEVICES_CACHE_MAX
  }

  lemma CacheSize(a: Adapter, x: Address)
    requires NoDuplicates(a.cached)
    ensures |CacheDevice(a, x).cached| <= Limit(a) && NoDuplicates(CacheDevice(a, x).cached)
  {
    RemoveOnce(a.cached, x);
    AddFresh(a, x);
  }

  lemma StepSize(a: Adapter, e: Event)
    requires Ok(a)
    ensures |Step(a, e).cached| <= Limit(a)
  {
    hide CacheDevice, Remove, AllDevicesOk, CacheOk, UpdateDevice;
    var x := e.x;
    CacheSize(Put(a, x, NewDevice), x);
    CacheSize(a, x);
    CacheSize(GetDevice(a, x), x);
    if e.Update? {
      GetOk(a, x);
      var a1 := if e.create then GetDevice(a, x) else a;
      if x in a1.devices {
        UpdateSize(a1, x, e.t, e.pairing, e.paired, e.bonded);
      }
    }
  }

  lemma UpdateSize(a: Adapter, x: Address, t: Transport, pairing: bool, paired: bool, bonded: bool)
    requires NoDuplicates(a.cached) && x in a.devices
    ensures |UpdateDevice(a, x, t, pairing, paired, bonded).cached| <= Limit(a)
  {
    UpdateShape(a, x, t, pairing, paired, bonded);
    CacheSize(a.(bonded := Remove(a.bonded, x)), x);
    RemoveOnce(a.cached, x);
    hide UpdateDevice, CacheDevice, Remove, After;
  }

  lemma {:induction false} RunSize(a: Adapter, es: seq<Event>)
    requires Ok(a)
    ensures |Run(a, es).cached| <= Limit(a)
    decreases |es|
  {
    hide Ok, Step;
    if es != [] {
      StepOk(a, es[0]);
      StepSize(a, es[0]);
      RunSize(Step(a, es[0]), es[1..]);
    }
  }

  // ------------------------------------------------------------ the laws

  // What start-up loads: distinct addresses, the cached ones unpaired and sorted by age, the others paired.
  ghost predicate Loaded(a: Adapter) {
    && ListsOk(a) && CacheOk(a)
    && (forall x :: x in a.devices ==>
          var d := a.devices[x];
          !d.pairing && d.told == [] && (d.bredrBonded ==> d.bredrPaired) && (d.leBonded ==> d.lePaired)
          && d.origin == (if Paired(d) then BONDED else NONE))
  }

  // After every run, a known device is in exactly one of the lists, once: the bonded one if and only if it is
  // paired on some transport. Bonded implies paired on each transport. The cache is within its bound, or
  // within what was loaded, and holds the most recently touched devices first.
  lemma ListsLaw(a: Adapter, es: seq<Event>, x: Address)
    requires Loaded(a) && x in Run(a, es).devices
    ensures var b := Run(a, es);
            var d := b.devices[x];
            && (x in b.bonded <==> d.bredrPaired || d.lePaired) && (x in b.cached <==> !d.bredrPaired && !d.lePaired)
            && NoDuplicates(b.bonded) && NoDuplicates(b.cached)
            && (d.bredrBonded ==> d.bredrPaired) && (d.leBonded ==> d.lePaired)
            && (|b.cached| <= 300 || |b.cached| <= |a.cached|)
            && Recent(b.cached, b)
  {
    LoadedOk(a);
    RunOk(a, es);
    RunSize(a, es);
    hide Recent, Walk, NoDuplicates, Run;
  }

  lemma LoadedOk(a: Adapter)
    requires Loaded(a)
    ensures Ok(a)
  {
    hide ListsOk, CacheOk;
  }

  // An update takes the last transport on which a device is paired from it.
  predicate Unpairs(d: Device, t: Transport, pairing: bool, paired: bool) {
    PairedOn(d, t) && !PairedElsewhere(d, t) && !paired && !pairing && !d.pairing
  }

  // The event brings a device into the cache that is not there: one that is not known, or one that is paired
  // until then.
  predicate Enters(a: Adapter, e: Event) {
    match e
    case Get(x) => x !in a.devices
    case Found(x) => x !in a.devices
    case Update(x, create, t, pairing, paired, _) =>
      if x in a.devices then Unpairs(a.devices[x], t, pairing, paired) else create
  }

  lemma CacheGone(a: Adapter, x: Address, y: Address)
    ensures y in CacheDevice(a, x).devices <==> (y == x || y in a.devices) && y !in Evicted(a, x)
  {
    CacheShape(a, x);
    hide CacheDevice, Evicted;
  }

  lemma GetGone(a: Adapter, x: Address, y: Address)
    requires y in a.devices
    ensures y !in GetDevice(a, x).devices <==> x !in a.devices && y in Evicted(a, x)
  {
    CacheGone(Put(a, x, NewDevice), x, y);
    assert Evicted(Put(a, x, NewDevice), x) == Evicted(a, x);
    hide CacheDevice, Evicted;
  }

  // A known device that is unpaired is in the cache, so that nothing goes when it is cached again.
  lemma KnownStays(a: Adapter, x: Address)
    requires Ok(a) && x in a.devices
    ensures !Paired(a.devices[x]) ==> Evicted(a, x) == {}
    ensures x !in Evicted(a, x)
  {
    hide AllDevicesOk, CacheOk, NoDuplicates;
  }

  lemma FoundGone(a: Adapter, x: Address, y: Address)
    requires Ok(a) && y in a.devices
    ensures y !in FoundDevice(a, x).devices <==> x !in a.devices && y in Evicted(a, x)
  {
    hide Ok, GetDevice, CacheDevice, Evicted;
    GetOk(a, x);
    GetGone(a, x, y);
    var a1 := GetDevice(a, x);
    KnownStays(a1, x);
    CacheGone(a1, x, y);
    assert x !in a.devices ==> x != y;
  }

  lemma TransportGone(a: Adapter, x: Address, t: Transport, pairing: bool, paired: bool, bonded: bool, y: Address)
    requires Ok(a) && x in a.devices
    ensures y in UpdateTransport(a, x, t, pairing, paired, bonded).devices
            <==> y in a.devices && !(Unpairs(a.devices[x], t, pairing, paired) && y in Evicted(a, x))
  {
    hide Ok, UpdateTransport, CacheDevice, Evicted, Remove, Record, Moves;
    TransportShape(a, x, t, pairing, paired, bonded);
    KnownStays(a, x);
    var a1 := a.(bonded := Remove(a.bonded, x));
    CacheGone(a1, x, y);
    SameEvicted(a, a1, x);
    UnpairsMoves(a.devices[x], t, pairing, paired, bonded);
  }

  lemma SameEvicted(a: Adapter, b: Adapter, x: Address)
    requires b.cached == a.cached
    ensures Evicted(b, x) == Evicted(a, x)
  {
  }

  // For a paired device, the update that puts it into the cache is the one that unpairs it.
  lemma UnpairsMoves(d: Device, t: Transport, pairing: bool, paired: bool, bonded: bool)
    ensures Unpairs(d, t, pairing, paired)
            <==> Paired(d) && Moves(d, t, pairing, paired, bonded) && !paired && !PairedElsewhere(d, t)
  {
  }

  lemma UpdateGone(a: Adapter, x: Address, t: Transport, pairing: bool, paired: bool, bonded: bool, y: Address)
    requires Ok(a) && x in a.devices
    ensures y in UpdateDevice(a, x, t, pairing, paired, bonded).devices
            <==> y in a.devices && !(Unpairs(a.devices[x], t, pairing, paired) && y in Evicted(a, x))
  {
    TransportGone(a, x, t, pairing, paired, bonded, y);
    KnownStays(a, x);
    hide Ok, UpdateTransport, Evicted, Told;
  }

  lemma StepGone(a: Adapter, e: Event, y: Address)
    requires Ok(a) && y in a.devices
    ensures y !in Step(a, e).devices <==> Enters(a, e) && y in Evicted(a, e.x)
  {
    hide Ok, GetDevice, FoundDevice, UpdateDevice, Evicted;
    var x := e.x;
    GetGone(a, x, y);
    if e.Found? {
      FoundGone(a, x, y);
    } else if e.Update? {
      GetOk(a, x);
      var a1 := if e.create then GetDevice(a, x) else a;
      if x in a.devices {
        assert a1 == a by {
          GetKnown(a, x);
        }
      }
      if x in a1.devices {
        UpdateGone(a1, x, e.t, e.pairing, e.paired, e.bonded, y);
      }
    }
  }

  lemma GetKnown(a: Adapter, x: Address)
    requires x in a.devices
    ensures GetDevice(a, x) == a
  {
  }

  // In every state of every run from start-up: an event makes the adapter forget a device if and only if it brings
  // a device into the cache that is not there, the cache is full, and the forgotten one is its last. That one is
  // unpaired, is not the one the event is about, and has been touched less recently than all others in the cache.
  lemma EvictionLaw(l: Adapter, es: seq<Event>, e: Event, y: Address)
    requires Loaded(l) && y in Run(l, es).devices
    ensures var a := Run(l, es);
            y !in Step(a, e).devices
            <==> Enters(a, e) && |a.cached| >= 300 && y == a.cached[|a.cached| - 1]
    ensures var a := Run(l, es);
            y !in Step(a, e).devices ==>
              y != e.x && y in a.cached && !a.devices[y].bredrPaired && !a.devices[y].lePaired
              && forall z :: z in a.cached && z != y ==> At(a, z).touched > a.devices[y].touched
  {
    hide Ok, Step, Run, Loaded;
    LoadedOk(l);
    RunOk(l, es);
    var a := Run(l, es);
    StepGone(a, e, y);
    if Enters(a, e) {
      EnteringOut(a, e);
    }
    if y in Evicted(a, e.x) {
      EvictedLast(a, e.x, y);
    }
  }

  // A device that enters the cache is not there.
  lemma EnteringOut(a: Adapter, e: Event)
    requires Ok(a) && Enters(a, e)
    ensures e.x !in a.cached
  {
    hide AllDevicesOk, CacheOk, NoDuplicates;
  }

  lemma EvictedLast(a: Adapter, x: Address, y: Address)
    requires Ok(a) && y in Evicted(a, x)
    ensures y in a.cached && y in a.devices && !Paired(a.devices[y]) && y != x
    ensures forall z :: z in a.cached && z != y ==> At(a, z).touched > a.devices[y].touched
  {
    RecentFront(a.cached, a);
    LastOnce(a.cached);
    hide AllDevicesOk, Recent, NoDuplicates;
  }

  // The bond state of a device, as the HAL knows it: BONDING while it is pairing, BONDED if it is paired on some
  // transport, otherwise NONE.
  ghost predicate InState(d: Device, b: Bond) {
    && (b == BONDING <==> d.pairing)
    && (b == BONDED <==> !d.pairing && (d.bredrPaired || d.lePaired))
  }

  // After every run the HAL has been told a walk that never steps directly between NONE and BONDED, and
  // whose last state is the state of the device.
  lemma HalLaw(a: Adapter, es: seq<Event>, x: Address)
    requires Loaded(a) && x in Run(a, es).devices
    ensures var d := Run(a, es).devices[x];
            Walk(d.origin, d.told) && InState(d, LastTold(d))
  {
    LoadedOk(a);
    RunOk(a, es);
    hide ListsOk, CacheOk, Run, Walk;
    assert DeviceOk(Run(a, es).devices[x]);
  }

  // And it is told no more than it has to be: an update that leaves the state of its device tells nothing, one
  // between NONE and BONDED tells BONDING and the new state, and any other the new state alone.
  lemma HalStepLaw(a: Adapter, x: Address, t: Transport, pairing: bool, paired: bool, bonded: bool, was: Bond, now: Bond)
    requires Ok(a) && x in a.devices && InState(a.devices[x], was)
    requires x in UpdateDevice(a, x, t, pairing, paired, bonded).devices
    requires InState(UpdateDevice(a, x, t, pairing, paired, bonded).devices[x], now)
    ensures UpdateDevice(a, x, t, pairing, paired, bonded).devices[x].told
            == a.devices[x].told + (if was == now then []
                                    else if {was, now} == {NONE, BONDED} then [BONDING, now] else [now])
  {
    UpdateShape(a, x, t, pairing, paired, bonded);
    RecordKeepsTold(a, x, t, pairing, paired, bonded);
    hide Ok, UpdateDevice, Record, Relisted;
  }

  lemma RecordKeepsTold(a: Adapter, x: Address, t: Transport, pairing: bool, paired: bool, bonded: bool)
    requires x in a.devices
    ensures Record(a, x, t, pairing, paired, bonded).told == a.devices[x].told
  {
  }

  // An update clears the paired flag of a transport if and only if it is an update for that transport that
  // says neither pairing nor paired and arrives while the device is not pairing. So a failed re-pairing never
  // unpairs, and no update for one transport unpairs the other.
  lemma UnpairedIff(a: Adapter, x: Address, t: Transport, pairing: bool, paired: bool, bonded: bool, u: Transport)
    requires Ok(a) && x in a.devices && PairedOn(a.devices[x], u)
    ensures var b := UpdateDevice(a, x, t, pairing, paired, bonded);
            x in b.devices
            && (!PairedOn(b.devices[x], u) <==> t == u && !pairing && !paired && !a.devices[x].pairing)
  {
    UpdateShape(a, x, t, pairing, paired, bonded);
    hide UpdateDevice, CacheDevice, Remove, Told, ListsOk, AllDevicesOk, CacheOk;
  }

  // ------------------------------------------------------------ what an update does to the flags

  // An update is ignored by a transport that is paired, if it says that pairing begins, or that a pairing has failed.
  predicate Ignored(wasPaired: bool, wasPairing: bool, pairing: bool, paired: bool) {
    wasPaired && (pairing || (!paired && wasPairing))
  }

  // The flags of d after an update for transport t. The other transport keeps its flags; this one too if it ignores the
  // update. If not, it is paired as the update says, and bonded if and only if it is paired and the update says bonded
  // or it was.
  predicate FlagsAre(d: Device, e: Device, t: Transport, pairing: bool, paired: bool, bonded: bool) {
    && e.pairing == pairing
    && (t == BREDR ==> e.lePaired == d.lePaired && e.leBonded == d.leBonded)
    && (t == LE ==> e.bredrPaired == d.bredrPaired && e.bredrBonded == d.bredrBonded)
    && (t == BREDR ==>
          if Ignored(d.bredrPaired, d.pairing, pairing, paired) then
            e.bredrPaired == d.bredrPaired && e.bredrBonded == d.bredrBonded
          else e.bredrPaired == paired && (e.bredrBonded <==> paired && (bonded || d.bredrBonded)))
    && (t == LE ==>
          if Ignored(d.lePaired, d.pairing, pairing, paired) then
            e.lePaired == d.lePaired && e.leBonded == d.leBonded
          else e.lePaired == paired && (e.leBonded <==> paired && (bonded || d.leBonded)))
  }

  lemma FlagsAfter(d: Device, t: Transport, pairing: bool, paired: bool, bonded: bool, touched: nat, told: seq<Bond>)
    requires (d.bredrBonded ==> d.bredrPaired) && (d.leBonded ==> d.lePaired)
    ensures FlagsAre(d, After(d, t, pairing, paired, bonded).(touched := touched, told := told), t, pairing, paired, bonded)
  {
  }

  lemma FlagsLaw(a: Adapter, x: Address, t: Transport, pairing: bool, paired: bool, bonded: bool)
    requires Ok(a) && x in a.devices
    ensures x in UpdateDevice(a, x, t, pairing, paired, bonded).devices
    ensures FlagsAre(a.devices[x], UpdateDevice(a, x, t, pairing, paired, bonded).devices[x], t, pairing, paired, bonded)
  {
    UpdateShape(a, x, t, pairing, paired, bonded);
    DeviceAt(a, x);
    var e := Updated(a, x, t, pairing, paired, bonded).devices[x];
    FlagsAfter(a.devices[x], t, pairing, paired, bonded, e.touched, e.told);
    hide UpdateDevice, CacheDevice, Remove, Told, Ok, Walk, FlagsAre, After, Moves, Relisted, Paired, BondState;
  }

  // A device that is known and paired, or bonded, on transport u.
  predicate PairedIn(a: Adapter, x: Address, u: Transport) {
    x in a.devices && match u
                      case BREDR => a.devices[x].bredrPaired
                      case LE => a.devices[x].lePaired
  }

  predicate BondedIn(a: Adapter, x: Address, u: Transport) {
    x in a.devices && match u
                      case BREDR => a.devices[x].bredrBonded
                      case LE => a.devices[x].leBonded
  }

  // An update that says paired and bonded and that transport u does not ignore.
  predicate Bonds(a: Adapter, e: Event, x: Address, u: Transport) {
    e.Update? && e.x == x && e.t == u && e.paired && e.bonded && !(PairedIn(a, x, u) && e.pairing)
  }

  // Flags of devices that an operation does not forget are kept by all but updates.
  ghost predicate SameFlags(a: Adapter, b: Adapter, y: Address) {
    && (y in b.devices ==>
          var d := At(a, y);
          var e := b.devices[y];
          e.bredrPaired == d.bredrPaired && e.bredrBonded == d.bredrBonded && e.lePaired == d.lePaired
          && e.leBonded == d.leBonded && e.pairing == d.pairing && e.told == d.told)
    && (y !in b.devices ==> !PairedIn(a, y, BREDR) && !PairedIn(a, y, LE))
  }

  lemma CacheFlags(a: Adapter, x: Address, y: Address)
    requires forall z :: z in Evicted(a, x) ==> !PairedIn(a, z, BREDR) && !PairedIn(a, z, LE)
    ensures SameFlags(a, CacheDevice(a, x), y)
  {
    CacheShape(a, x);
    hide CacheDevice, Evicted, Rest;
  }

  // Whoever is last in the cache is unpaired.
  lemma EvictedUnpaired(a: Adapter, x: Address)
    requires Ok(a)
    ensures forall z :: z in Evicted(a, x) ==> !PairedIn(a, z, BREDR) && !PairedIn(a, z, LE)
  {
    forall z | z in Evicted(a, x) ensures !PairedIn(a, z, BREDR) && !PairedIn(a, z, LE) {
      EvictedLast(a, x, z);
    }
    hide Ok, Evicted;
  }

  lemma GetFlags(a: Adapter, x: Address, y: Address)
    requires Ok(a)
    ensures SameFlags(a, GetDevice(a, x), y)
  {
    if x !in a.devices {
      var b := Put(a, x, NewDevice);
      EvictedUnpaired(a, x);
      SameEvicted(a, b, x);
      hide Ok, Evicted, CacheDevice;
      CacheFlags(b, x, y);
    }
  }

  lemma FlagsTwice(a: Adapter, m: Adapter, b: Adapter, y: Address)
    requires SameFlags(a, m, y) && SameFlags(m, b, y) && (y in b.devices ==> y in m.devices)
    ensures SameFlags(a, b, y)
  {
  }

  lemma FoundFlags(a: Adapter, x: Address, y: Address)
    requires Ok(a)
    ensures SameFlags(a, FoundDevice(a, x), y)
  {
    hide Ok, Evicted, CacheDevice, GetDevice, SameFlags;
    GetFlags(a, x, y);
    GetOk(a, x);
    var m := GetDevice(a, x);
    EvictedUnpaired(m, x);
    CacheFlags(m, x, y);
    CacheGone(m, x, y);
    FlagsTwice(a, m, CacheDevice(m, x), y);
  }

  lemma RelistedOther(a: Adapter, x: Address, t: Transport, pairing: bool, paired: bool, bonded: bool, y: Address)
    requires Ok(a)
    ensures SameFlags(a, Relisted(a, x, t, pairing, paired, bonded), y)
  {
    var b := a.(bonded := Remove(a.bonded, x));
    UnbondedFlags(a, x, y);
    SameUnlisted(a, [x] + a.bonded, Remove(a.cached, x), y);
    hide Ok, SameFlags, CacheDevice, Remove, Moves, Paired;
    SameUnlisted(a, a.bonded, a.cached, y);
  }

  lemma SameUnlisted(a: Adapter, bonded: seq<Address>, cached: seq<Address>, y: Address)
    ensures SameFlags(a, a.(bonded := bonded, cached := cached), y)
  {
  }

  lemma UnbondedFlags(a: Adapter, x: Address, y: Address)
    requires Ok(a)
    ensures SameFlags(a, CacheDevice(a.(bonded := Remove(a.bonded, x)), x), y)
  {
    var b := a.(bonded := Remove(a.bonded, x));
    EvictedUnpaired(a, x);
    SameEvicted(a, b, x);
    hide Ok, Evicted, CacheDevice, Remove;
    CacheFlags(b, x, y);
  }

  // Other devices keep their flags, unless they are forgotten.
  lemma UpdateOther(a: Adapter, x: Address, t: Transport, pairing: bool, paired: bool, bonded: bool, y: Address)
    requires Ok(a) && x in a.devices && y != x
    ensures SameFlags(a, UpdateDevice(a, x, t, pairing, paired, bonded), y)
  {
    hide Ok, Relisted, UpdateDevice, Record, Reported;
    UpdateShape(a, x, t, pairing, paired, bonded);
    RelistedOther(a, x, t, pairing, paired, bonded, y);
  }

  // After an event a device is bonded on a transport if and only if it is paired there, and was bonded already or
  // has just been bonded.
  lemma BondedStep(a: Adapter, e: Event, x: Address, u: Transport)
    requires Ok(a)
    ensures BondedIn(Step(a, e), x, u) <==> PairedIn(Step(a, e), x, u) && (BondedIn(a, x, u) || Bonds(a, e, x, u))
  {
    hide Ok, GetDevice, FoundDevice, UpdateDevice;
    BondedPaired(a, x, u);
    GetFlags(a, e.x, x);
    if e.Found? {
      FoundFlags(a, e.x, x);
    } else if e.Update? {
      GetOk(a, e.x);
      var a1 := if e.create then GetDevice(a, e.x) else a;
      BondedPaired(a1, x, u);
      if e.x in a1.devices {
        if e.x == x {
          FlagsLaw(a1, x, e.t, e.pairing, e.paired, e.bonded);
        } else {
          UpdateOther(a1, e.x, e.t, e.pairing, e.paired, e.bonded, x);
        }
      }
    }
  }

  lemma BondedPaired(a: Adapter, x: Address, u: Transport)
    requires Ok(a)
    ensures BondedIn(a, x, u) ==> PairedIn(a, x, u)
  {
    if x in a.devices {
      DeviceAt(a, x);
    }
    hide Ok;
  }

  lemma {:induction false} RunLast(a: Adapter, es: seq<Event>)
    requires es != []
    ensures Run(a, es) == Step(Run(a, es[..|es| - 1]), es[|es| - 1])
    decreases |es|
  {
    hide Step;
    if |es| == 1 {
      assert es[..0] == [] && es[1..] == [];
    } else {
      RunLast(Step(a, es[0]), es[1..]);
      assert es[1..][..|es| - 2] == es[..|es| - 1][1..];
    }
  }

  // Since the first i events, transport u of x has been paired throughout.
  ghost predicate PairedSince(l: Adapter, es: seq<Event>, i: nat, x: Address, u: Transport) {
    forall j :: i <= j <= |es| ==> PairedIn(Run(l, es[..j]), x, u)
  }

  // After every run a transport is bonded if and only if it has been paired ever since some update bonded it, or
  // ever since start-up, when it was bonded.
  lemma {:induction false} BondedOverRuns(l: Adapter, es: seq<Event>, x: Address, u: Transport)
    requires Loaded(l)
    ensures BondedIn(Run(l, es), x, u)
            <==> (BondedIn(l, x, u) && PairedSince(l, es, 0, x, u))
                 || exists k :: 0 <= k < |es| && Bonds(Run(l, es[..k]), es[k], x, u) && PairedSince(l, es, k + 1, x, u)
    decreases |es|
  {
    hide Run, Loaded, Step, Ok, Bonds, BondedIn, PairedIn;
    if es == [] {
      LoadedOk(l);
      BondedPaired(l, x, u);
      RunNone(l);
      assert es[..0] == es;
    } else {
      var n := |es| - 1;
      var before := es[..n];
      BondedOverRuns(l, before, x, u);
      LoadedOk(l);
      RunOk(l, before);
      RunLast(l, es);
      BondedStep(Run(l, before), es[n], x, u);
      SinceLast(l, es, x, u);
      assert PairedSince(l, es, n + 1, x, u) <==> PairedIn(Run(l, es), x, u) by {
        assert es[..n + 1] == es;
      }
      assert es[..n] == before;
    }
  }

  lemma RunNone(l: Adapter)
    ensures Run(l, []) == l
  {
  }

  lemma SinceLast(l: Adapter, es: seq<Event>, x: Address, u: Transport)
    requires es != []
    ensures var before := es[..|es| - 1];
            && (forall k :: 0 <= k < |before| ==> before[k] == es[k] && before[..k] == es[..k])
            && (forall i :: 0 <= i <= |before| ==>
                  (PairedSince(l, es, i, x, u)
                   <==> PairedSince(l, before, i, x, u) && PairedIn(Run(l, es), x, u)))
  {
    hide Run, PairedIn;
    var before := es[..|es| - 1];
    assert es[..|es|] == es;
    assert forall j :: 0 <= j <= |before| ==> before[..j] == es[..j];
  }

  // ------------------------------------------------------------ what an event does to the lists

  // An update that gets through: not the same again, and not ignored.
  predicate Passes(d: Device, t: Transport, pairing: bool, paired: bool, bonded: bool) {
    match t
    case BREDR =>
      !(pairing == d.pairing && paired == d.bredrPaired && bonded == d.bredrBonded)
      && !Ignored(d.bredrPaired, d.pairing, pairing, paired)
    case LE =>
      !(pairing == d.pairing && paired == d.lePaired && bonded == d.leBonded)
      && !Ignored(d.lePaired, d.pairing, pairing, paired)
  }

  // The cache xs becomes ys: x moves to the front, or enters there, and then the last device leaves a full cache.
  ghost predicate Fronted(xs: seq<Address>, x: Address, ys: seq<Address>) {
    ys != [] && ys[0] == x
    && if x in xs || |xs| < 300 then LessOne(xs, x, ys[1..]) else ys[1..] == xs[..|xs| - 1]
  }

  lemma CacheFronts(a: Adapter, x: Address)
    ensures var b := CacheDevice(a, x);
            b.bonded == a.bonded && Fronted(a.cached, x, b.cached)
  {
    RemoveLessOne(a.cached, x);
    CacheShape(a, x);
    hide CacheDevice, Remove, LessOne;
    assert CacheDevice(a, x).cached[1..] == Rest(a, x);
  }

  // In every state of every run: a device that is asked for and not known, or found and not paired, is first in the
  // cache afterwards, and unpaired; otherwise nothing changes at all.
  lemma SeenLaw(l: Adapter, es: seq<Event>, x: Address)
    requires Loaded(l)
    ensures var a := Run(l, es);
            var b := Step(a, Get(x));
            if x in a.devices then b == a
            else b.bonded == a.bonded && Fronted(a.cached, x, b.cached) && !PairedIn(b, x, BREDR) && !PairedIn(b, x, LE)
    ensures var a := Run(l, es);
            var b := Step(a, Found(x));
            if PairedIn(a, x, BREDR) || PairedIn(a, x, LE) then b == a
            else b.bonded == a.bonded && Fronted(a.cached, x, b.cached) && !PairedIn(b, x, BREDR) && !PairedIn(b, x, LE)
  {
    hide Run, Loaded, Ok, CacheDevice, Fronted;
    LoadedOk(l);
    RunOk(l, es);
    var a := Run(l, es);
    GetFlags(a, x, x);
    FoundFlags(a, x, x);
    var a0 := Put(a, x, NewDevice);
    CacheFronts(a0, x);
    CacheFronts(a, x);
    if x !in a.devices {
      FrontTwice(a.cached, CacheDevice(a0, x), x);
    }
  }

  // A device that is first already stays there.
  lemma FrontTwice(xs: seq<Address>, b: Adapter, x: Address)
    requires Fronted(xs, x, b.cached)
    ensures CacheDevice(b, x).cached == b.cached && CacheDevice(b, x).bonded == b.bonded
  {
    assert b.cached == [x] + b.cached[1..];
    assert Remove(b.cached, x) == b.cached[1..];
  }

  // An update for a device that is not known changes nothing, unless its handler asks for the device first.
  lemma UnknownLaw(l: Adapter, es: seq<Event>, x: Address, t: Transport, pairing: bool, paired: bool, bonded: bool)
    requires Loaded(l) && x !in Run(l, es).devices
    ensures var a := Run(l, es);
            && Step(a, Update(x, false, t, pairing, paired, bonded)) == a
            && Step(a, Update(x, true, t, pairing, paired, bonded))
               == UpdateDevice(Step(a, Get(x)), x, t, pairing, paired, bonded)
  {
    hide Run, Loaded, Ok, CacheDevice, UpdateDevice;
    LoadedOk(l);
    RunOk(l, es);
    GetOk(Run(l, es), x);
  }

  // In every state of every run: an update that first pairs a device moves it to the front of the bonded list; one
  // that leaves it unpaired, to the front of the cache; and all others leave the lists alone.
  lemma MovesLaw(l: Adapter, es: seq<Event>, x: Address, t: Transport, pairing: bool, paired: bool, bonded: bool)
    requires Loaded(l) && x in Run(l, es).devices
    ensures Step(Run(l, es), Update(x, false, t, pairing, paired, bonded))
            == UpdateDevice(Run(l, es), x, t, pairing, paired, bonded)
    ensures var a := Run(l, es);
            var d := a.devices[x];
            var b := Step(a, Update(x, false, t, pairing, paired, bonded));
            if Passes(d, t, pairing, paired, bonded) && paired && !d.bredrPaired && !d.lePaired then
              b.bonded == [x] + a.bonded && LessOne(a.cached, x, b.cached)
            else if Passes(d, t, pairing, paired, bonded) && !paired && !(if t == BREDR then d.lePaired else d.bredrPaired)
            then LessOne(a.bonded, x, b.bonded) && Fronted(a.cached, x, b.cached)
            else b.bonded == a.bonded && b.cached == a.cached
  {
    hide Run, Loaded, Ok, CacheDevice, Fronted, UpdateDevice, Remove, Record, LessOne;
    LoadedOk(l);
    RunOk(l, es);
    var a := Run(l, es);
    UpdateShape(a, x, t, pairing, paired, bonded);
    RemoveLessOne(a.cached, x);
    RemoveLessOne(a.bonded, x);
    CacheFronts(a.(bonded := Remove(a.bonded, x)), x);
  }

  // ------------------------------------------------------------ the lists as the program keeps them

  class Devices {
    var bondedDevices: seq<Address>
    var cachedDevices: seq<Address>
    var devices: map<Address, Device>
    var clock: nat

    function State(): Adapter
      reads this
    {
      Adapter(bondedDevices, cachedDevices, devices, clock)
    }

    constructor (a: Adapter)
      requires Loaded(a)
      ensures State() == a && Ok(State())
    {
      bondedDevices, cachedDevices, devices, clock := a.bonded, a.cached, a.devices, a.clock;
      new;
      LoadedOk(a);
    }

    method Cache(x: Address)
      requires x in devices
      modifies this`cachedDevices, this`devices, this`clock
      ensures State() == CacheDevice(old(State()), x)
    {
      var touched := devices[x].(touched := clock);
      if x in cachedDevices {
        cachedDevices := Remove(cachedDevices, x);
        devices := devices[x := touched];
      } else if |cachedDevices| < DEVICES_CACHE_MAX {
        devices := devices[x := touched];
      } else {
        var last := cachedDevices[|cachedDevices| - 1];
        cachedDevices := cachedDevices[..|cachedDevices| - 1];
        devices := devices[x := touched] - {last};
      }
      cachedDevices := [x] + cachedDevices;
      clock := clock + 1;
    }

    // get_device
    method Get(x: Address)
      requires Ok(State())
      modifies this
      ensures State() == GetDevice(old(State()), x) && Ok(State()) && x in devices
    {
      GetOk(State(), x);
      hide Ok, CacheDevice;
      if x !in devices {
        devices := devices[x := NewDevice];
        Cache(x);
      }
    }

    // update_bredr_state
    method UpdateBredrState(x: Address, pairing: bool, paired: bool, bonded: bool)
      requires x in devices
      modifies this
      ensures State() == UpdateTransport(old(State()), x, BREDR, pairing, paired, bonded)
    {
      hide CacheDevice, Remove;
      var d := devices[x];
      CacheKeeps(State().(bonded := Remove(bondedDevices, x)), x);
      if pairing == d.pairing && paired == d.bredrPaired && bonded == d.bredrBonded {
        return;
      }
      if (pairing && d.bredrPaired) || (!pairing && !paired && d.pairing && d.bredrPaired) {
        devices := devices[x := d.(pairing := pairing)];
        return;
      }
      if paired && !d.lePaired && !d.bredrPaired {
        cachedDevices := Remove(cachedDevices, x);
        bondedDevices := [x] + bondedDevices;
      } else if !paired && !d.lePaired {
        bondedDevices := Remove(bondedDevices, x);
        Cache(x);
      }
      d := devices[x];
      devices := devices[x := d.(bredrPaired := paired,
                                 bredrBonded := if paired then d.bredrBonded || bonded else false,
                                 pairing := pairing)];
    }

    // update_le_state
    method UpdateLeState(x: Address, pairing: bool, paired: bool, bonded: bool)
      requires x in devices
      modifies this
      ensures State() == UpdateTransport(old(State()), x, LE, pairing, paired, bonded)
    {
      hide CacheDevice, Remove;
      var d := devices[x];
      CacheKeeps(State().(bonded := Remove(bondedDevices, x)), x);
      if pairing == d.pairing && paired == d.lePaired && bonded == d.leBonded {
        return;
      }
      if (pairing && d.lePaired) || (!pairing && !paired && d.pairing && d.lePaired) {
        devices := devices[x := d.(pairing := pairing)];
        return;
      }
      if paired && !d.bredrPaired && !d.lePaired {
        cachedDevices := Remove(cachedDevices, x);
        bondedDevices := [x] + bondedDevices;
      } else if !paired && !d.bredrPaired {
        bondedDevices := Remove(bondedDevices, x);
        Cache(x);
      }
      d := devices[x];
      devices := devices[x := d.(lePaired := paired, leBonded := if paired then d.leBonded || bonded else false,
                                 pairing := pairing)];
    }

    // update_device_state
    method UpdateDeviceState(x: Address, t: Transport, pairing: bool, paired: bool, bonded: bool)
      requires Ok(State()) && x in devices
      modifies this
      ensures State() == UpdateDevice(old(State()), x, t, pairing, paired, bonded) && Ok(State())
    {
      UpdateOk(State(), x, t, pairing, paired, bonded);
      TransportShape(State(), x, t, pairing, paired, bonded);
      hide Ok, UpdateTransport, Relisted, Record;
      var before := BondState(devices[x]);
      if t == BREDR {
        UpdateBredrState(x, pairing, paired, bonded);
      } else {
        UpdateLeState(x, pairing, paired, bonded);
      }
      var d := devices[x];
      devices := devices[x := d.(told := d.told + Told(before, BondState(d)))];
    }
  }
}
