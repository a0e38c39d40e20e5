/** Which wakeup device is active: registration, the audio route, and refreshes that run on
    detached threads. */
module DeviceSelection {
  import opened Basics

  const PHONE := 0
  const DEVICE_MAX := 4
  const DEFAULT_MAC_ADDRESS := "default_mac_address_phone"
  const DEFAULT_SERVICE_NAME := "default_service_name_phone"

  /** The built-in device, registered before any other. */
  const FALLBACK := Device(DEFAULT_MAC_ADDRESS, PHONE, DEFAULT_SERVICE_NAME, 0)

  /** A registered device. `stamp` numbers the registrations, so two registrations of one
      address are two devices. */
  datatype Device = Device(mac: string, kind: int, service: string, stamp: nat)

  /** The latest registration of each registered address. */
  type Registry = map<string, Device>

  /** In registration order, one device per address. */
  predicate Ordered(ds: seq<Device>, nextStamp: nat) {
    && (forall i :: 0 <= i < |ds| ==> ds[i].stamp < nextStamp)
    && (forall i, j :: 0 <= i < j < |ds| ==> ds[i].stamp < ds[j].stamp && ds[i].mac != ds[j].mac)
  }

  /** The list holds exactly the latest registrations. */
  ghost predicate Lists(ds: seq<Device>, reg: Registry) {
    && (forall i :: 0 <= i < |ds| ==> ds[i].mac in reg && reg[ds[i].mac] == ds[i])
    && (forall mac :: mac in reg ==> reg[mac] in ds && reg[mac].mac == mac)
  }

  /** The device that should be active: the one on the audio route, else the last one
      registered, else the default. */
  ghost predicate Wanted(reg: Registry, audioMac: string, fallback: Device, d: Device) {
    if audioMac in reg then d == reg[audioMac]
    else if reg != map[] then d.mac in reg && reg[d.mac] == d && forall mac :: mac in reg ==> reg[mac].stamp <= d.stamp
    else d == fallback
  }

  /** There is only one such device. */
  lemma WantedIsUnique(ds: seq<Device>, nextStamp: nat, reg: Registry, audioMac: string, d: Device, e: Device)
    requires Ordered(ds, nextStamp) && Lists(ds, reg)
    requires Wanted(reg, audioMac, FALLBACK, d) && Wanted(reg, audioMac, FALLBACK, e)
    ensures d == e
  {
  }

  function Keep(ds: seq<Device>, keeps: Device -> bool): seq<Device> {
    if ds == [] then []
    else if keeps(ds[0]) then [ds[0]] + Keep(ds[1..], keeps)
    else Keep(ds[1..], keeps)
  }

  lemma {:induction false} KeepMembers(ds: seq<Device>, keeps: Device -> bool, d: Device)
    ensures d in Keep(ds, keeps) <==> d in ds && keeps(d)
  {
    if ds != [] {
      KeepMembers(ds[1..], keeps, d);
      assert d in ds <==> d == ds[0] || d in ds[1..];
    }
  }

  lemma {:induction false} KeepOrdered(ds: seq<Device>, keeps: Device -> bool, nextStamp: nat)
    requires Ordered(ds, nextStamp)
    ensures Ordered(Keep(ds, keeps), nextStamp)
  {
    hide Ordered;
    if ds != [] {
      OrderedTail(ds, nextStamp);
      KeepOrdered(ds[1..], keeps, nextStamp);
      forall d | d in Keep(ds[1..], keeps)
        ensures d in ds[1..]
      {
        KeepMembers(ds[1..], keeps, d);
      }
      OrderedCons(ds[0], Keep(ds[1..], keeps), nextStamp);
    }
  }

  lemma OrderedTail(ds: seq<Device>, nextStamp: nat)
    requires Ordered(ds, nextStamp) && ds != []
    ensures Ordered(ds[1..], nextStamp) && ds[0].stamp < nextStamp
    ensures forall d :: d in ds[1..] ==> ds[0].stamp < d.stamp && ds[0].mac != d.mac
  {
  }

  lemma OrderedCons(d: Device, ds: seq<Device>, nextStamp: nat)
    requires Ordered(ds, nextStamp) && d.stamp < nextStamp
    requires forall e :: e in ds ==> d.stamp < e.stamp && d.mac != e.mac
    ensures Ordered([d] + ds, nextStamp)
  {
  }

  ghost function Restrict(reg: Registry, keeps: Device -> bool): Registry {
    map mac | mac in reg && keeps(reg[mac]) :: reg[mac]
  }

  lemma KeepLists(ds: seq<Device>, reg: Registry, keeps: Device -> bool)
    requires Lists(ds, reg)
    ensures Lists(Keep(ds, keeps), Restrict(reg, keeps))
  {
    var kept, left := Keep(ds, keeps), Restrict(reg, keeps);
    forall i | 0 <= i < |kept|
      ensures kept[i].mac in left && left[kept[i].mac] == kept[i]
    {
      KeepMembers(ds, keeps, kept[i]);
    }
    forall mac | mac in left
      ensures left[mac] in kept
    {
      KeepMembers(ds, keeps, left[mac]);
    }
  }

  function NotMac(mac: string): Device -> bool {
    (d: Device) => d.mac != mac
  }

  lemma RemoveMacKeeps(ds: seq<Device>, reg: Registry, nextStamp: nat, mac: string)
    requires Ordered(ds, nextStamp) && Lists(ds, reg)
    ensures Ordered(Keep(ds, NotMac(mac)), nextStamp) && Lists(Keep(ds, NotMac(mac)), reg - {mac})
  {
    KeepOrdered(ds, NotMac(mac), nextStamp);
    KeepLists(ds, reg, NotMac(mac));
    assert Restrict(reg, NotMac(mac)) == reg - {mac};
  }

  /** Dropping the old registration of an address and appending the new one. */
  lemma RegisterKeeps(ds: seq<Device>, reg: Registry, nextStamp: nat, d: Device)
    requires Ordered(ds, nextStamp) && Lists(ds, reg) && d.stamp == nextStamp
    ensures Ordered(Keep(ds, NotMac(d.mac)) + [d], nextStamp + 1)
    ensures Lists(Keep(ds, NotMac(d.mac)) + [d], reg[d.mac := d])
  {
    hide Keep;
    RemoveMacKeeps(ds, reg, nextStamp, d.mac);
    AppendKeeps(Keep(ds, NotMac(d.mac)), reg - {d.mac}, nextStamp, d);
    assert (reg - {d.mac})[d.mac := d] == reg[d.mac := d];
  }

  lemma AppendKeeps(ds: seq<Device>, reg: Registry, nextStamp: nat, d: Device)
    requires Ordered(ds, nextStamp) && Lists(ds, reg) && d.mac !in reg && d.stamp == nextStamp
    ensures Ordered(ds + [d], nextStamp + 1) && Lists(ds + [d], reg[d.mac := d])
  {
  }

  class EngineDeviceManager {
    var devices: seq<Device>
    var audioMac: string
    var active: Device
    var nextStamp: nat
    var pending: nat
    ghost var registry: Registry

    ghost predicate Inv()
      reads this
    {
      && Ordered(devices, nextStamp)
      && Lists(devices, registry)
      && (pending == 0 ==> Wanted(registry, audioMac, FALLBACK, active))
    }

    constructor ()
      ensures Inv() && pending == 0
      ensures registry == map[DEFAULT_MAC_ADDRESS := FALLBACK] && audioMac == DEFAULT_MAC_ADDRESS
      ensures active == FALLBACK
    {
      devices, audioMac, active, nextStamp, pending := [FALLBACK], DEFAULT_MAC_ADDRESS, FALLBACK, 1, 0;
      registry := map[DEFAULT_MAC_ADDRESS := FALLBACK];
    }

    /** The erase loops: walk the list, erasing in place. */
    method EraseUnless(keeps: Device -> bool)
      modifies `devices
      ensures devices == Keep(old(devices), keeps)
    {
      var i := 0;
      assert Keep(devices[i..], keeps) == Keep(devices, keeps) by { assert devices[0..] == devices; }
      while i < |devices|
        invariant 0 <= i <= |devices|
        invariant devices[..i] + Keep(devices[i..], keeps) == Keep(old(devices), keeps)
        decreases |devices| - i
      {
        ghost var before := devices;
        if keeps(devices[i]) {
          assert devices[..i + 1] == devices[..i] + [devices[i]];
          assert devices[i..][1..] == devices[i + 1..];
          i := i + 1;
        } else {
          assert devices[i..][1..] == devices[i + 1..];
          devices := devices[..i] + devices[i + 1..];
          assert devices[..i] == before[..i] && devices[i..] == before[i + 1..];
        }
      }
      assert devices[..i] == devices;
    }

    method RegisterDevice(mac: string, kind: int, service: string) returns (ret: int)
      requires Inv()
      modifies `devices, `nextStamp, `pending, `registry
      ensures Inv()
      ensures mac == "" || kind < PHONE || kind >= DEVICE_MAX ==>
                ret == -1 && devices == old(devices) && registry == old(registry) && pending == old(pending)
      ensures mac != "" && PHONE <= kind < DEVICE_MAX ==>
                ret == 0 && registry == old(registry)[mac := Device(mac, kind, service, old(nextStamp))]
                && pending == old(pending) + 1
    {
      hide Ordered, Lists, Wanted, Keep;
      if mac == "" || kind < PHONE || kind >= DEVICE_MAX {
        return -1;
      }
      var d := Device(mac, kind, service, nextStamp);
      RegisterKeeps(devices, registry, nextStamp, d);
      EraseUnless(NotMac(mac));
      devices := devices + [d];
      nextStamp := nextStamp + 1;
      registry := registry[mac := d];
      RefreshActiveDevice();
      return 0;
    }

    /** The name of the service that had the address, or the caller's own value. */
    method DeregisterDevice(mac: string, serviceName: string) returns (ret: int, service: string)
      requires Inv()
      modifies `devices, `pending, `registry
      ensures Inv()
      ensures mac == "" ==> ret == -1 && devices == old(devices) && registry == old(registry) && pending == old(pending)
      ensures mac != "" ==> ret == 0 && registry == old(registry) - {mac} && pending == old(pending) + 1
      ensures service == if mac != "" && mac in old(registry) then old(registry)[mac].service else serviceName
    {
      hide Ordered, Lists, Wanted, Keep;
      service := serviceName;
      if mac == "" {
        return -1, service;
      }
      service := ServiceOf(mac, serviceName);
      RemoveMacKeeps(devices, registry, nextStamp, mac);
      EraseUnless(NotMac(mac));
      registry := registry - {mac};
      RefreshActiveDevice();
      return 0, service;
    }

    method ServiceOf(mac: string, otherwise: string) returns (service: string)
      requires Inv()
      ensures service == if mac in registry then registry[mac].service else otherwise
    {
      service := otherwise;
      for i := 0 to |devices|
        invariant (exists k :: 0 <= k < i && devices[k].mac == mac) ==>
                    mac in registry && service == registry[mac].service
        invariant (forall k :: 0 <= k < i ==> devices[k].mac != mac) ==> service == otherwise
      {
        if devices[i].mac == mac {
          service := devices[i].service;
        }
      }
    }

    method RemoveByServiceName(service: string) returns (ret: int)
      requires Inv()
      modifies `devices, `pending, `registry
      ensures Inv() && ret == 0 && pending == old(pending) + 1
      ensures registry == map mac | mac in old(registry) && old(registry)[mac].service != service :: old(registry)[mac]
    {
      hide Ordered, Lists, Wanted;
      var keeps := (d: Device) => d.service != service;
      KeepOrdered(devices, keeps, nextStamp);
      KeepLists(devices, registry, keeps);
      EraseUnless(keeps);
      registry := Restrict(registry, keeps);
      RefreshActiveDevice();
      return 0;
    }

    /** No descriptor, or the built-in speaker, means the default address. */
    method UpdateAudioDevice(route: Option<(bool, string)>)
      requires Inv()
      modifies `audioMac, `pending
      ensures Inv() && pending == old(pending) + 1
      ensures audioMac == if route.None? || route.value.0 then DEFAULT_MAC_ADDRESS else route.value.1
    {
      if route.None? || route.value.0 {
        audioMac := DEFAULT_MAC_ADDRESS;
      } else {
        audioMac := route.value.1;
      }
      RefreshActiveDevice();
    }

    /** Detaches a thread that will refresh later. */
    method RefreshActiveDevice()
      modifies `pending
      ensures pending == old(pending) + 1
    {
      pending := pending + 1;
    }

    /** What a detached thread does when its turn comes. The callbacks run iff the device
        object changed. */
    method NotifyCallbacksIfChanged() returns (notify: bool)
      requires Inv() && pending > 0
      modifies `active, `pending
      ensures Inv() && pending == old(pending) - 1
      ensures Wanted(registry, audioMac, FALLBACK, active)
      ensures notify <==> active != old(active)
    {
      var lastDevice := active;
      RefreshWakeupDevice();
      pending := pending - 1;
      return lastDevice != active;
    }

    method RefreshWakeupDevice()
      requires Ordered(devices, nextStamp) && Lists(devices, registry)
      modifies `active
      ensures Wanted(registry, audioMac, FALLBACK, active)
    {
      active := FALLBACK;
      for i := 0 to |devices|
        invariant active == FALLBACK
        invariant forall k :: 0 <= k < i ==> devices[k].mac != audioMac
      {
        if devices[i].mac == audioMac {
          active := devices[i];
          return;
        }
      }
      if devices != [] {
        active := devices[|devices| - 1];
        forall mac | mac in registry
          ensures registry[mac].stamp <= active.stamp
        {
          var k :| 0 <= k < |devices| && devices[k] == registry[mac];
        }
      } else {
        assert registry == map[] by {
          assert forall mac :: mac !in registry;
        }
      }
    }
  }

  datatype Operation =
    | Register(mac: string, kind: int, service: string)
    | Deregister(mac: string)
    | RemoveService(service: string)
    | RouteChange(route: Option<(bool, string)>)
    | Refresh

  /** Every interleaving of requests and detached refreshes: once no refresh is outstanding,
      the active device is the wanted one. */
  method Run(ops: seq<Operation>) returns (m: EngineDeviceManager)
    ensures fresh(m) && m.Inv()
    ensures forall i, j :: 0 <= i < j < |m.devices| ==>
              m.devices[i].mac != m.devices[j].mac && m.devices[i].stamp < m.devices[j].stamp
    ensures m.pending == 0 ==> Wanted(m.registry, m.audioMac, FALLBACK, m.active)
  {
    m := new EngineDeviceManager();
    for k := 0 to |ops|
      invariant fresh(m) && m.Inv()
    {
      Perform(m, ops[k]);
    }
  }

  method Perform(m: EngineDeviceManager, op: Operation)
    requires m.Inv()
    modifies m
    ensures m.Inv()
  {
    hide Ordered, Lists, Wanted;
    match op
    case Register(mac, kind, service) => var _ := m.RegisterDevice(mac, kind, service);
    case Deregister(mac) => var _, _ := m.DeregisterDevice(mac, "");
    case RemoveService(service) => var _ := m.RemoveByServiceName(service);
    case RouteChange(route) => m.UpdateAudioDevice(route);
    case Refresh =>
      if m.pending > 0 {
        var _ := m.NotifyCallbacksIfChanged();
      }
  }
}
