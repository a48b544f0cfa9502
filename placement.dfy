/**
 * The module mapping the scenario hands to the placement algorithm: which application
 * module is fixed on which device. The scenario chooses devices by the first letter of
 * their names; with the names the builder generates, that rule selects only the proxy for
 * `patient_data` and no device at all for `check_for_emergency`.
 */
module Placement {
  import opened Names
  import opened Topology
  import opened TopologyFacts
  import opened Workflow

  /** Module `moduleName` is fixed on the device named `device`. */
  datatype Pin = Pin(moduleName: string, device: string)

  /** The mapping object; adding a pair that is already present changes nothing. */
  class ModuleMapping {
    var pins: set<Pin>

    constructor ()
      ensures pins == {}
    {
      pins := {};
    }

    method AddModuleToDevice(moduleName: string, deviceName: string)
      modifies this
      ensures pins == old(pins) + {Pin(moduleName, deviceName)}
    {
      pins := pins + {Pin(moduleName, deviceName)};
    }
  }

  /** Prefixes of the scenario's two pinning rules, as written. */
  const PatientPrefix := "p"
  const HospitalPrefix := "h"

  /** Name of the cloud device, which the cloud deployment pins both modules to. */
  const CloudName := "cloud"

  /** The pins of `moduleName` on every device of `devices` whose name starts with `prefix`. */
  function PrefixPins(devices: seq<Device>, prefix: string, moduleName: string): (pins: set<Pin>)
    decreases |devices|
  {
    if devices == [] then {}
    else
      var last := devices[|devices| - 1];
      PrefixPins(devices[..|devices| - 1], prefix, moduleName)
      + (if StartsWith(last.name, prefix) then {Pin(moduleName, last.name)} else {})
  }

  /** A prefix rule pins its module on a device exactly when the device is listed and its name has the prefix. */
  lemma {:induction false} PrefixPinsMembership(devices: seq<Device>, prefix: string, moduleName: string, pin: Pin)
    ensures pin in PrefixPins(devices, prefix, moduleName)
            <==> pin.moduleName == moduleName && StartsWith(pin.device, prefix) && NamedIn(devices, pin.device)
    decreases |devices|
  {
    if devices != [] {
      var init := devices[..|devices| - 1];
      PrefixPinsMembership(init, prefix, moduleName, pin);
      if NamedIn(devices, pin.device) && !NamedIn(init, pin.device) {
        var k :| 0 <= k < |devices| && devices[k].name == pin.device;
        assert k == |devices| - 1;
      }
      if NamedIn(init, pin.device) {
        var k :| 0 <= k < |init| && init[k].name == pin.device;
        assert devices[k].name == pin.device;
      }
    }
  }

  /** The cloud deployment's additions. */
  function CloudPins(cloud: bool): (pins: set<Pin>) {
    if cloud then {Pin(PatientData, CloudName), Pin(CheckForEmergency, CloudName)} else {}
  }

  /** The mapping the scenario builds over `devices`, with the prefix rules as written. */
  function ModuleMappingOf(devices: seq<Device>, cloud: bool): (pins: set<Pin>) {
    PrefixPins(devices, PatientPrefix, PatientData)
    + PrefixPins(devices, HospitalPrefix, CheckForEmergency)
    + CloudPins(cloud)
  }

  /**
   * Adds a pin of `moduleName` for every device whose name starts with `prefix`, in list
   * order.
   */
  method PinByPrefix(mapping: ModuleMapping, devices: seq<Device>, prefix: string, moduleName: string)
    modifies mapping
    ensures mapping.pins == old(mapping.pins) + PrefixPins(devices, prefix, moduleName)
  {
    for k := 0 to |devices|
      invariant mapping.pins == old(mapping.pins) + PrefixPins(devices[..k], prefix, moduleName)
    {
      assert devices[..k + 1][..k] == devices[..k];
      if StartsWith(devices[k].name, prefix) {
        mapping.AddModuleToDevice(moduleName, devices[k].name);
      }
    }
    assert devices[..|devices|] == devices;
  }

  /**
   * The scenario's mapping: `patient_data` on every device whose name starts with "p",
   * `check_for_emergency` on every device whose name starts with "h", and, in the cloud
   * deployment, both modules on the cloud as well.
   */
  method MapModules(fogNodes: seq<Device>, cloud: bool) returns (mapping: ModuleMapping)
    ensures fresh(mapping)
    ensures mapping.pins == ModuleMappingOf(fogNodes, cloud)
  {
    mapping := new ModuleMapping();
    PinByPrefix(mapping, fogNodes, PatientPrefix, PatientData);
    PinByPrefix(mapping, fogNodes, HospitalPrefix, CheckForEmergency);
    if cloud {
      mapping.AddModuleToDevice(PatientData, CloudName);
      mapping.AddModuleToDevice(CheckForEmergency, CloudName);
    }
  }

  /** Over the generated topology, a prefix rule pins exactly the generated names with that prefix. */
  lemma GeneratedPrefixPins(h: nat, p: nat, first: nat, prefix: string, moduleName: string, pin: Pin)
    ensures pin in PrefixPins(Devices(h, p, first), prefix, moduleName)
            <==> pin.moduleName == moduleName && StartsWith(pin.device, prefix) && GeneratedName(pin.device, h, p)
  {
    PrefixPinsMembership(Devices(h, p, first), prefix, moduleName, pin);
    DeviceNames(h, p, first);
  }

  /**
   * The mapping as written, over the generated topology: `patient_data` is pinned only on
   * the proxy and `check_for_emergency` on no device, apart from the cloud pins of the
   * cloud deployment.
   */
  lemma MappingOnTopology(h: nat, p: nat, first: nat, cloud: bool)
    ensures ModuleMappingOf(Devices(h, p, first), cloud) == {Pin(PatientData, Render(Proxy))} + CloudPins(cloud)
  {
    var ds := Devices(h, p, first);
    var lhs, rhs := ModuleMappingOf(ds, cloud), {Pin(PatientData, Render(Proxy))} + CloudPins(cloud);
    forall pin
      ensures pin in lhs <==> pin in rhs
    {
      GeneratedPrefixPins(h, p, first, PatientPrefix, PatientData, pin);
      GeneratedPrefixPins(h, p, first, HospitalPrefix, CheckForEmergency, pin);
      if GeneratedName(pin.device, h, p) {
        var n :| Generated(n, h, p) && Render(n) == pin.device;
        RenderPrefixes(n);
      }
      if pin == Pin(PatientData, Render(Proxy)) {
        assert Generated(Proxy, h, p);
        RenderPrefixes(Proxy);
      }
    }
  }

  /** Without the cloud deployment the mapping as written is the single proxy pin. */
  lemma EdgeMappingOnTopology(h: nat, p: nat, first: nat)
    ensures ModuleMappingOf(Devices(h, p, first), false) == {Pin(PatientData, "proxy_server")}
  {
    MappingOnTopology(h, p, first, false);
    assert Render(Proxy) == "proxy_server";
    assert {Pin(PatientData, Render(Proxy))} + CloudPins(false) == {Pin(PatientData, "proxy_server")};
  }

  /**
   * What the comments beside the rules intend and the names defeat: with at least one
   * patient, the first patient device gets no `patient_data`, and no device gets
   * `check_for_emergency`, unless the cloud deployment puts it on the cloud.
   */
  lemma PrefixRulesMissTheirDevices(h: nat, p: nat, first: nat)
    requires h > 0 && p > 0
    ensures Pin(PatientData, Render(Patient(0, 0))) !in ModuleMappingOf(Devices(h, p, first), false)
    ensures forall d :: Pin(CheckForEmergency, d) !in ModuleMappingOf(Devices(h, p, first), false)
    ensures 3 < |Devices(h, p, first)| && Devices(h, p, first)[3].name == Render(Patient(0, 0))
  {
    MappingOnTopology(h, p, first, false);
    assert CloudPins(false) == {};
    assert Render(Patient(0, 0))[0] == 'm' && Render(Proxy)[0] == 'p';
    PatientOrder(h, p, first, 0, 0);
  }

  // ---- the rules by role ----

  /** Prefixes of the generated patient-device and router names. */
  const PatientDevicePrefix := "m"
  const RouterPrefix := "d"

  /**
   * The mapping the rules' comments describe: `patient_data` on every patient device,
   * `check_for_emergency` on every hospital router, plus the cloud pins.
   */
  function ModuleMappingByRole(devices: seq<Device>, cloud: bool): (pins: set<Pin>) {
    PrefixPins(devices, PatientDevicePrefix, PatientData)
    + PrefixPins(devices, RouterPrefix, CheckForEmergency)
    + CloudPins(cloud)
  }

  /** A pin of `patient_data` on one of the `h*p` patient devices. */
  ghost predicate PatientPin(pin: Pin, h: nat, p: nat) {
    pin.moduleName == PatientData && exists i: nat, j: nat :: i < h && j < p && pin.device == Render(Patient(i, j))
  }

  /** A pin of `check_for_emergency` on one of the `h` routers. */
  ghost predicate RouterPin(pin: Pin, h: nat) {
    pin.moduleName == CheckForEmergency && exists i: nat :: i < h && pin.device == Render(Router(i))
  }

  /** Pins of a mapping by role over `h` hospitals of `p` patients. */
  ghost predicate RolePin(pin: Pin, h: nat, p: nat) {
    PatientPin(pin, h, p) || RouterPin(pin, h)
  }

  /** Over the generated topology, the rule for prefix "m" pins `patient_data` on exactly the patient devices. */
  lemma PatientPinOnTopology(h: nat, p: nat, first: nat, pin: Pin)
    ensures pin in PrefixPins(Devices(h, p, first), PatientDevicePrefix, PatientData) <==> PatientPin(pin, h, p)
  {
    GeneratedPrefixPins(h, p, first, PatientDevicePrefix, PatientData, pin);
    if pin in PrefixPins(Devices(h, p, first), PatientDevicePrefix, PatientData) {
      var n :| Generated(n, h, p) && Render(n) == pin.device;
      RenderPrefixes(n);
      assert Generated(Patient(n.hospital, n.patient), h, p);
    }
    if PatientPin(pin, h, p) {
      var i: nat, j: nat :| i < h && j < p && pin.device == Render(Patient(i, j));
      assert Generated(Patient(i, j), h, p);
      RenderPrefixes(Patient(i, j));
    }
  }

  /** Over the generated topology, the rule for prefix "d" pins `check_for_emergency` on exactly the routers. */
  lemma RouterPinOnTopology(h: nat, p: nat, first: nat, pin: Pin)
    ensures pin in PrefixPins(Devices(h, p, first), RouterPrefix, CheckForEmergency) <==> RouterPin(pin, h)
  {
    GeneratedPrefixPins(h, p, first, RouterPrefix, CheckForEmergency, pin);
    if GeneratedName(pin.device, h, p) {
      var n :| Generated(n, h, p) && Render(n) == pin.device;
      RenderPrefixes(n);
    }
    if RouterPin(pin, h) {
      var i: nat :| i < h && pin.device == Render(Router(i));
      assert Generated(Router(i), h, p);
      RenderPrefixes(Router(i));
    }
  }

  /** One pin of the mapping by role over the generated topology. */
  lemma RolePinOnTopology(h: nat, p: nat, first: nat, cloud: bool, pin: Pin)
    ensures pin in ModuleMappingByRole(Devices(h, p, first), cloud) <==> RolePin(pin, h, p) || pin in CloudPins(cloud)
  {
    PatientPinOnTopology(h, p, first, pin);
    RouterPinOnTopology(h, p, first, pin);
  }

  /**
   * Over the generated topology, the mapping by role pins `patient_data` on exactly the
   * patient devices and `check_for_emergency` on exactly the routers.
   */
  lemma RoleMappingOnTopology(h: nat, p: nat, first: nat, cloud: bool)
    ensures forall pin :: pin in ModuleMappingByRole(Devices(h, p, first), cloud) <==> RolePin(pin, h, p) || pin in CloudPins(cloud)
  {
    forall pin
      ensures pin in ModuleMappingByRole(Devices(h, p, first), cloud) <==> RolePin(pin, h, p) || pin in CloudPins(cloud)
    {
      RolePinOnTopology(h, p, first, cloud, pin);
    }
  }

  // ---- how many pins the rules make ----

  /** Number of devices in `devices` whose name starts with `prefix`. */
  function CountPrefix(devices: seq<Device>, prefix: string): (n: nat)
    decreases |devices|
  {
    if devices == [] then 0
    else CountPrefix(devices[..|devices| - 1], prefix) + (if StartsWith(devices[|devices| - 1].name, prefix) then 1 else 0)
  }

  lemma {:induction false} CountAppend(a: seq<Device>, b: seq<Device>, prefix: string)
    ensures CountPrefix(a + b, prefix) == CountPrefix(a, prefix) + CountPrefix(b, prefix)
    decreases |b|
  {
    if b != [] {
      var b' := b[..|b| - 1];
      assert (a + b)[..|a + b| - 1] == a + b';
      CountAppend(a, b', prefix);
    } else {
      assert a + b == a;
    }
  }

  /** When device names are distinct, a prefix rule makes one pin per matching device. */
  lemma {:induction false} PrefixPinsCardinality(devices: seq<Device>, prefix: string, moduleName: string)
    requires forall a, b :: 0 <= a < b < |devices| ==> devices[a].name != devices[b].name
    ensures |PrefixPins(devices, prefix, moduleName)| == CountPrefix(devices, prefix)
    decreases |devices|
  {
    if devices != [] {
      var init, last := devices[..|devices| - 1], devices[|devices| - 1];
      PrefixPinsCardinality(init, prefix, moduleName);
      PrefixPinsMembership(init, prefix, moduleName, Pin(moduleName, last.name));
      assert !NamedIn(init, last.name);
    }
  }

  /** A hospital's patient row: every device matches "m", none matches "d". */
  lemma {:induction false} RowCounts(hid: string, n: nat, base: nat)
    ensures CountPrefix(PatientRow(hid, n, base), PatientDevicePrefix) == n
    ensures CountPrefix(PatientRow(hid, n, base), RouterPrefix) == 0
    decreases n
  {
    if n > 0 {
      RowCounts(hid, n - 1, base);
      var row := PatientRow(hid, n, base);
      PatientRowLength(hid, n, base);
      assert row[..n - 1] == PatientRow(hid, n - 1, base);
      assert row[n - 1].name[..1] == "m";
    }
  }

  /** A list of one device counts one exactly when that device's name matches. */
  lemma SingleCount(d: Device, prefix: string)
    ensures CountPrefix([d], prefix) == if StartsWith(d.name, prefix) then 1 else 0
  {
    assert [d][..0] == [];
  }

  /** One hospital block: its `p` patient devices match "m", its router alone matches "d". */
  lemma BlockCounts(hid: string, p: nat, base: nat, proxyId: int)
    ensures CountPrefix(HospitalBlock(hid, p, base, proxyId), PatientDevicePrefix) == p
    ensures CountPrefix(HospitalBlock(hid, p, base, proxyId), RouterPrefix) == 1
  {
    var router := RouterNode(hid, base, proxyId);
    var row := PatientRow(hid, p, base);
    assert HospitalBlock(hid, p, base, proxyId) == [router] + row;
    RowCounts(hid, p, base);
    assert router.name[..1] == "d";
    SingleCount(router, PatientDevicePrefix);
    SingleCount(router, RouterPrefix);
    CountAppend([router], row, PatientDevicePrefix);
    CountAppend([router], row, RouterPrefix);
  }

  /** The hospitals part: `n*p` devices match "m". */
  lemma {:induction false} HospitalsPatientCount(n: nat, p: nat, start: nat, proxyId: int)
    ensures CountPrefix(HospitalsDevices(n, p, start, proxyId), PatientDevicePrefix) == Stride(n, p)
    decreases n
  {
    if n > 0 {
      var prev := HospitalsDevices(n - 1, p, start, proxyId);
      var blk := HospitalBlock(NatToString(n - 1), p, HospitalBase(start, n - 1, p), proxyId);
      assert HospitalsDevices(n, p, start, proxyId) == prev + blk;
      HospitalsPatientCount(n - 1, p, start, proxyId);
      BlockCounts(NatToString(n - 1), p, HospitalBase(start, n - 1, p), proxyId);
      CountAppend(prev, blk, PatientDevicePrefix);
    }
  }

  /** The hospitals part: `n` devices match "d". */
  lemma {:induction false} HospitalsRouterCount(n: nat, p: nat, start: nat, proxyId: int)
    ensures CountPrefix(HospitalsDevices(n, p, start, proxyId), RouterPrefix) == n
    decreases n
  {
    if n > 0 {
      var prev := HospitalsDevices(n - 1, p, start, proxyId);
      var blk := HospitalBlock(NatToString(n - 1), p, HospitalBase(start, n - 1, p), proxyId);
      assert HospitalsDevices(n, p, start, proxyId) == prev + blk;
      HospitalsRouterCount(n - 1, p, start, proxyId);
      BlockCounts(NatToString(n - 1), p, HospitalBase(start, n - 1, p), proxyId);
      CountAppend(prev, blk, RouterPrefix);
    }
  }

  /** Neither the cloud nor the proxy matches "m" or "d". */
  lemma TopCounts(first: nat)
    ensures CountPrefix([CloudNode(first), ProxyNode(first + 1, first)], PatientDevicePrefix) == 0
    ensures CountPrefix([CloudNode(first), ProxyNode(first + 1, first)], RouterPrefix) == 0
  {
    var top := [CloudNode(first), ProxyNode(first + 1, first)];
    RenderPrefixes(Cloud);
    RenderPrefixes(Proxy);
    assert top[..1] == [CloudNode(first)] && [CloudNode(first)][..0] == [];
    assert CountPrefix([CloudNode(first)], PatientDevicePrefix) == 0;
    assert CountPrefix([CloudNode(first)], RouterPrefix) == 0;
  }

  /** The whole topology: `h*p` devices match "m". */
  lemma PatientDeviceCount(h: nat, p: nat, first: nat)
    ensures CountPrefix(Devices(h, p, first), PatientDevicePrefix) == Stride(h, p)
  {
    TopCounts(first);
    HospitalsPatientCount(h, p, first + 2, first + 1);
    CountAppend([CloudNode(first), ProxyNode(first + 1, first)], HospitalsDevices(h, p, first + 2, first + 1), PatientDevicePrefix);
  }

  /** The whole topology: `h` devices match "d". */
  lemma RouterCount(h: nat, p: nat, first: nat)
    ensures CountPrefix(Devices(h, p, first), RouterPrefix) == h
  {
    TopCounts(first);
    HospitalsRouterCount(h, p, first + 2, first + 1);
    CountAppend([CloudNode(first), ProxyNode(first + 1, first)], HospitalsDevices(h, p, first + 2, first + 1), RouterPrefix);
  }

  /**
   * Over the generated topology the mapping by role makes `h*p` pins of `patient_data`,
   * one per patient device, and `h` pins of `check_for_emergency`, one per router.
   */
  lemma RolePlacementCounts(h: nat, p: nat, first: nat)
    ensures |PrefixPins(Devices(h, p, first), PatientDevicePrefix, PatientData)| == h * p
    ensures |PrefixPins(Devices(h, p, first), RouterPrefix, CheckForEmergency)| == h
  {
    DeviceNamesDistinct(h, p, first);
    PrefixPinsCardinality(Devices(h, p, first), PatientDevicePrefix, PatientData);
    PrefixPinsCardinality(Devices(h, p, first), RouterPrefix, CheckForEmergency);
    PatientDeviceCount(h, p, first);
    RouterCount(h, p, first);
    StrideValue(h, p);
  }
}
