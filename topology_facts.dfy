/**
 * What the topology builder promises, proved about the lists of the Topology module
 * (and so, through the builder's postconditions, about what the builder leaves behind).
 */
module TopologyFacts {
  import opened Wrappers
  import opened Names
  import opened Topology

  // ---- one hospital ----

  lemma {:induction false} PatientRowLength(hid: string, n: nat, base: nat)
    ensures |PatientRow(hid, n, base)| == n
    decreases n
  {
    if n > 0 {
      PatientRowLength(hid, n - 1, base);
    }
  }

  lemma {:induction false} SensorRowLength(hid: string, n: nat, base: nat, userId: int, appId: string)
    ensures |SensorRow(hid, n, base, userId, appId)| == n
    decreases n
  {
    if n > 0 {
      SensorRowLength(hid, n - 1, base, userId, appId);
    }
  }

  lemma {:induction false} ActuatorRowLength(hid: string, n: nat, base: nat, userId: int, appId: string)
    ensures |ActuatorRow(hid, n, base, userId, appId)| == n
    decreases n
  {
    if n > 0 {
      ActuatorRowLength(hid, n - 1, base, userId, appId);
    }
  }

  /** Indexing into the left part of a concatenation. */
  lemma ConcatLeft<T>(a: seq<T>, b: seq<T>, k: nat)
    requires k < |a|
    ensures (a + b)[k] == a[k]
  {
  }

  /** Indexing into the right part of a concatenation. */
  lemma ConcatRight<T>(a: seq<T>, b: seq<T>, k: nat)
    requires k < |b|
    ensures (a + b)[|a| + k] == b[k]
  {
  }

  /** The device of patient `j` of a hospital whose router has id `base`: id base + 1 + 3j, under the router. */
  lemma {:induction false} PatientRowAt(hid: string, n: nat, base: nat, j: nat)
    requires j < n
    ensures j < |PatientRow(hid, n, base)|
    ensures PatientRow(hid, n, base)[j] == PatientNode(MobileId(hid, j), PatientId(base, j), base)
    decreases n
  {
    var prev := PatientRow(hid, n - 1, base);
    var last := [PatientNode(MobileId(hid, n - 1), PatientId(base, n - 1), base)];
    assert PatientRow(hid, n, base) == prev + last;
    PatientRowLength(hid, n - 1, base);
    if j < n - 1 {
      PatientRowAt(hid, n - 1, base, j);
      ConcatLeft(prev, last, j);
    } else {
      ConcatRight(prev, last, 0);
    }
  }

  /** The sensor of patient `j`: the id after its device, with that device as gateway. */
  lemma {:induction false} SensorRowAt(hid: string, n: nat, base: nat, userId: int, appId: string, j: nat)
    requires j < n
    ensures j < |SensorRow(hid, n, base, userId, appId)|
    ensures SensorRow(hid, n, base, userId, appId)[j]
            == PatientSensor(MobileId(hid, j), PatientId(base, j) + 1, PatientId(base, j), userId, appId)
    decreases n
  {
    var prev := SensorRow(hid, n - 1, base, userId, appId);
    var last := [PatientSensor(MobileId(hid, n - 1), PatientId(base, n - 1) + 1, PatientId(base, n - 1), userId, appId)];
    assert SensorRow(hid, n, base, userId, appId) == prev + last;
    SensorRowLength(hid, n - 1, base, userId, appId);
    if j < n - 1 {
      SensorRowAt(hid, n - 1, base, userId, appId, j);
      ConcatLeft(prev, last, j);
    } else {
      ConcatRight(prev, last, 0);
    }
  }

  /** The actuator of patient `j`: the second id after its device, with that device as gateway. */
  lemma {:induction false} ActuatorRowAt(hid: string, n: nat, base: nat, userId: int, appId: string, j: nat)
    requires j < n
    ensures j < |ActuatorRow(hid, n, base, userId, appId)|
    ensures ActuatorRow(hid, n, base, userId, appId)[j]
            == PatientActuator(MobileId(hid, j), PatientId(base, j) + 2, PatientId(base, j), userId, appId)
    decreases n
  {
    var prev := ActuatorRow(hid, n - 1, base, userId, appId);
    var last := [PatientActuator(MobileId(hid, n - 1), PatientId(base, n - 1) + 2, PatientId(base, n - 1), userId, appId)];
    assert ActuatorRow(hid, n, base, userId, appId) == prev + last;
    ActuatorRowLength(hid, n - 1, base, userId, appId);
    if j < n - 1 {
      ActuatorRowAt(hid, n - 1, base, userId, appId, j);
      ConcatLeft(prev, last, j);
    } else {
      ConcatRight(prev, last, 0);
    }
  }

  // ---- all hospitals: counts and positions ----

  /** The closed form of Stride. */
  lemma {:induction false} StrideValue(i: nat, width: nat)
    ensures Stride(i, width) == i * width
    decreases i
  {
    if i > 0 {
      StrideValue(i - 1, width);
      assert i * width == (i - 1) * width + width;
    }
  }

  /** A position inside block i of a run of equal-width blocks lies before block i2 starts. */
  lemma {:induction false} StrideLess(i: nat, i2: nat, width: nat, j: nat)
    requires i < i2 && j < width
    ensures Stride(i, width) + j < Stride(i2, width)
    decreases i2
  {
    if i < i2 - 1 {
      StrideLess(i, i2 - 1, width, j);
    }
  }

  /** A position in a run of equal-width blocks has one block number and one offset. */
  lemma StrideUnique(i1: nat, j1: nat, i2: nat, j2: nat, width: nat)
    requires j1 < width && j2 < width
    requires Stride(i1, width) + j1 == Stride(i2, width) + j2
    ensures i1 == i2 && j1 == j2
  {
    if i1 < i2 {
      StrideLess(i1, i2, width, j1);
    } else if i2 < i1 {
      StrideLess(i2, i1, width, j2);
    }
  }

  /** Every position before block n is inside some block i < n. */
  lemma {:induction false} Decompose(k: nat, n: nat, width: nat) returns (i: nat, j: nat)
    requires k < Stride(n, width)
    ensures i < n && j < width && k == Stride(i, width) + j
    decreases n
  {
    if k < Stride(n - 1, width) {
      i, j := Decompose(k, n - 1, width);
    } else {
      i, j := n - 1, k - Stride(n - 1, width);
    }
  }

  lemma {:induction false} HospitalsDevicesLength(n: nat, p: nat, start: nat, proxyId: int)
    ensures |HospitalsDevices(n, p, start, proxyId)| == Stride(n, 1 + p)
    decreases n
  {
    if n > 0 {
      HospitalsDevicesLength(n - 1, p, start, proxyId);
      PatientRowLength(NatToString(n - 1), p, HospitalBase(start, n - 1, p));
    }
  }

  lemma {:induction false} HospitalsSensorsLength(n: nat, p: nat, start: nat, userId: int, appId: string)
    ensures |HospitalsSensors(n, p, start, userId, appId)| == Stride(n, p)
    decreases n
  {
    if n > 0 {
      HospitalsSensorsLength(n - 1, p, start, userId, appId);
      SensorRowLength(NatToString(n - 1), p, HospitalBase(start, n - 1, p), userId, appId);
    }
  }

  lemma {:induction false} HospitalsActuatorsLength(n: nat, p: nat, start: nat, userId: int, appId: string)
    ensures |HospitalsActuators(n, p, start, userId, appId)| == Stride(n, p)
    decreases n
  {
    if n > 0 {
      HospitalsActuatorsLength(n - 1, p, start, userId, appId);
      ActuatorRowLength(NatToString(n - 1), p, HospitalBase(start, n - 1, p), userId, appId);
    }
  }

  /** Both endpoint lists have one entry per patient. */
  lemma EndpointsLength(n: nat, p: nat, start: nat, userId: int, appId: string)
    ensures |HospitalsSensors(n, p, start, userId, appId)| == Stride(n, p)
    ensures |HospitalsActuators(n, p, start, userId, appId)| == Stride(n, p)
  {
    HospitalsSensorsLength(n, p, start, userId, appId);
    HospitalsActuatorsLength(n, p, start, userId, appId);
  }

  /** In the hospitals part, block i of width 1 + p starts with hospital i's router. */
  lemma {:induction false} HospitalsRouterAt(n: nat, p: nat, start: nat, proxyId: int, i: nat)
    requires i < n
    ensures Stride(i, 1 + p) < |HospitalsDevices(n, p, start, proxyId)|
    ensures HospitalsDevices(n, p, start, proxyId)[Stride(i, 1 + p)]
            == RouterNode(NatToString(i), HospitalBase(start, i, p), proxyId)
    decreases n
  {
    var prev := HospitalsDevices(n - 1, p, start, proxyId);
    var blk := HospitalBlock(NatToString(n - 1), p, HospitalBase(start, n - 1, p), proxyId);
    assert HospitalsDevices(n, p, start, proxyId) == prev + blk;
    HospitalsDevicesLength(n - 1, p, start, proxyId);
    if i < n - 1 {
      StrideLess(i, n - 1, 1 + p, 0);
      HospitalsRouterAt(n - 1, p, start, proxyId, i);
      ConcatLeft(prev, blk, Stride(i, 1 + p));
    } else {
      ConcatRight(prev, blk, 0);
    }
  }

  /** Offset 1 + j of block i is patient j of hospital i. */
  lemma {:induction false} HospitalsPatientAt(n: nat, p: nat, start: nat, proxyId: int, i: nat, j: nat)
    requires i < n && j < p
    ensures Stride(i, 1 + p) + 1 + j < |HospitalsDevices(n, p, start, proxyId)|
    ensures HospitalsDevices(n, p, start, proxyId)[Stride(i, 1 + p) + 1 + j]
            == PatientNode(MobileId(NatToString(i), j), PatientId(HospitalBase(start, i, p), j), HospitalBase(start, i, p))
    decreases n
  {
    var prev := HospitalsDevices(n - 1, p, start, proxyId);
    var b := HospitalBase(start, n - 1, p);
    var row := PatientRow(NatToString(n - 1), p, b);
    var blk := [RouterNode(NatToString(n - 1), b, proxyId)] + row;
    assert HospitalsDevices(n, p, start, proxyId) == prev + blk;
    HospitalsDevicesLength(n - 1, p, start, proxyId);
    PatientRowLength(NatToString(n - 1), p, b);
    if i < n - 1 {
      StrideLess(i, n - 1, 1 + p, 1 + j);
      HospitalsPatientAt(n - 1, p, start, proxyId, i, j);
      ConcatLeft(prev, blk, Stride(i, 1 + p) + 1 + j);
    } else {
      PatientRowAt(NatToString(i), p, b, j);
      ConcatRight([RouterNode(NatToString(i), b, proxyId)], row, j);
      ConcatRight(prev, blk, 1 + j);
    }
  }

  /** Patient j of hospital i has sensor i*p + j. */
  lemma {:induction false} HospitalsSensorAt(n: nat, p: nat, start: nat, userId: int, appId: string, i: nat, j: nat)
    requires i < n && j < p
    ensures Stride(i, p) + j < |HospitalsSensors(n, p, start, userId, appId)|
    ensures HospitalsSensors(n, p, start, userId, appId)[Stride(i, p) + j]
            == PatientSensor(MobileId(NatToString(i), j), PatientId(HospitalBase(start, i, p), j) + 1,
                             PatientId(HospitalBase(start, i, p), j), userId, appId)
    decreases n
  {
    var b := HospitalBase(start, n - 1, p);
    var prev := HospitalsSensors(n - 1, p, start, userId, appId);
    var row := SensorRow(NatToString(n - 1), p, b, userId, appId);
    assert HospitalsSensors(n, p, start, userId, appId) == prev + row;
    HospitalsSensorsLength(n - 1, p, start, userId, appId);
    SensorRowLength(NatToString(n - 1), p, b, userId, appId);
    if i < n - 1 {
      StrideLess(i, n - 1, p, j);
      HospitalsSensorAt(n - 1, p, start, userId, appId, i, j);
      ConcatLeft(prev, row, Stride(i, p) + j);
    } else {
      SensorRowAt(NatToString(i), p, b, userId, appId, j);
      ConcatRight(prev, row, j);
    }
  }

  /** Patient j of hospital i has actuator i*p + j. */
  lemma {:induction false} HospitalsActuatorAt(n: nat, p: nat, start: nat, userId: int, appId: string, i: nat, j: nat)
    requires i < n && j < p
    ensures Stride(i, p) + j < |HospitalsActuators(n, p, start, userId, appId)|
    ensures HospitalsActuators(n, p, start, userId, appId)[Stride(i, p) + j]
            == PatientActuator(MobileId(NatToString(i), j), PatientId(HospitalBase(start, i, p), j) + 2,
                               PatientId(HospitalBase(start, i, p), j), userId, appId)
    decreases n
  {
    var b := HospitalBase(start, n - 1, p);
    var prev := HospitalsActuators(n - 1, p, start, userId, appId);
    var row := ActuatorRow(NatToString(n - 1), p, b, userId, appId);
    assert HospitalsActuators(n, p, start, userId, appId) == prev + row;
    HospitalsActuatorsLength(n - 1, p, start, userId, appId);
    ActuatorRowLength(NatToString(n - 1), p, b, userId, appId);
    if i < n - 1 {
      StrideLess(i, n - 1, p, j);
      HospitalsActuatorAt(n - 1, p, start, userId, appId, i, j);
      ConcatLeft(prev, row, Stride(i, p) + j);
    } else {
      ActuatorRowAt(NatToString(i), p, b, userId, appId, j);
      ConcatRight(prev, row, j);
    }
  }

  // ---- the whole topology ----

  /**
   * Counts: `2 + h*(1+p)` devices, `h*p` sensors and `h*p` actuators, and `2 + h*(1+3p)`
   * entity ids consumed. With no hospital only the cloud and the proxy exist.
   */
  lemma Counts(h: nat, p: nat, first: nat, userId: int, appId: string)
    ensures |Devices(h, p, first)| == 2 + h * (1 + p)
    ensures |Sensors(h, p, first, userId, appId)| == h * p
    ensures |Actuators(h, p, first, userId, appId)| == h * p
    ensures IdsConsumed(h, p) == 2 + h * (1 + 3 * p)
    ensures h == 0 ==> Devices(h, p, first) == [CloudNode(first), ProxyNode(first + 1, first)]
  {
    HospitalsDevicesLength(h, p, first + 2, first + 1);
    EndpointsLength(h, p, first + 2, userId, appId);
    StrideValue(h, 1 + p);
    StrideValue(h, p);
    StrideValue(h, HospitalSpan(p));
  }

  /**
   * Order of the devices: the cloud, the proxy, then for each hospital i its router "d-i"
   * at position 2 + i*(1+p), immediately followed by its patient devices "m-i-0" ..
   * "m-i-(p-1)". Each hospital's router has the id HospitalBase(first + 2, i, p), that is
   * first + 2 + i*(1+3p): a hospital consumes one id for its router and three per patient
   * (device, sensor, actuator). `Stride(i, w)` is `i * w` (StrideValue).
   */
  lemma RouterOrder(h: nat, p: nat, first: nat, i: nat)
    requires i < h
    ensures 2 + Stride(i, 1 + p) < |Devices(h, p, first)|
    ensures Devices(h, p, first)[2 + Stride(i, 1 + p)]
            == RouterNode(NatToString(i), HospitalBase(first + 2, i, p), first + 1)
  {
    var k, hs := Stride(i, 1 + p), HospitalsDevices(h, p, first + 2, first + 1);
    assert k < |hs| && hs[k] == RouterNode(NatToString(i), HospitalBase(first + 2, i, p), first + 1) by {
      HospitalsRouterAt(h, p, first + 2, first + 1, i);
    }
    AfterTop(h, p, first, k);
  }

  lemma PatientOrder(h: nat, p: nat, first: nat, i: nat, j: nat)
    requires i < h && j < p
    ensures 2 + Stride(i, 1 + p) + 1 + j < |Devices(h, p, first)|
    ensures Devices(h, p, first)[2 + Stride(i, 1 + p) + 1 + j]
            == PatientNode(MobileId(NatToString(i), j), PatientId(HospitalBase(first + 2, i, p), j), HospitalBase(first + 2, i, p))
  {
    HospitalsPatientAt(h, p, first + 2, first + 1, i, j);
    AfterTop(h, p, first, Stride(i, 1 + p) + 1 + j);
  }

  /** Sensor i*p + j is that of patient j of hospital i: the id after its device, which is its gateway. */
  lemma SensorOrder(h: nat, p: nat, first: nat, userId: int, appId: string, i: nat, j: nat)
    requires i < h && j < p
    ensures Stride(i, p) + j < |Sensors(h, p, first, userId, appId)|
    ensures Sensors(h, p, first, userId, appId)[Stride(i, p) + j]
            == PatientSensor(MobileId(NatToString(i), j), PatientId(HospitalBase(first + 2, i, p), j) + 1,
                             PatientId(HospitalBase(first + 2, i, p), j), userId, appId)
  {
    HospitalsSensorAt(h, p, first + 2, userId, appId, i, j);
  }

  /** Actuator i*p + j is that of patient j of hospital i: the second id after its device, which is its gateway. */
  lemma ActuatorOrder(h: nat, p: nat, first: nat, userId: int, appId: string, i: nat, j: nat)
    requires i < h && j < p
    ensures Stride(i, p) + j < |Actuators(h, p, first, userId, appId)|
    ensures Actuators(h, p, first, userId, appId)[Stride(i, p) + j]
            == PatientActuator(MobileId(NatToString(i), j), PatientId(HospitalBase(first + 2, i, p), j) + 2,
                               PatientId(HospitalBase(first + 2, i, p), j), userId, appId)
  {
    HospitalsActuatorAt(h, p, first + 2, userId, appId, i, j);
  }

  /**
   * Order of the endpoints: sensor i*p + j and actuator i*p + j belong to patient j of
   * hospital i; they take the two ids after its device and name it as their gateway.
   */
  lemma EndpointOrder(h: nat, p: nat, first: nat, userId: int, appId: string, i: nat, j: nat)
    requires i < h && j < p
    ensures var k, device, mid := Stride(i, p) + j, PatientId(HospitalBase(first + 2, i, p), j), MobileId(NatToString(i), j);
      && |Sensors(h, p, first, userId, appId)| > k
      && |Actuators(h, p, first, userId, appId)| > k
      && Sensors(h, p, first, userId, appId)[k] == PatientSensor(mid, device + 1, device, userId, appId)
      && Actuators(h, p, first, userId, appId)[k] == PatientActuator(mid, device + 2, device, userId, appId)
  {
    SensorOrder(h, p, first, userId, appId, i, j);
    ActuatorOrder(h, p, first, userId, appId, i, j);
  }

  /** The devices are the cloud and the proxy followed by the hospitals part. */
  lemma DevicesLength(h: nat, p: nat, first: nat)
    ensures |Devices(h, p, first)| == 2 + Stride(h, 1 + p)
  {
    HospitalsDevicesLength(h, p, first + 2, first + 1);
  }

  /** Entry `k` of the hospitals part is device 2 + k. */
  lemma AfterTop(h: nat, p: nat, first: nat, k: nat)
    requires k < |HospitalsDevices(h, p, first + 2, first + 1)|
    ensures 2 + k < |Devices(h, p, first)|
    ensures Devices(h, p, first)[2 + k] == HospitalsDevices(h, p, first + 2, first + 1)[k]
  {
  }

  /** The list opens with the cloud and then the proxy. */
  lemma TopAt(h: nat, p: nat, first: nat)
    ensures 2 <= |Devices(h, p, first)|
    ensures Devices(h, p, first)[0] == CloudNode(first)
    ensures Devices(h, p, first)[1] == ProxyNode(first + 1, first)
  {
    var top := [CloudNode(first), ProxyNode(first + 1, first)];
    var hs := HospitalsDevices(h, p, first + 2, first + 1);
    ConcatLeft(top, hs, 0);
    ConcatLeft(top, hs, 1);
  }

  /** The closed form of a hospital router's id. */
  lemma HospitalBaseValue(start: nat, i: nat, p: nat)
    ensures HospitalBase(start, i, p) == start + i * (1 + 3 * p)
  {
    StrideValue(i, HospitalSpan(p));
  }

  /**
   * Device `k >= 2` is offset `r` of hospital block `i`: the router when r = 0, patient
   * r - 1 otherwise.
   */
  lemma DeviceAt(h: nat, p: nat, first: nat, k: nat) returns (i: nat, r: nat)
    requires 2 <= k < |Devices(h, p, first)|
    ensures i < h && r <= p && k == 2 + Stride(i, 1 + p) + r
    ensures r == 0 ==> Devices(h, p, first)[k]
                       == RouterNode(NatToString(i), HospitalBase(first + 2, i, p), first + 1)
    ensures r > 0 ==> Devices(h, p, first)[k]
                      == PatientNode(MobileId(NatToString(i), r - 1), PatientId(HospitalBase(first + 2, i, p), r - 1),
                                     HospitalBase(first + 2, i, p))
  {
    DevicesLength(h, p, first);
    i, r := Decompose(k - 2, h, 1 + p);
    if r == 0 {
      RouterOrder(h, p, first, i);
    } else {
      PatientOrder(h, p, first, i, r - 1);
    }
  }

  /** Sensor and actuator `k` are those of patient `j` of hospital `i`. */
  lemma EndpointAt(h: nat, p: nat, first: nat, userId: int, appId: string, k: nat) returns (i: nat, j: nat)
    requires k < |Sensors(h, p, first, userId, appId)|
    ensures i < h && j < p && k == Stride(i, p) + j
    ensures |Actuators(h, p, first, userId, appId)| == |Sensors(h, p, first, userId, appId)|
    ensures Sensors(h, p, first, userId, appId)[k]
            == PatientSensor(MobileId(NatToString(i), j), PatientId(HospitalBase(first + 2, i, p), j) + 1,
                             PatientId(HospitalBase(first + 2, i, p), j), userId, appId)
    ensures Actuators(h, p, first, userId, appId)[k]
            == PatientActuator(MobileId(NatToString(i), j), PatientId(HospitalBase(first + 2, i, p), j) + 2,
                               PatientId(HospitalBase(first + 2, i, p), j), userId, appId)
  {
    EndpointsLength(h, p, first + 2, userId, appId);
    i, j := Decompose(k, h, p);
    HospitalsSensorAt(h, p, first + 2, userId, appId, i, j);
    HospitalsActuatorAt(h, p, first + 2, userId, appId, i, j);
  }

  /** Device `m` has a parent one level above it, found earlier in the list. */
  ghost predicate HasParentAbove(ds: seq<Device>, k: nat)
    requires k < |ds|
  {
    exists m :: 0 <= m < k && ds[k].parentId == Some(ds[m].id as int) && ds[m].level + 1 == ds[k].level
  }

  /**
   * Tree shape: the cloud is the only root (level 0, parent -1); the proxy hangs under it,
   * every router under the proxy and every patient device under its hospital's router, so
   * every other device's parent is one level above it.
   */
  lemma TreeShape(h: nat, p: nat, first: nat)
    ensures var ds := Devices(h, p, first);
      && ds[0].level == 0 && ds[0].parentId == Some(-1)
      && (forall k :: 1 <= k < |ds| ==> ds[k].parentId != Some(-1) && HasParentAbove(ds, k))
  {
    var ds := Devices(h, p, first);
    forall k | 1 <= k < |ds|
      ensures ds[k].parentId != Some(-1) && HasParentAbove(ds, k)
    {
      if k == 1 {
        assert ds[1].parentId == Some(ds[0].id as int);
      } else {
        var i, r := DeviceAt(h, p, first, k);
        if r == 0 {
          assert ds[k].parentId == Some(ds[1].id as int);
        } else {
          var at := 2 + Stride(i, 1 + p);
          var i', r' := DeviceAt(h, p, first, at);
          StrideUnique(i, 0, i', r', 1 + p);
          assert ds[k].parentId == Some(ds[at].id as int);
        }
      }
    }
  }

  /** The uplink latency the builder leaves on a device of each level. */
  function UplinkLatencyAt(level: nat): (latency: real) {
    if level == 0 then 0.0
    else if level == 1 then ProxyUplinkLatency
    else if level == 2 then RouterUplinkLatency
    else PatientUplinkLatency
  }

  /**
   * Levels and uplink latencies: level 0 is only the cloud (latency left at 0), level 1
   * only the proxy (100); every other device is a router (level 2) or a patient device
   * (level 3), both with latency 2.
   */
  lemma LevelsAndLatencies(h: nat, p: nat, first: nat)
    ensures var ds := Devices(h, p, first);
      forall k :: 0 <= k < |ds| ==>
        && ds[k].level <= 3
        && ds[k].uplinkLatency == UplinkLatencyAt(ds[k].level)
        && (ds[k].level == 0 <==> k == 0)
        && (ds[k].level == 1 <==> k == 1)
  {
    var ds := Devices(h, p, first);
    forall k | 2 <= k < |ds|
      ensures 2 <= ds[k].level <= 3 && ds[k].uplinkLatency == UplinkLatencyAt(ds[k].level)
    {
      var i, r := DeviceAt(h, p, first, k);
    }
  }

  /** A hospital's router and patient devices have ids within what the topology consumes. */
  lemma DeviceIdInRange(h: nat, p: nat, first: nat, k: nat)
    requires 2 <= k < |Devices(h, p, first)|
    ensures first + 2 <= Devices(h, p, first)[k].id < first + IdsConsumed(h, p)
  {
    var i, r := DeviceAt(h, p, first, k);
    if i + 1 < h {
      StrideLess(i + 1, h, HospitalSpan(p), 0);
    }
  }

  /** Of two hospital devices, the later in the list has the larger id. */
  lemma DeviceIdOrder(h: nat, p: nat, first: nat, a: nat, b: nat)
    requires 2 <= a < b < |Devices(h, p, first)|
    ensures Devices(h, p, first)[a].id < Devices(h, p, first)[b].id
  {
    var i, r := DeviceAt(h, p, first, a);
    var i', r' := DeviceAt(h, p, first, b);
    if i < i' {
      StrideLess(i, i', HospitalSpan(p), if r == 0 then 0 else 1 + 3 * (r - 1));
    } else {
      if i' < i {
        StrideLess(i', i, 1 + p, r');
      }
      assert i == i' && r < r';
    }
  }

  /** Ids in the device list strictly increase, from the first id up to what the topology consumes. */
  lemma DeviceIdsIncrease(h: nat, p: nat, first: nat)
    ensures var ds := Devices(h, p, first);
      && (forall a, b :: 0 <= a < b < |ds| ==> ds[a].id < ds[b].id)
      && (forall k :: 0 <= k < |ds| ==> first <= ds[k].id < first + IdsConsumed(h, p))
  {
    var ds := Devices(h, p, first);
    TopAt(h, p, first);
    forall k | 2 <= k < |ds|
      ensures first + 2 <= ds[k].id < first + IdsConsumed(h, p)
    {
      DeviceIdInRange(h, p, first, k);
    }
    forall a, b | 2 <= a < b < |ds|
      ensures ds[a].id < ds[b].id
    {
      DeviceIdOrder(h, p, first, a, b);
    }
  }

  // ---- names ----

  /** The kinds of device the topology contains: one cloud, one proxy, `h` routers, `h*p` patients. */
  predicate Generated(n: DeviceName, h: nat, p: nat) {
    match n
    case Cloud => true
    case Proxy => true
    case Router(i) => i < h
    case Patient(i, j) => i < h && j < p
  }

  /** Position of each kind of device in the list. */
  function Position(n: DeviceName, p: nat): (k: nat) {
    match n
    case Cloud => 0
    case Proxy => 1
    case Router(i) => 2 + Stride(i, 1 + p)
    case Patient(i, j) => 2 + Stride(i, 1 + p) + 1 + j
  }

  /** Device `k` is the device of some generated kind `n`, sits at n's position and carries n's name. */
  lemma NameAt(h: nat, p: nat, first: nat, k: nat) returns (n: DeviceName)
    requires k < |Devices(h, p, first)|
    ensures Generated(n, h, p) && Position(n, p) == k
    ensures Devices(h, p, first)[k].name == Render(n)
  {
    if k == 0 {
      n := Cloud;
    } else if k == 1 {
      n := Proxy;
    } else {
      var i, r := DeviceAt(h, p, first, k);
      n := if r == 0 then Router(i) else Patient(i, r - 1);
    }
  }

  /** Every generated kind of device is in the list, at its position, under its name. */
  lemma NamePresent(h: nat, p: nat, first: nat, n: DeviceName)
    requires Generated(n, h, p)
    ensures Position(n, p) < |Devices(h, p, first)|
    ensures Devices(h, p, first)[Position(n, p)].name == Render(n)
  {
    match n
    case Cloud =>
      TopAt(h, p, first);
    case Proxy =>
      TopAt(h, p, first);
    case Router(i) =>
      RouterNamePresent(h, p, first, i);
    case Patient(i, j) =>
      PatientNamePresent(h, p, first, i, j);
  }

  lemma RouterNamePresent(h: nat, p: nat, first: nat, i: nat)
    requires i < h
    ensures Position(Router(i), p) < |Devices(h, p, first)|
    ensures Devices(h, p, first)[Position(Router(i), p)].name == Render(Router(i))
  {
    RouterOrder(h, p, first, i);
  }

  lemma PatientNamePresent(h: nat, p: nat, first: nat, i: nat, j: nat)
    requires i < h && j < p
    ensures Position(Patient(i, j), p) < |Devices(h, p, first)|
    ensures Devices(h, p, first)[Position(Patient(i, j), p)].name == Render(Patient(i, j))
  {
    PatientOrder(h, p, first, i, j);
  }

  /** Some device in `ds` is called `name`. */
  ghost predicate NamedIn(ds: seq<Device>, name: string) {
    exists k :: 0 <= k < |ds| && ds[k].name == name
  }

  /** `name` is the name of a generated kind of device. */
  ghost predicate GeneratedName(name: string, h: nat, p: nat) {
    exists n :: Generated(n, h, p) && Render(n) == name
  }

  /** The devices' names are exactly the names of the generated kinds. */
  lemma DeviceNames(h: nat, p: nat, first: nat)
    ensures forall name :: NamedIn(Devices(h, p, first), name) <==> GeneratedName(name, h, p)
  {
    var ds := Devices(h, p, first);
    forall name
      ensures NamedIn(ds, name) <==> GeneratedName(name, h, p)
    {
      if k :| 0 <= k < |ds| && ds[k].name == name {
        var n := NameAt(h, p, first, k);
      }
      if n :| Generated(n, h, p) && Render(n) == name {
        NamePresent(h, p, first, n);
      }
    }
  }

  /** No two devices share a name. */
  lemma DeviceNamesDistinct(h: nat, p: nat, first: nat)
    ensures var ds := Devices(h, p, first);
      forall a, b :: 0 <= a < b < |ds| ==> ds[a].name != ds[b].name
  {
    var ds := Devices(h, p, first);
    forall a, b | 0 <= a < b < |ds|
      ensures ds[a].name != ds[b].name
    {
      var na := NameAt(h, p, first, a);
      var nb := NameAt(h, p, first, b);
      if ds[a].name == ds[b].name {
        RenderInjective(na, nb);
      }
    }
  }

  /** Two endpoint positions whose sensor names, or whose actuator names, agree are the same position. */
  lemma EndpointIndexByName(h: nat, p: nat, first: nat, userId: int, appId: string, a: nat, b: nat)
    requires a < |Sensors(h, p, first, userId, appId)| && b < |Sensors(h, p, first, userId, appId)|
    ensures |Actuators(h, p, first, userId, appId)| == |Sensors(h, p, first, userId, appId)|
    ensures Sensors(h, p, first, userId, appId)[a].name == Sensors(h, p, first, userId, appId)[b].name ==> a == b
    ensures Actuators(h, p, first, userId, appId)[a].name == Actuators(h, p, first, userId, appId)[b].name ==> a == b
  {
    var ss, acts := Sensors(h, p, first, userId, appId), Actuators(h, p, first, userId, appId);
    var i1, j1 := EndpointAt(h, p, first, userId, appId, a);
    var i2, j2 := EndpointAt(h, p, first, userId, appId, b);
    var m1, m2 := MobileId(NatToString(i1), j1), MobileId(NatToString(i2), j2);
    if ss[a].name == ss[b].name {
      assert m1 == ss[a].name[2..] == m2;
      MobileIdInjective(i1, j1, i2, j2);
      StrideUnique(i1, j1, i2, j2, p);
    }
    if acts[a].name == acts[b].name {
      assert m1 == acts[a].name[4..] == m2;
      MobileIdInjective(i1, j1, i2, j2);
      StrideUnique(i1, j1, i2, j2, p);
    }
  }

  /** No two sensors share a name. */
  lemma SensorNamesDistinct(h: nat, p: nat, first: nat, userId: int, appId: string)
    ensures var ss := Sensors(h, p, first, userId, appId);
      forall a, b :: 0 <= a < b < |ss| ==> ss[a].name != ss[b].name
  {
    var ss := Sensors(h, p, first, userId, appId);
    forall a, b | 0 <= a < b < |ss|
      ensures ss[a].name != ss[b].name
    {
      EndpointIndexByName(h, p, first, userId, appId, a, b);
    }
  }

  /** No two actuators share a name. */
  lemma ActuatorNamesDistinct(h: nat, p: nat, first: nat, userId: int, appId: string)
    ensures var acts := Actuators(h, p, first, userId, appId);
      forall a, b :: 0 <= a < b < |acts| ==> acts[a].name != acts[b].name
  {
    var acts := Actuators(h, p, first, userId, appId);
    EndpointsLength(h, p, first + 2, userId, appId);
    forall a, b | 0 <= a < b < |acts|
      ensures acts[a].name != acts[b].name
    {
      EndpointIndexByName(h, p, first, userId, appId, a, b);
    }
  }

  /** No two sensors share a name, and no two actuators do. */
  lemma EndpointNamesDistinct(h: nat, p: nat, first: nat, userId: int, appId: string)
    ensures var ss, acts := Sensors(h, p, first, userId, appId), Actuators(h, p, first, userId, appId);
      && (forall a, b :: 0 <= a < b < |ss| ==> ss[a].name != ss[b].name)
      && (forall a, b :: 0 <= a < b < |acts| ==> acts[a].name != acts[b].name)
  {
    SensorNamesDistinct(h, p, first, userId, appId);
    ActuatorNamesDistinct(h, p, first, userId, appId);
  }

  /**
   * Sensor `s` and actuator `a` are the pair attached to patient device `d`: named after
   * it, of the scenario's types, with `d` as their gateway at latency 1.
   */
  predicate Attached(d: Device, s: Sensor, a: Actuator) {
    && |d.name| >= 2 && d.name[..2] == "m-"
    && s.name == "s-" + d.name[2..]
    && a.name == "ptz-" + d.name[2..]
    && s.tupleType == SensorType && a.actuatorType == ActuatorType
    && s.gatewayId == Some(d.id as int) && a.gatewayId == Some(d.id as int)
    && s.latency == Some(EndpointLatency) && a.latency == Some(EndpointLatency)
  }

  /** A patient's device, sensor and actuator, as the builder leaves them, are attached. */
  lemma PatientAttached(mid: string, id: nat, routerId: int, userId: int, appId: string)
    ensures Attached(PatientNode(mid, id, routerId), PatientSensor(mid, id + 1, id, userId, appId),
                     PatientActuator(mid, id + 2, id, userId, appId))
  {
    var d := PatientNode(mid, id, routerId);
    assert d.name[..2] == "m-" && d.name[2..] == mid;
  }

  /** Sensor and actuator `k` are attached to the patient device of the same patient. */
  lemma EndpointAttached(h: nat, p: nat, first: nat, userId: int, appId: string, k: nat) returns (m: nat)
    requires k < |Sensors(h, p, first, userId, appId)|
    ensures var ds, ss, acts := Devices(h, p, first), Sensors(h, p, first, userId, appId), Actuators(h, p, first, userId, appId);
      && |acts| == |ss| && m < |ds| && ds[m].level == 3 && Attached(ds[m], ss[k], acts[k])
  {
    var i, j := EndpointAt(h, p, first, userId, appId, k);
    PatientOrder(h, p, first, i, j);
    m := 2 + Stride(i, 1 + p) + 1 + j;
    var b := HospitalBase(first + 2, i, p);
    PatientAttached(MobileId(NatToString(i), j), PatientId(b, j), b, userId, appId);
  }

  /** The sensor/actuator pair of patient device `m`. */
  lemma PatientEndpoints(h: nat, p: nat, first: nat, userId: int, appId: string, m: nat) returns (k: nat)
    requires m < |Devices(h, p, first)| && Devices(h, p, first)[m].level == 3
    ensures var ds, ss, acts := Devices(h, p, first), Sensors(h, p, first, userId, appId), Actuators(h, p, first, userId, appId);
      && k < |ss| && k < |acts| && Attached(ds[m], ss[k], acts[k])
  {
    var i, r := DeviceAt(h, p, first, m);
    EndpointOrder(h, p, first, userId, appId, i, r - 1);
    k := Stride(i, p) + r - 1;
    var b := HospitalBase(first + 2, i, p);
    PatientAttached(MobileId(NatToString(i), r - 1), PatientId(b, r - 1), b, userId, appId);
  }

  /**
   * Sensor/actuator binding, from the endpoints' side: sensors and actuators come in pairs,
   * position by position, belong to the scenario's user and application, and every pair is
   * attached to a patient device.
   */
  lemma EndpointsBound(h: nat, p: nat, first: nat, userId: int, appId: string)
    ensures var ds, ss, acts := Devices(h, p, first), Sensors(h, p, first, userId, appId), Actuators(h, p, first, userId, appId);
      && |ss| == |acts|
      && forall k :: 0 <= k < |ss| ==>
           && ss[k].userId == userId && ss[k].appId == appId
           && acts[k].userId == userId && acts[k].appId == appId
           && exists m :: 0 <= m < |ds| && ds[m].level == 3 && Attached(ds[m], ss[k], acts[k])
  {
    var ds, ss, acts := Devices(h, p, first), Sensors(h, p, first, userId, appId), Actuators(h, p, first, userId, appId);
    EndpointsLength(h, p, first + 2, userId, appId);
    forall k | 0 <= k < |ss|
      ensures && ss[k].userId == userId && ss[k].appId == appId
              && acts[k].userId == userId && acts[k].appId == appId
              && exists m :: 0 <= m < |ds| && ds[m].level == 3 && Attached(ds[m], ss[k], acts[k])
    {
      var m := EndpointAttached(h, p, first, userId, appId, k);
      var i, j := EndpointAt(h, p, first, userId, appId, k);
    }
  }

  /** Sensor/actuator binding, from the devices' side: every patient device has an attached pair. */
  lemma PatientsBound(h: nat, p: nat, first: nat, userId: int, appId: string)
    ensures var ds, ss, acts := Devices(h, p, first), Sensors(h, p, first, userId, appId), Actuators(h, p, first, userId, appId);
      forall m :: 0 <= m < |ds| && ds[m].level == 3 ==>
        exists k :: 0 <= k < |ss| && k < |acts| && Attached(ds[m], ss[k], acts[k])
  {
    var ds, ss, acts := Devices(h, p, first), Sensors(h, p, first, userId, appId), Actuators(h, p, first, userId, appId);
    forall m | 0 <= m < |ds| && ds[m].level == 3
      ensures exists k :: 0 <= k < |ss| && k < |acts| && Attached(ds[m], ss[k], acts[k])
    {
      var k := PatientEndpoints(h, p, first, userId, appId, m);
    }
  }

  /** A patient device has only one attached pair. */
  lemma AttachmentUnique(h: nat, p: nat, first: nat, userId: int, appId: string)
    ensures var ds, ss, acts := Devices(h, p, first), Sensors(h, p, first, userId, appId), Actuators(h, p, first, userId, appId);
      forall m, k1, k2 ::
        (0 <= m < |ds| && 0 <= k1 < |ss| && 0 <= k2 < |ss| && k1 < |acts| && k2 < |acts|
         && Attached(ds[m], ss[k1], acts[k1]) && Attached(ds[m], ss[k2], acts[k2])) ==> k1 == k2
  {
    var ds, ss, acts := Devices(h, p, first), Sensors(h, p, first, userId, appId), Actuators(h, p, first, userId, appId);
    forall m, k1, k2 | 0 <= m < |ds| && 0 <= k1 < |ss| && 0 <= k2 < |ss| && k1 < |acts| && k2 < |acts|
        && Attached(ds[m], ss[k1], acts[k1]) && Attached(ds[m], ss[k2], acts[k2])
      ensures k1 == k2
    {
      EndpointIndexByName(h, p, first, userId, appId, k1, k2);
    }
  }

  // ---- ids ----

  /** Two endpoint positions: distinct positions have distinct ids and distinct gateways. */
  lemma EndpointPair(h: nat, p: nat, first: nat, userId: int, appId: string, k1: nat, k2: nat)
    requires k1 < |Sensors(h, p, first, userId, appId)| && k2 < |Sensors(h, p, first, userId, appId)|
    ensures var ss, acts := Sensors(h, p, first, userId, appId), Actuators(h, p, first, userId, appId);
      && |acts| == |ss|
      && (ss[k1].id == ss[k2].id ==> k1 == k2)
      && (acts[k1].id == acts[k2].id ==> k1 == k2)
      && (ss[k1].gatewayId == ss[k2].gatewayId ==> k1 == k2)
      && ss[k1].id != acts[k2].id
  {
    var ss, acts := Sensors(h, p, first, userId, appId), Actuators(h, p, first, userId, appId);
    var i1, j1 := EndpointAt(h, p, first, userId, appId, k1);
    var i2, j2 := EndpointAt(h, p, first, userId, appId, k2);
    var span := HospitalSpan(p);
    if ss[k1].id == ss[k2].id || acts[k1].id == acts[k2].id || ss[k1].gatewayId == ss[k2].gatewayId {
      StrideUnique(i1, 1 + 3 * j1, i2, 1 + 3 * j2, span);
      StrideUnique(i1, j1, i2, j2, p);
    }
    if ss[k1].id == acts[k2].id {
      StrideUnique(i1, 2 + 3 * j1, i2, 3 + 3 * j2, span);
    }
  }

  /** Device `m` and sensor `k` have different ids. */
  lemma DeviceSensorIds(h: nat, p: nat, first: nat, userId: int, appId: string, m: nat, k: nat)
    requires m < |Devices(h, p, first)| && k < |Sensors(h, p, first, userId, appId)|
    ensures Devices(h, p, first)[m].id != Sensors(h, p, first, userId, appId)[k].id
  {
    var ds, ss := Devices(h, p, first), Sensors(h, p, first, userId, appId);
    var i, j := EndpointAt(h, p, first, userId, appId, k);
    if m < 2 {
      TopAt(h, p, first);
    } else {
      var i', r := DeviceAt(h, p, first, m);
      if ds[m].id == ss[k].id {
        StrideUnique(i', if r == 0 then 0 else 1 + 3 * (r - 1), i, 2 + 3 * j, HospitalSpan(p));
      }
    }
  }

  /** Device `m` and actuator `k` have different ids. */
  lemma DeviceActuatorIds(h: nat, p: nat, first: nat, userId: int, appId: string, m: nat, k: nat)
    requires m < |Devices(h, p, first)| && k < |Actuators(h, p, first, userId, appId)|
    ensures Devices(h, p, first)[m].id != Actuators(h, p, first, userId, appId)[k].id
  {
    var ds, acts := Devices(h, p, first), Actuators(h, p, first, userId, appId);
    EndpointsLength(h, p, first + 2, userId, appId);
    var i, j := EndpointAt(h, p, first, userId, appId, k);
    if m < 2 {
      TopAt(h, p, first);
    } else {
      var i', r := DeviceAt(h, p, first, m);
      if ds[m].id == acts[k].id {
        StrideUnique(i', if r == 0 then 0 else 1 + 3 * (r - 1), i, 3 + 3 * j, HospitalSpan(p));
      }
    }
  }

  /** Every sensor and actuator id lies within the ids the topology consumes. */
  lemma EndpointIdsInRange(h: nat, p: nat, first: nat, userId: int, appId: string)
    ensures var ss, acts := Sensors(h, p, first, userId, appId), Actuators(h, p, first, userId, appId);
      && |acts| == |ss|
      && forall k :: 0 <= k < |ss| ==>
           first <= ss[k].id < first + IdsConsumed(h, p) && first <= acts[k].id < first + IdsConsumed(h, p)
  {
    var ss, acts := Sensors(h, p, first, userId, appId), Actuators(h, p, first, userId, appId);
    EndpointsLength(h, p, first + 2, userId, appId);
    forall k | 0 <= k < |ss|
      ensures first <= ss[k].id < first + IdsConsumed(h, p) && first <= acts[k].id < first + IdsConsumed(h, p)
    {
      var i, j := EndpointAt(h, p, first, userId, appId, k);
      if i + 1 < h {
        StrideLess(i + 1, h, HospitalSpan(p), 0);
      }
    }
  }

  /** No two sensors share an id or a gateway. */
  lemma SensorIdsDistinct(h: nat, p: nat, first: nat, userId: int, appId: string)
    ensures var ss := Sensors(h, p, first, userId, appId);
      forall k1, k2 :: 0 <= k1 < k2 < |ss| ==> ss[k1].id != ss[k2].id && ss[k1].gatewayId != ss[k2].gatewayId
  {
    var ss := Sensors(h, p, first, userId, appId);
    forall k1, k2 | 0 <= k1 < k2 < |ss|
      ensures ss[k1].id != ss[k2].id && ss[k1].gatewayId != ss[k2].gatewayId
    {
      EndpointPair(h, p, first, userId, appId, k1, k2);
    }
  }

  /** No two actuators share an id. */
  lemma ActuatorIdsDistinct(h: nat, p: nat, first: nat, userId: int, appId: string)
    ensures var acts := Actuators(h, p, first, userId, appId);
      forall k1, k2 :: 0 <= k1 < k2 < |acts| ==> acts[k1].id != acts[k2].id
  {
    var acts := Actuators(h, p, first, userId, appId);
    EndpointsLength(h, p, first + 2, userId, appId);
    forall k1, k2 | 0 <= k1 < k2 < |acts|
      ensures acts[k1].id != acts[k2].id
    {
      EndpointPair(h, p, first, userId, appId, k1, k2);
    }
  }

  /** No sensor id is an actuator id. */
  lemma SensorActuatorIdsApart(h: nat, p: nat, first: nat, userId: int, appId: string)
    ensures var ss, acts := Sensors(h, p, first, userId, appId), Actuators(h, p, first, userId, appId);
      && |acts| == |ss|
      && forall k1, k2 :: 0 <= k1 < |ss| && 0 <= k2 < |ss| ==> ss[k1].id != acts[k2].id
  {
    var ss, acts := Sensors(h, p, first, userId, appId), Actuators(h, p, first, userId, appId);
    EndpointsLength(h, p, first + 2, userId, appId);
    forall k1, k2 | 0 <= k1 < |ss| && 0 <= k2 < |ss|
      ensures ss[k1].id != acts[k2].id
    {
      EndpointPair(h, p, first, userId, appId, k1, k2);
    }
  }

  /** No device shares an id with a sensor. */
  lemma DevicesApartFromSensors(h: nat, p: nat, first: nat, userId: int, appId: string)
    ensures var ds, ss := Devices(h, p, first), Sensors(h, p, first, userId, appId);
      forall m, k :: 0 <= m < |ds| && 0 <= k < |ss| ==> ds[m].id != ss[k].id
  {
    var ds, ss := Devices(h, p, first), Sensors(h, p, first, userId, appId);
    forall m, k | 0 <= m < |ds| && 0 <= k < |ss|
      ensures ds[m].id != ss[k].id
    {
      DeviceSensorIds(h, p, first, userId, appId, m, k);
    }
  }

  /** No device shares an id with an actuator. */
  lemma DevicesApartFromActuators(h: nat, p: nat, first: nat, userId: int, appId: string)
    ensures var ds, acts := Devices(h, p, first), Actuators(h, p, first, userId, appId);
      forall m, k :: 0 <= m < |ds| && 0 <= k < |acts| ==> ds[m].id != acts[k].id
  {
    var ds, acts := Devices(h, p, first), Actuators(h, p, first, userId, appId);
    forall m, k | 0 <= m < |ds| && 0 <= k < |acts|
      ensures ds[m].id != acts[k].id
    {
      DeviceActuatorIds(h, p, first, userId, appId, m, k);
    }
  }

}
