/**
 * The records the scenario builder creates and, as functions, the exact lists it leaves
 * behind: the physical topology (cloud, proxy, one router per hospital, one device per
 * patient) and the sensor and actuator attached to every patient device.
 *
 * Every entity receives its id from the simulation kernel, which hands out consecutive
 * ids in creation order; the builder creates, for hospital i, the router and then, for
 * each patient, the patient device, its sensor and its actuator. So hospital i consumes
 * `HospitalSpan(P)` ids starting at `HospitalBase(start, i, P)`.
 */
module Topology {
  import opened Wrappers
  import opened Names

  /**
   * A fog device as the builder configures it: uplink latency starts at 0 (the value the
   * device constructor is given) and the parent id is unset until a setter fills it.
   */
  datatype Device = Device(
    id: nat,
    name: string,
    level: nat,
    mips: nat,
    ram: nat,
    upBw: nat,
    downBw: nat,
    parentId: Option<int>,
    uplinkLatency: real)

  datatype Sensor = Sensor(
    id: nat,
    name: string,
    tupleType: string,
    userId: int,
    appId: string,
    gatewayId: Option<int>,
    latency: Option<real>)

  datatype Actuator = Actuator(
    id: nat,
    name: string,
    userId: int,
    appId: string,
    actuatorType: string,
    gatewayId: Option<int>,
    latency: Option<real>)

  /** Tuple type emitted by every patient sensor, and type of every actuator. */
  const SensorType := "PATIENT"
  const ActuatorType := "PTZ_CONTROL"

  /** Uplink latencies and endpoint-to-gateway latency set by the builder. */
  const ProxyUplinkLatency := 100.0
  const RouterUplinkLatency := 2.0
  const PatientUplinkLatency := 2.0
  const EndpointLatency := 1.0

  // ---- the final form of each record ----

  function CloudNode(id: nat): (d: Device) {
    Device(id, Render(Cloud), 0, 44800, 40000, 100, 10000, Some(-1), 0.0)
  }

  function ProxyNode(id: nat, cloudId: int): (d: Device) {
    Device(id, Render(Proxy), 1, 2800, 4000, 10000, 10000, Some(cloudId), ProxyUplinkLatency)
  }

  function RouterNode(hid: string, id: nat, proxyId: int): (d: Device) {
    Device(id, "d-" + hid, 2, 2800, 4000, 10000, 10000, Some(proxyId), RouterUplinkLatency)
  }

  function PatientNode(mid: string, id: nat, routerId: int): (d: Device) {
    Device(id, "m-" + mid, 3, 500, 1000, 10000, 10000, Some(routerId), PatientUplinkLatency)
  }

  function PatientSensor(mid: string, id: nat, gatewayId: int, userId: int, appId: string): (s: Sensor) {
    Sensor(id, "s-" + mid, SensorType, userId, appId, Some(gatewayId), Some(EndpointLatency))
  }

  function PatientActuator(mid: string, id: nat, gatewayId: int, userId: int, appId: string): (a: Actuator) {
    Actuator(id, "ptz-" + mid, userId, appId, ActuatorType, Some(gatewayId), Some(EndpointLatency))
  }

  // ---- one hospital ----

  /** Ids one hospital consumes: its router, then three per patient. */
  function HospitalSpan(p: nat): (n: nat) {
    1 + 3 * p
  }

  /** Id of patient `j`'s device in a hospital whose router has id `base`. */
  function PatientId(base: nat, j: nat): (id: nat) {
    base + 1 + 3 * j
  }

  /** The devices of the first `n` patients of hospital `hid`, router id `base`. */
  function PatientRow(hid: string, n: nat, base: nat): (row: seq<Device>)
    decreases n
  {
    if n == 0 then []
    else PatientRow(hid, n - 1, base) + [PatientNode(MobileId(hid, n - 1), PatientId(base, n - 1), base)]
  }

  /** The sensors of the first `n` patients: each created right after its patient device. */
  function SensorRow(hid: string, n: nat, base: nat, userId: int, appId: string): (row: seq<Sensor>)
    decreases n
  {
    if n == 0 then []
    else SensorRow(hid, n - 1, base, userId, appId)
         + [PatientSensor(MobileId(hid, n - 1), PatientId(base, n - 1) + 1, PatientId(base, n - 1), userId, appId)]
  }

  /** The actuators of the first `n` patients: each created right after its sensor. */
  function ActuatorRow(hid: string, n: nat, base: nat, userId: int, appId: string): (row: seq<Actuator>)
    decreases n
  {
    if n == 0 then []
    else ActuatorRow(hid, n - 1, base, userId, appId)
         + [PatientActuator(MobileId(hid, n - 1), PatientId(base, n - 1) + 2, PatientId(base, n - 1), userId, appId)]
  }

  /** A hospital's router followed by its `p` patient devices. */
  function HospitalBlock(hid: string, p: nat, base: nat, proxyId: int): (block: seq<Device>) {
    [RouterNode(hid, base, proxyId)] + PatientRow(hid, p, base)
  }

  // ---- all hospitals ----

  /** Id of hospital `i`'s router when the first router has id `start`. */
  function HospitalBase(start: nat, i: nat, p: nat): (id: nat) {
    start + Stride(i, HospitalSpan(p))
  }

  /** `i * width`, spelled as repeated addition so that proofs stay linear. */
  function Stride(i: nat, width: nat): (n: nat)
    decreases i
  {
    if i == 0 then 0 else Stride(i - 1, width) + width
  }

  function HospitalsDevices(n: nat, p: nat, start: nat, proxyId: int): (ds: seq<Device>)
    decreases n
  {
    if n == 0 then []
    else HospitalsDevices(n - 1, p, start, proxyId)
         + HospitalBlock(NatToString(n - 1), p, HospitalBase(start, n - 1, p), proxyId)
  }

  function HospitalsSensors(n: nat, p: nat, start: nat, userId: int, appId: string): (ss: seq<Sensor>)
    decreases n
  {
    if n == 0 then []
    else HospitalsSensors(n - 1, p, start, userId, appId)
         + SensorRow(NatToString(n - 1), p, HospitalBase(start, n - 1, p), userId, appId)
  }

  function HospitalsActuators(n: nat, p: nat, start: nat, userId: int, appId: string): (acts: seq<Actuator>)
    decreases n
  {
    if n == 0 then []
    else HospitalsActuators(n - 1, p, start, userId, appId)
         + ActuatorRow(NatToString(n - 1), p, HospitalBase(start, n - 1, p), userId, appId)
  }

  // ---- the whole topology, for `h` hospitals of `p` patients, first id `first` ----

  function Devices(h: nat, p: nat, first: nat): (ds: seq<Device>) {
    [CloudNode(first), ProxyNode(first + 1, first)] + HospitalsDevices(h, p, first + 2, first + 1)
  }

  function Sensors(h: nat, p: nat, first: nat, userId: int, appId: string): (ss: seq<Sensor>) {
    HospitalsSensors(h, p, first + 2, userId, appId)
  }

  function Actuators(h: nat, p: nat, first: nat, userId: int, appId: string): (acts: seq<Actuator>) {
    HospitalsActuators(h, p, first + 2, userId, appId)
  }

  /** Ids consumed by the whole topology. */
  function IdsConsumed(h: nat, p: nat): (n: nat) {
    2 + Stride(h, HospitalSpan(p))
  }
}
