/**
 * The scenario builder: the three process-wide lists of HealthCare.java become fields of
 * one object, and createfogNodes, addHospital and addPatient become its methods. Each
 * method is proved to leave the lists as the corresponding function of the Topology
 * module describes.
 */
module TopologyBuilder {
  import opened Wrappers
  import opened Names
  import opened Topology

  class FogScenario {
    const numOfHospitals: nat
    const numOfPatientsPerHospital: nat
    var fogNodes: seq<Device>
    var sensors: seq<Sensor>
    var actuators: seq<Actuator>
    /** The next id the simulation kernel hands out to a new entity. */
    var nextId: nat

    constructor (numOfHospitals: nat, numOfPatientsPerHospital: nat, firstId: nat)
      ensures this.numOfHospitals == numOfHospitals
      ensures this.numOfPatientsPerHospital == numOfPatientsPerHospital
      ensures fogNodes == [] && sensors == [] && actuators == []
      ensures nextId == firstId
    {
      this.numOfHospitals := numOfHospitals;
      this.numOfPatientsPerHospital := numOfPatientsPerHospital;
      fogNodes, sensors, actuators := [], [], [];
      nextId := firstId;
    }

    /** A fresh device record: the next id, no parent yet, uplink latency 0. */
    method CreateFogDevice(nodeName: string, mips: nat, ram: nat, upBw: nat, downBw: nat, level: nat)
      returns (device: Device)
      modifies this`nextId
      ensures device == Device(old(nextId), nodeName, level, mips, ram, upBw, downBw, None, 0.0)
      ensures nextId == old(nextId) + 1
    {
      device := Device(nextId, nodeName, level, mips, ram, upBw, downBw, None, 0.0);
      nextId := nextId + 1;
    }

    /** A fresh sensor with the next id, not yet bound to a gateway. */
    method NewSensor(name: string, tupleType: string, userId: int, appId: string) returns (sensor: Sensor)
      modifies this`nextId
      ensures sensor == Sensor(old(nextId), name, tupleType, userId, appId, None, None)
      ensures nextId == old(nextId) + 1
    {
      sensor := Sensor(nextId, name, tupleType, userId, appId, None, None);
      nextId := nextId + 1;
    }

    /** A fresh actuator with the next id, not yet bound to a gateway. */
    method NewActuator(name: string, userId: int, appId: string, actuatorType: string) returns (actuator: Actuator)
      modifies this`nextId
      ensures actuator == Actuator(old(nextId), name, userId, appId, actuatorType, None, None)
      ensures nextId == old(nextId) + 1
    {
      actuator := Actuator(nextId, name, userId, appId, actuatorType, None, None);
      nextId := nextId + 1;
    }

    /**
     * Creates patient device "m-id" under `parentId`, appends its sensor "s-id" and its
     * actuator "ptz-id", and binds both to the device. The device itself is returned, not
     * appended; its uplink latency is still the constructor's 0.
     */
    method AddPatient(id: string, userId: int, appId: string, parentId: int) returns (patient: Device)
      modifies this`sensors, this`actuators, this`nextId
      ensures patient == PatientNode(id, old(nextId), parentId).(uplinkLatency := 0.0)
      ensures sensors == old(sensors) + [PatientSensor(id, old(nextId) + 1, old(nextId), userId, appId)]
      ensures actuators == old(actuators) + [PatientActuator(id, old(nextId) + 2, old(nextId), userId, appId)]
      ensures nextId == old(nextId) + 3
    {
      patient := CreateFogDevice("m-" + id, 500, 1000, 10000, 10000, 3);
      patient := patient.(parentId := Some(parentId));
      var sensor := NewSensor("s-" + id, SensorType, userId, appId);
      sensors := sensors + [sensor];
      var ptz := NewActuator("ptz-" + id, userId, appId, ActuatorType);
      actuators := actuators + [ptz];
      // the sensor and the actuator are already in their lists when they are bound
      var s, a := |sensors| - 1, |actuators| - 1;
      sensors := sensors[s := sensors[s].(gatewayId := Some(patient.id))];
      sensors := sensors[s := sensors[s].(latency := Some(EndpointLatency))];
      actuators := actuators[a := actuators[a].(gatewayId := Some(patient.id))];
      actuators := actuators[a := actuators[a].(latency := Some(EndpointLatency))];
    }

    /**
     * Appends router "d-id", then each of its patients "m-id-j" in order, and only then
     * sets the router's parent to `parentId`.
     */
    method AddHospital(id: string, userId: int, appId: string, parentId: int) returns (router: Device)
      modifies this`fogNodes, this`sensors, this`actuators, this`nextId
      ensures router == RouterNode(id, old(nextId), parentId)
      ensures fogNodes == old(fogNodes) + HospitalBlock(id, numOfPatientsPerHospital, old(nextId), parentId)
      ensures sensors == old(sensors) + SensorRow(id, numOfPatientsPerHospital, old(nextId), userId, appId)
      ensures actuators == old(actuators) + ActuatorRow(id, numOfPatientsPerHospital, old(nextId), userId, appId)
      ensures nextId == old(nextId) + HospitalSpan(numOfPatientsPerHospital)
    {
      var r := CreateFogDevice("d-" + id, 2800, 4000, 10000, 10000, 2);
      fogNodes := fogNodes + [r];
      var at := |fogNodes| - 1;
      fogNodes := fogNodes[at := fogNodes[at].(uplinkLatency := RouterUplinkLatency)];
      ghost var unparented := RouterNode(id, r.id, parentId).(parentId := None);
      assert fogNodes == old(fogNodes) + [unparented];
      AddPatients(id, userId, appId, r.id);
      UpdateAfterPrefix(old(fogNodes), unparented, PatientRow(id, numOfPatientsPerHospital, r.id), unparented.(parentId := Some(parentId)));
      fogNodes := fogNodes[at := fogNodes[at].(parentId := Some(parentId))];
      router := fogNodes[at];
    }

    /**
     * Adds patients 0 .. numOfPatientsPerHospital - 1 of hospital `id` in order, each
     * under the router `routerId`, whose id is the last one handed out.
     */
    method AddPatients(id: string, userId: int, appId: string, routerId: nat)
      requires nextId == routerId + 1
      modifies this`fogNodes, this`sensors, this`actuators, this`nextId
      ensures fogNodes == old(fogNodes) + PatientRow(id, numOfPatientsPerHospital, routerId)
      ensures sensors == old(sensors) + SensorRow(id, numOfPatientsPerHospital, routerId, userId, appId)
      ensures actuators == old(actuators) + ActuatorRow(id, numOfPatientsPerHospital, routerId, userId, appId)
      ensures nextId == PatientId(routerId, numOfPatientsPerHospital)
    {
      var i := 0;
      while i < numOfPatientsPerHospital
        invariant 0 <= i <= numOfPatientsPerHospital
        invariant nextId == PatientId(routerId, i)
        invariant fogNodes == old(fogNodes) + PatientRow(id, i, routerId)
        invariant sensors == old(sensors) + SensorRow(id, i, routerId, userId, appId)
        invariant actuators == old(actuators) + ActuatorRow(id, i, routerId, userId, appId)
      {
        var mobileId := id + "-" + NatToString(i);
        var patient := AddPatient(mobileId, userId, appId, routerId);
        patient := patient.(uplinkLatency := PatientUplinkLatency);
        fogNodes := fogNodes + [patient];
        RowStep(id, i, routerId, userId, appId);
        var device := PatientId(routerId, i);
        AppendAssoc(old(fogNodes), PatientRow(id, i, routerId), [patient]);
        AppendAssoc(old(sensors), SensorRow(id, i, routerId, userId, appId),
                    [PatientSensor(mobileId, device + 1, device, userId, appId)]);
        AppendAssoc(old(actuators), ActuatorRow(id, i, routerId, userId, appId),
                    [PatientActuator(mobileId, device + 2, device, userId, appId)]);
        i := i + 1;
      }
    }

    /**
     * Builds the whole topology: the cloud (parent -1), the proxy under it (uplink
     * latency 100), then the hospitals under the proxy.
     */
    method CreateFogNodes(userId: int, appId: string)
      modifies this`fogNodes, this`sensors, this`actuators, this`nextId
      ensures fogNodes == old(fogNodes) + Devices(numOfHospitals, numOfPatientsPerHospital, old(nextId))
      ensures sensors == old(sensors) + Sensors(numOfHospitals, numOfPatientsPerHospital, old(nextId), userId, appId)
      ensures actuators == old(actuators) + Actuators(numOfHospitals, numOfPatientsPerHospital, old(nextId), userId, appId)
      ensures nextId == old(nextId) + IdsConsumed(numOfHospitals, numOfPatientsPerHospital)
    {
      var proxyId := AddCloudAndProxy();
      AddHospitals(userId, appId, proxyId);
      AppendAssoc(old(fogNodes), [CloudNode(old(nextId)), ProxyNode(proxyId, old(nextId))],
                  HospitalsDevices(numOfHospitals, numOfPatientsPerHospital, old(nextId) + 2, proxyId));
    }

    /** Appends the cloud (parent -1) and the proxy under it (uplink latency 100); returns the proxy's id. */
    method AddCloudAndProxy() returns (proxyId: int)
      modifies this`fogNodes, this`nextId
      ensures fogNodes == old(fogNodes) + [CloudNode(old(nextId)), ProxyNode(old(nextId) + 1, old(nextId))]
      ensures proxyId == old(nextId) + 1 && nextId == old(nextId) + 2
    {
      var cloud := CreateFogDevice(Render(Cloud), 44800, 40000, 100, 10000, 0);
      cloud := cloud.(parentId := Some(-1));
      fogNodes := fogNodes + [cloud];
      var proxy := CreateFogDevice(Render(Proxy), 2800, 4000, 10000, 10000, 1);
      proxy := proxy.(parentId := Some(cloud.id));
      proxy := proxy.(uplinkLatency := ProxyUplinkLatency);
      fogNodes := fogNodes + [proxy];
      proxyId := proxy.id;
    }

    /** Adds hospitals 0 .. numOfHospitals - 1 in order, each under `proxyId`. */
    method AddHospitals(userId: int, appId: string, proxyId: int)
      modifies this`fogNodes, this`sensors, this`actuators, this`nextId
      ensures fogNodes == old(fogNodes) + HospitalsDevices(numOfHospitals, numOfPatientsPerHospital, old(nextId), proxyId)
      ensures sensors == old(sensors) + HospitalsSensors(numOfHospitals, numOfPatientsPerHospital, old(nextId), userId, appId)
      ensures actuators == old(actuators) + HospitalsActuators(numOfHospitals, numOfPatientsPerHospital, old(nextId), userId, appId)
      ensures nextId == HospitalBase(old(nextId), numOfHospitals, numOfPatientsPerHospital)
    {
      var p := numOfPatientsPerHospital;
      var start := nextId;
      var i := 0;
      while i < numOfHospitals
        invariant 0 <= i <= numOfHospitals
        invariant nextId == HospitalBase(start, i, p)
        invariant fogNodes == old(fogNodes) + HospitalsDevices(i, p, start, proxyId)
        invariant sensors == old(sensors) + HospitalsSensors(i, p, start, userId, appId)
        invariant actuators == old(actuators) + HospitalsActuators(i, p, start, userId, appId)
      {
        var router := AddHospital(NatToString(i), userId, appId, proxyId);
        HospitalsStep(i, p, start, proxyId, userId, appId);
        var b := HospitalBase(start, i, p);
        AppendAssoc(old(fogNodes), HospitalsDevices(i, p, start, proxyId), HospitalBlock(NatToString(i), p, b, proxyId));
        AppendAssoc(old(sensors), HospitalsSensors(i, p, start, userId, appId), SensorRow(NatToString(i), p, b, userId, appId));
        AppendAssoc(old(actuators), HospitalsActuators(i, p, start, userId, appId), ActuatorRow(NatToString(i), p, b, userId, appId));
        i := i + 1;
      }
    }
  }

  /** One more hospital appends its block, its sensors and its actuators, and its ids. */
  lemma HospitalsStep(i: nat, p: nat, start: nat, proxyId: int, userId: int, appId: string)
    ensures HospitalsDevices(i + 1, p, start, proxyId)
            == HospitalsDevices(i, p, start, proxyId) + HospitalBlock(NatToString(i), p, HospitalBase(start, i, p), proxyId)
    ensures HospitalsSensors(i + 1, p, start, userId, appId)
            == HospitalsSensors(i, p, start, userId, appId) + SensorRow(NatToString(i), p, HospitalBase(start, i, p), userId, appId)
    ensures HospitalsActuators(i + 1, p, start, userId, appId)
            == HospitalsActuators(i, p, start, userId, appId) + ActuatorRow(NatToString(i), p, HospitalBase(start, i, p), userId, appId)
    ensures HospitalBase(start, i + 1, p) == HospitalBase(start, i, p) + HospitalSpan(p)
  {
  }

  /** One more patient appends its device, its sensor and its actuator, and takes three ids. */
  lemma RowStep(hid: string, j: nat, base: nat, userId: int, appId: string)
    ensures PatientRow(hid, j + 1, base) == PatientRow(hid, j, base) + [PatientNode(MobileId(hid, j), PatientId(base, j), base)]
    ensures SensorRow(hid, j + 1, base, userId, appId)
            == SensorRow(hid, j, base, userId, appId) + [PatientSensor(MobileId(hid, j), PatientId(base, j) + 1, PatientId(base, j), userId, appId)]
    ensures ActuatorRow(hid, j + 1, base, userId, appId)
            == ActuatorRow(hid, j, base, userId, appId) + [PatientActuator(MobileId(hid, j), PatientId(base, j) + 2, PatientId(base, j), userId, appId)]
    ensures PatientId(base, j + 1) == PatientId(base, j) + 3
  {
  }

  lemma AppendAssoc<T>(a: seq<T>, b: seq<T>, c: seq<T>)
    ensures (a + b) + c == a + (b + c)
  {
  }

  /** Replacing the element right after a prefix leaves prefix and suffix in place. */
  lemma UpdateAfterPrefix<T>(a: seq<T>, x: T, b: seq<T>, y: T)
    ensures (a + [x] + b)[|a| := y] == a + [y] + b
  {
    assert forall k :: 0 <= k < |a + [y] + b| ==> (a + [x] + b)[|a| := y][k] == (a + [y] + b)[k];
  }
}
