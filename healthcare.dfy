/**
 * The scenario as configured: ten hospitals of ten patients each, deployed at the edge
 * (not in the cloud), running the "healthcare" application for the broker's user.
 */
module HealthCare {
  import opened Names
  import opened Topology
  import opened TopologyBuilder
  import opened TopologyFacts
  import opened Workflow
  import opened Placement

  const NumOfHospitals: nat := 10
  const NumOfPatientsPerHospital: nat := 10
  /** Whether both modules are also pinned on the cloud. */
  const CloudDeployment := false
  const AppId := "healthcare"

  /** The configured topology has 112 devices, 100 sensors and 100 actuators, and its mapping pins only the proxy. */
  lemma ConfiguredScenario(firstId: nat, userId: int)
    ensures |Devices(NumOfHospitals, NumOfPatientsPerHospital, firstId)| == 112
    ensures |Sensors(NumOfHospitals, NumOfPatientsPerHospital, firstId, userId, AppId)| == 100
    ensures |Actuators(NumOfHospitals, NumOfPatientsPerHospital, firstId, userId, AppId)| == 100
    ensures ModuleMappingOf(Devices(NumOfHospitals, NumOfPatientsPerHospital, firstId), CloudDeployment)
            == {Pin(PatientData, "proxy_server")}
  {
    Counts(NumOfHospitals, NumOfPatientsPerHospital, firstId, userId, AppId);
    EdgeMappingOnTopology(NumOfHospitals, NumOfPatientsPerHospital, firstId);
  }

  /**
   * With the rules by role, the configured topology would get 100 pins of `patient_data`,
   * one per patient device, and 10 of `check_for_emergency`, one per router.
   */
  lemma ConfiguredRoleMapping(firstId: nat)
    ensures |PrefixPins(Devices(NumOfHospitals, NumOfPatientsPerHospital, firstId), PatientDevicePrefix, PatientData)| == 100
    ensures |PrefixPins(Devices(NumOfHospitals, NumOfPatientsPerHospital, firstId), RouterPrefix, CheckForEmergency)| == 10
  {
    RolePlacementCounts(NumOfHospitals, NumOfPatientsPerHospital, firstId);
  }

  /**
   * What `main` does before the simulation starts, for `h` hospitals of `p` patients:
   * builds the application for the broker's user, then the topology starting at the
   * kernel's next free id `firstId`, then the module mapping over the built devices.
   */
  method BuildScenario(h: nat, p: nat, cloud: bool, brokerId: int, firstId: nat)
    returns (fogNodes: seq<Device>, sensors: seq<Sensor>, actuators: seq<Actuator>, app: Application, mapping: set<Pin>)
    ensures fogNodes == Devices(h, p, firstId)
    ensures sensors == Sensors(h, p, firstId, brokerId, AppId)
    ensures actuators == Actuators(h, p, firstId, brokerId, AppId)
    ensures app == CreateApplication(AppId, brokerId)
    ensures mapping == ModuleMappingOf(fogNodes, cloud)
  {
    app := CreateApplication(AppId, brokerId);
    app := app.(userId := brokerId);
    var scenario := new FogScenario(h, p, firstId);
    scenario.CreateFogNodes(brokerId, AppId);
    fogNodes, sensors, actuators := scenario.fogNodes, scenario.sensors, scenario.actuators;
    EmptyPrefix(Devices(h, p, firstId));
    EmptyPrefix(Sensors(h, p, firstId, brokerId, AppId));
    EmptyPrefix(Actuators(h, p, firstId, brokerId, AppId));
    var moduleMapping := MapModules(fogNodes, cloud);
    mapping := moduleMapping.pins;
  }

  /**
   * The scenario as configured: 112 devices, 100 sensors and 100 actuators, and, with the
   * names the builder generates, only `patient_data` on the proxy in the mapping.
   */
  method Setup(brokerId: int, firstId: nat)
    returns (fogNodes: seq<Device>, sensors: seq<Sensor>, actuators: seq<Actuator>, app: Application, mapping: set<Pin>)
    ensures fogNodes == Devices(NumOfHospitals, NumOfPatientsPerHospital, firstId)
    ensures sensors == Sensors(NumOfHospitals, NumOfPatientsPerHospital, firstId, brokerId, AppId)
    ensures actuators == Actuators(NumOfHospitals, NumOfPatientsPerHospital, firstId, brokerId, AppId)
    ensures |fogNodes| == 112 && |sensors| == 100 && |actuators| == 100
    ensures app == CreateApplication(AppId, brokerId)
    ensures mapping == ModuleMappingOf(fogNodes, CloudDeployment)
    ensures mapping == {Pin(PatientData, "proxy_server")}
  {
    fogNodes, sensors, actuators, app, mapping := BuildScenario(NumOfHospitals, NumOfPatientsPerHospital, CloudDeployment, brokerId, firstId);
    ConfiguredScenario(firstId, brokerId);
  }

  lemma EmptyPrefix<T>(s: seq<T>)
    ensures [] + s == s
  {
  }
}
