# Healthcare fog scenario: a verified model

This project models how the iFogSim healthcare scenario (`HealthCare.java`) sets up its simulation. The scenario does four things:

- **Physical topology.** It builds one `cloud`, one `proxy_server` under it, a router `d-i` for each hospital under the proxy, and a patient device `m-i-j` for each patient under that hospital's router. Each device gets a level, a parent id and an uplink latency.
- **Endpoints.** Each patient device gets a sensor `s-i-j` and an actuator `ptz-i-j`, both bound to that device as their gateway.
- **Application.** It defines the "healthcare" application graph. The modules are `patient_data` and `check_for_emergency`. It has three edges, two tuple mappings and one loop.
- **Module mapping.** It fixes modules on devices by the first letter of each device name. In the cloud deployment it also fixes both modules on the cloud.

The three process-wide lists `fogNodes`, `sensors` and `actuators` become fields of a builder object, `TopologyBuilder.FogScenario`. `createfogNodes`, `addHospital` and `addPatient` become its methods. The hospital loop of `createfogNodes` (lines 129-131) sits in its own method `AddHospitals`, and the patient loop of `addHospital` (lines 138-143) in `AddPatients`; `addPatient` has no loop.

- A setter applied to a device that is already in a list becomes an update of that list entry. Examples are the router's uplink latency and parent, and a sensor's gateway and latency.
- Every entity takes the next id from one counter, `nextId`. The simulation kernel hands out ids in creation order, so each method's contract states exactly which ids it consumes.
- Each method is proved to leave the lists equal to a function of the `Topology` module: `Devices`, `Sensors`, `Actuators`.
- The module `TopologyFacts` proves what the scenario promises about those lists: counts, order, tree shape, latencies, unique names, sensor and actuator binding, and distinct ids.

The application is a constant value, `Workflow.CreateApplication`. The module mapping is a `Placement.ModuleMapping` object whose set of (module, device) pins is filled by two loops over the device list. `HealthCare.BuildScenario` runs all of this for any number of hospitals and patients, and `HealthCare.Setup` for the configured 10 hospitals × 10 patients, at the edge.

The code has no role tags and raises no configuration, duplicate-definition or unmapped-module errors, so the model has none; the role-based rule appears only as the corrected half of the finding below.

## Model

| member | source | states |
|---|---|---|
| Names.NatToString | HealthCare.java:130 | the decimal rendering `i + ""` is a non-empty string of digits, one digit long exactly for indices below 10 |
| Names.NatToStringInjective | HealthCare.java:130 | different hospital or patient indices render as different strings |
| Names.MobileIdInjective | HealthCare.java:139 | the mobile id `id + "-" + i` determines both indices, because the single "-" marks where the hospital index ends |
| Names.MobileId | HealthCare.java:139 | defines the mobile id `id + "-" + i` of patient i of hospital `id`; `MobileIdInjective` is its property |
| Names.Render | HealthCare.java:122-149 | defines the name of each kind of device: `cloud` (122), `proxy_server` (125), `d-i` (135) and `m-i-j` (149); `RenderInjective` and `RenderPrefixes` are its properties |
| Names.StartsWith | HealthCare.java:73-80 | Java's `String.startsWith`: the prefix is no longer than the name and equals its first characters |
| Names.RenderInjective | HealthCare.java:122-149 | the cloud, the proxy, each router `d-i` and each patient device `m-i-j` get pairwise different names |
| Names.RenderPrefixes | HealthCare.java:73-80 | of the generated names, "p" starts only `proxy_server`, "h" starts none, "m" starts exactly the patient devices and "d" exactly the routers |
| Topology.Devices | HealthCare.java:121-160 | the device list the builder leaves: the cloud, the proxy, then for each hospital in order its router and its patients in order; every builder postcondition points to it and `TopologyFacts` proves its properties |
| Topology.Sensors | HealthCare.java:148-160 | the sensor list the builder leaves: one per patient, hospital by hospital, each with the id after its device's |
| Topology.Actuators | HealthCare.java:148-160 | the actuator list the builder leaves: one per patient, hospital by hospital, each with the second id after its device's |
| TopologyBuilder.FogScenario.constructor | HealthCare.java:40-44 | the three lists start empty, with the configured hospital and patient counts and the kernel's next free id |
| TopologyBuilder.FogScenario.CreateFogDevice | HealthCare.java:175-226 | a new device has the next id, the given name, level, MIPS, RAM and bandwidths, no parent yet and uplink latency 0 |
| TopologyBuilder.FogScenario.NewSensor | HealthCare.java:151 | a new sensor has the next id, its name, tuple type, user and application, and no gateway or latency yet |
| TopologyBuilder.FogScenario.NewActuator | HealthCare.java:153 | a new actuator has the next id, its name, user, application and type, and no gateway or latency yet |
| TopologyBuilder.FogScenario.AddPatient | HealthCare.java:148-160 | takes three ids in order: device `m-id` (parent set, latency still 0; returned, not appended), then sensor `s-id` and actuator `ptz-id` (each appended and bound to the device at latency 1); nothing else changes |
| TopologyBuilder.FogScenario.AddPatients | HealthCare.java:138-143 | the patient loop appends patients 0 … P-1 of the hospital in order (latency 2, parent the router), their sensors and their actuators, three ids each |
| TopologyBuilder.FogScenario.AddHospital | HealthCare.java:134-146 | the device list grows by the hospital's block: router `d-id` (latency 2, parent the proxy), then its patients `m-id-0` … in order; the sensor and actuator lists grow by the matching rows; the router returned is the one in the list; the hospital consumes 1 + 3P ids |
| TopologyBuilder.FogScenario.AddCloudAndProxy | HealthCare.java:122-128 | appends the cloud (parent -1) and then the proxy (parent the cloud, latency 100), taking two ids |
| TopologyBuilder.FogScenario.AddHospitals | HealthCare.java:129-131 | the hospital loop appends hospitals 0 … H-1 in order under the proxy, with their sensors and actuators |
| TopologyBuilder.FogScenario.CreateFogNodes | HealthCare.java:121-132 | the lists become exactly `Devices`, `Sensors` and `Actuators` appended to what they held, and 2 + H(1 + 3P) ids are consumed |
| TopologyFacts.PatientRowAt | HealthCare.java:138-150 | patient j of a hospital whose router has id b is device `m-id-j` with id b + 1 + 3j and parent the router |
| TopologyFacts.SensorRowAt | HealthCare.java:151-156 | patient j's sensor takes the id after its device and has that device as gateway |
| TopologyFacts.ActuatorRowAt | HealthCare.java:153-158 | patient j's actuator takes the second id after its device and has that device as gateway |
| TopologyFacts.HospitalsRouterAt | HealthCare.java:129-137 | in the hospitals part, block i starts with router `d-i`, whose id is hospital i's base id |
| TopologyFacts.HospitalsPatientAt | HealthCare.java:138-142 | offset 1 + j of block i is `m-i-j` under `d-i` |
| TopologyFacts.HospitalsSensorAt | HealthCare.java:151-152 | sensor i·P + j is that of patient j of hospital i |
| TopologyFacts.HospitalsActuatorAt | HealthCare.java:153-154 | actuator i·P + j is that of patient j of hospital i |
| TopologyFacts.Counts | HealthCare.java:121-160 | there are 2 + H(1+P) devices, H·P sensors and H·P actuators; with no hospital only the cloud and the proxy exist |
| TopologyFacts.TopAt | HealthCare.java:122-128 | the device list opens with the cloud and then the proxy |
| TopologyFacts.RouterOrder | HealthCare.java:129-136 | router `d-i` sits at position 2 + i(1+P), parent the proxy |
| TopologyFacts.PatientOrder | HealthCare.java:136-142 | `m-i-j` sits immediately after `d-i` and the previous patients, parent `d-i` |
| TopologyFacts.SensorOrder | HealthCare.java:151-156 | sensor i·P + j is `s-i-j`, with the id after device `m-i-j` and that device as gateway |
| TopologyFacts.ActuatorOrder | HealthCare.java:153-158 | actuator i·P + j is `ptz-i-j`, with the second id after device `m-i-j` and that device as gateway |
| TopologyFacts.EndpointOrder | HealthCare.java:151-158 | sensor and actuator i·P + j are `s-i-j` and `ptz-i-j`, with ids right after device `m-i-j` and that device as gateway |
| TopologyFacts.HospitalBaseValue | HealthCare.java:129-142 | hospital i's router has id start + i(1 + 3P) |
| TopologyFacts.DeviceAt | HealthCare.java:129-142 | every device after the proxy is a router or a patient device of exactly one hospital block |
| TopologyFacts.EndpointAt | HealthCare.java:151-158 | every sensor and actuator position belongs to one patient of one hospital |
| TopologyFacts.TreeShape | HealthCare.java:122-150 | the cloud is level 0 with parent -1 and the only root; every other device's parent is an earlier device one level above it |
| TopologyFacts.LevelsAndLatencies | HealthCare.java:122-141 | levels are 0 for the cloud only, 1 for the proxy only, and 2 or 3 otherwise; uplink latency is 0 on the cloud, 100 on the proxy and 2 on routers and patient devices |
| TopologyFacts.DeviceIdInRange | HealthCare.java:129-149 | every router and patient device has an id after the proxy's and within the ids the topology consumes |
| TopologyFacts.DeviceIdOrder | HealthCare.java:129-149 | of two hospital devices, the later in the list has the larger id |
| TopologyFacts.DeviceIdsIncrease | HealthCare.java:121-160 | device ids strictly increase along the list and stay within the ids the topology consumes |
| TopologyFacts.NameAt | HealthCare.java:122-149 | each device carries the name of one generated kind and sits at that kind's position |
| TopologyFacts.RouterNamePresent | HealthCare.java:129-135 | router `d-i` is present for every i < H |
| TopologyFacts.PatientNamePresent | HealthCare.java:138-149 | `m-i-j` is present for every i < H and j < P |
| TopologyFacts.NamePresent | HealthCare.java:122-149 | every generated kind (cloud, proxy, `d-i` for i < H, `m-i-j` for j < P) is present under its name |
| TopologyFacts.DeviceNames | HealthCare.java:122-149 | a name occurs in the device list if and only if it is a generated name |
| TopologyFacts.DeviceNamesDistinct | HealthCare.java:130-149 | no two devices share a name |
| TopologyFacts.EndpointIndexByName | HealthCare.java:139-153 | a sensor's name, and likewise an actuator's, determines its position |
| TopologyFacts.SensorNamesDistinct | HealthCare.java:151 | no two sensors share a name |
| TopologyFacts.ActuatorNamesDistinct | HealthCare.java:153 | no two actuators share a name |
| TopologyFacts.EndpointNamesDistinct | HealthCare.java:151-153 | no two sensors share a name and no two actuators do |
| TopologyFacts.PatientAttached | HealthCare.java:148-158 | the device, sensor and actuator one `addPatient` call makes are attached: names `m-X`, `s-X`, `ptz-X`, types PATIENT and PTZ_CONTROL, the device as gateway, latency 1 |
| TopologyFacts.EndpointAttached | HealthCare.java:151-158 | sensor and actuator k are attached to the same patient device |
| TopologyFacts.PatientEndpoints | HealthCare.java:151-158 | each patient device has an attached sensor/actuator pair |
| TopologyFacts.EndpointsBound | HealthCare.java:151-158 | sensors and actuators pair up by position; each pair belongs to the scenario's user and application and is attached to a level-3 device |
| TopologyFacts.PatientsBound | HealthCare.java:148-158 | every level-3 device has an attached pair |
| TopologyFacts.AttachmentUnique | HealthCare.java:151-153 | a patient device has only one attached pair |
| TopologyFacts.EndpointPair | HealthCare.java:151-157 | distinct endpoint positions have distinct sensor ids, actuator ids and gateways, and no sensor id is an actuator id |
| TopologyFacts.DeviceSensorIds | HealthCare.java:149-151 | a device and a sensor never share an id |
| TopologyFacts.DeviceActuatorIds | HealthCare.java:149-153 | a device and an actuator never share an id |
| TopologyFacts.EndpointIdsInRange | HealthCare.java:151-153 | every sensor and actuator id lies within the ids the topology consumes |
| TopologyFacts.SensorIdsDistinct | HealthCare.java:151-155 | no two sensors share an id or a gateway |
| TopologyFacts.ActuatorIdsDistinct | HealthCare.java:153 | no two actuators share an id |
| TopologyFacts.SensorActuatorIdsApart | HealthCare.java:151-153 | no sensor id is an actuator id |
| TopologyFacts.DevicesApartFromSensors | HealthCare.java:149-151 | no device shares an id with any sensor |
| TopologyFacts.DevicesApartFromActuators | HealthCare.java:149-153 | no device shares an id with any actuator |
| Workflow.CreateApplication | HealthCare.java:235-258 | the application has this id and user, modules exactly `patient_data` and `check_for_emergency` (RAM 10), 3 edges, 2 tuple mappings and the one loop PATIENT → patient_data → check_for_emergency → PTZ_CONTROL |
| Workflow.ApplicationModules | HealthCare.java:241-243 | the two modules have distinct names, and neither tuple endpoint type PATIENT nor PTZ_CONTROL is a module |
| Workflow.ApplicationEdgesFit | HealthCare.java:243-246 | each edge's direction fits its kind (sensor and module edges UP, actuator edge DOWN); the sensor edge goes into a module, the module edge joins two modules, the actuator edge leaves a module |
| Workflow.ApplicationLoopFollowsEdges | HealthCare.java:243-256 | each consecutive pair of the loop is an edge |
| Workflow.ApplicationMappingsFollowEdges | HealthCare.java:243-250 | each tuple mapping belongs to a module, reads the tuple type of an edge into it and writes that of an edge out of it |
| Workflow.ApplicationModulesMappedOnce | HealthCare.java:241-250 | every module has exactly one tuple mapping |
| Workflow.ApplicationWellFormed | HealthCare.java:235-258 | the application graph is well formed: all five facts above together |
| Workflow.EndpointsMatchApplication | HealthCare.java:243-246 | every sensor's tuple type is the source of the sensor edge, and every actuator's type the destination of the actuator edge |
| Placement.ModuleMapping.constructor | HealthCare.java:71 | a new mapping has no pins |
| Placement.ModuleMapping.AddModuleToDevice | HealthCare.java:74 | adds exactly the pair (module, device) |
| Placement.PrefixPins | HealthCare.java:72-85 | defines the pins one prefix loop makes: its module on each listed device whose name starts with the prefix; `PrefixPinsMembership` is its property |
| Placement.ModuleMappingOf | HealthCare.java:71-96 | defines the mapping as written: the "p" pins of `patient_data`, the "h" pins of `check_for_emergency`, and the two cloud pins in the cloud deployment; `MapModules` builds it and `MappingOnTopology` evaluates it |
| Placement.PrefixPinsMembership | HealthCare.java:72-85 | a prefix rule pins its module on a device if and only if the device is listed and its name starts with the prefix |
| Placement.PinByPrefix | HealthCare.java:72-78 | the loop adds exactly the prefix rule's pins to the mapping |
| Placement.MapModules | HealthCare.java:71-96 | the mapping is the "p" rule's pins of `patient_data`, plus the "h" rule's pins of `check_for_emergency`, plus both modules on `cloud` when the cloud deployment is chosen |
| Placement.GeneratedPrefixPins | HealthCare.java:72-85 | over the built topology a prefix rule pins exactly the generated names with that prefix |
| Placement.MappingOnTopology | HealthCare.java:71-96 | over the built topology the mapping as written is `{(patient_data, proxy_server)}` plus the cloud pins |
| Placement.EdgeMappingOnTopology | HealthCare.java:71-96 | without the cloud deployment, the mapping is exactly `{(patient_data, proxy_server)}` |
| Placement.PrefixRulesMissTheirDevices | HealthCare.java:73-81 | with at least one patient, `m-0-0` (device 3) gets no `patient_data` and no device gets `check_for_emergency` |
| Placement.ModuleMappingByRole | HealthCare.java:72-96 | defines the mapping the rules' comments describe: prefix "m" for `patient_data`, "d" for `check_for_emergency`, plus the cloud pins; `RoleMappingOnTopology` evaluates it |
| Placement.PatientPinOnTopology | HealthCare.java:73-76 | with prefix "m", a pin is made if and only if it is `patient_data` on some `m-i-j` with i < H and j < P |
| Placement.RouterPinOnTopology | HealthCare.java:79-82 | with prefix "d", a pin is made if and only if it is `check_for_emergency` on some `d-i` with i < H |
| Placement.RolePinOnTopology | HealthCare.java:72-85 | with prefixes "m" and "d", a pin is in the mapping if and only if it is `patient_data` on some `m-i-j` or `check_for_emergency` on some `d-i`, or a cloud pin |
| Placement.RoleMappingOnTopology | HealthCare.java:72-85 | the same, for every pin at once |
| Placement.PrefixPinsCardinality | HealthCare.java:72-85 | when device names are distinct, a prefix rule makes one pin per matching device |
| Placement.RowCounts | HealthCare.java:138-142 | all of a hospital's patient devices match "m" and none match "d" |
| Placement.BlockCounts | HealthCare.java:135-142 | a hospital block has P devices matching "m" and one, its router, matching "d" |
| Placement.HospitalsPatientCount | HealthCare.java:129-142 | in the hospitals part, H·P devices match "m" |
| Placement.HospitalsRouterCount | HealthCare.java:129-142 | in the hospitals part, H devices match "d" |
| Placement.TopCounts | HealthCare.java:122-128 | neither the cloud nor the proxy matches "m" or "d" |
| Placement.PatientDeviceCount | HealthCare.java:121-142 | H·P devices match "m" |
| Placement.RouterCount | HealthCare.java:121-142 | H devices match "d" |
| Placement.RolePlacementCounts | HealthCare.java:72-85 | the rule by role makes H·P pins of `patient_data` and H pins of `check_for_emergency` |
| HealthCare.ConfiguredScenario | HealthCare.java:43-46 | with 10 hospitals of 10 patients: 112 devices, 100 sensors and 100 actuators; at the edge the mapping is only `(patient_data, proxy_server)` |
| HealthCare.ConfiguredRoleMapping | HealthCare.java:43-44 | with the rule by role the configured topology would get 100 `patient_data` pins and 10 `check_for_emergency` pins |
| HealthCare.BuildScenario | HealthCare.java:60-96 | for any counts: the application for the broker's user, the topology from the kernel's next id as exactly `Devices`/`Sensors`/`Actuators`, and the mapping as written over the built devices |
| HealthCare.Setup | HealthCare.java:60-96 | the scenario builds the application for the broker's user, the topology from the kernel's next id, and the mapping over the built devices; the results are the functions above, with counts 112/100/100 and mapping `{(patient_data, proxy_server)}` |

## Left out

- The simulation kernel and controller are left out: `CloudSim.init`, `startSimulation` and `stopSimulation`, the broker, `Controller`, `submitApplication`, and the placement algorithms `ModulePlacementEdgewards` and `ModulePlacementMapping`. They are engine code outside this file. The broker's id and the kernel's next free entity id are parameters of `HealthCare.Setup`.
- Inside `createFogDevice`, the PE, host, provisioners, scheduler, power model, characteristics, storage list, cost and power doubles and `ratePerMips` are not modelled. They are library wrappers and floating-point values with no effect on the topology's structure. The host ids drawn from `FogUtils.generateEntityId` are a separate counter and are not modelled either.
- Entity ids are assumed to be consecutive in creation order. That is how the kernel numbers its entities; the kernel is not part of this model.
- `ModuleMapping.addModuleToDevice` is modelled as adding a (module, device) pair to a set. Its library implementation is not part of this model; a set of pairs is the assumption.
- Selectivity is kept as the constant 1.0. The sensor's `DeterministicDistribution(5)` inter-arrival distribution is not modelled: it only drives the engine's timing.
- Hospital and patient counts are natural numbers. With a negative count, Java's loops simply do not run; those counts are not modelled.
- Java `int` overflow of ids and counts is not modelled. The configured scenario uses a few hundred ids.
- Logging, `Calendar` and `TimeKeeper`, and the catch-all exception handler in `main` are left out as process concerns.
- Timing of the cloud deployment is not modelled. Its two pins are added to the same mapping object after the first `submitApplication`; the model includes them in the mapping but not that timing, and so not what the first controller saw.
- Setters on list entries are modelled by value. Java objects in the lists are shared with the local variables that hold them; the model updates the list entry instead, so it does not capture that sharing.
- Workflow.CreateApplication: its contract and the `Application…` lemmas state the structure (modules, edge directions and kinds, loop, tuple mappings). They do not state the tuple CPU and network lengths or the periodicity, which the body sets to the source's values.

## Findings

| source | as written | input that shows it | evidently intended | confidence | as-written member | corrected member |
|---|---|---|---|---|---|---|
| HealthCare.java:73-81 | `patient_data` is pinned on devices whose name starts with "p" and `check_for_emergency` on names starting with "h"; the builder names devices `cloud`, `proxy_server`, `d-i` and `m-i-j` | the configured 10 × 10 topology: `m-0-0` gets no `patient_data`, and no device gets `check_for_emergency`; the mapping is `{(patient_data, proxy_server)}` | as the comments beside the rules say, `patient_data` on every patient device (`m-…`) and `check_for_emergency` on every hospital's fog node (`d-…`) | not executed | Placement.PrefixRulesMissTheirDevices | Placement.RoleMappingOnTopology |
