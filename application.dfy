/**
 * The application the scenario runs, as a value: a directed graph whose vertices are the
 * processing modules and whose edges carry tuples from the patient sensors through the
 * modules to the PTZ actuators, with the tuple mappings of each module and the one
 * end-to-end loop measured by the simulation.
 */
module Workflow {
  import opened Wrappers
  import opened Topology
  import TopologyFacts

  /** UP is toward the cloud, DOWN toward the actuators. */
  datatype Direction = Up | Down

  /** Where an edge starts or ends: at a sensor, between two modules, or at an actuator. */
  datatype EdgeKind = SensorEdge | ModuleEdge | ActuatorEdge

  datatype AppModule = AppModule(name: string, ram: nat)

  /**
   * An edge from `source` to `destination` carrying tuples of `tupleType`. Only an edge
   * emitted periodically by a module carries a `periodicity`.
   */
  datatype AppEdge = AppEdge(
    source: string,
    destination: string,
    periodicity: Option<real>,
    tupleCpuLength: real,
    tupleNwLength: real,
    tupleType: string,
    direction: Direction,
    kind: EdgeKind)

  /** Module `moduleName` turns tuples of `inputType` into tuples of `outputType`; `selectivity` is the fraction emitted. */
  datatype TupleMapping = TupleMapping(moduleName: string, inputType: string, outputType: string, selectivity: real)

  datatype Application = Application(
    appId: string,
    userId: int,
    modules: seq<AppModule>,
    edges: seq<AppEdge>,
    tupleMappings: seq<TupleMapping>,
    loops: seq<seq<string>>)

  /** The two processing modules. */
  const PatientData := "patient_data"
  const CheckForEmergency := "check_for_emergency"

  /** Tuple type of the module-to-module edge and of the actuator edge. */
  const SlotsTuple := "slots"
  const PtzParamsTuple := "PTZ_PARAMS"

  function ModuleNames(app: Application): (names: seq<string>) {
    seq(|app.modules|, k requires 0 <= k < |app.modules| => app.modules[k].name)
  }

  predicate IsModule(app: Application, name: string) {
    exists k :: 0 <= k < |app.modules| && app.modules[k].name == name
  }

  /** The direction an edge of each kind must have. */
  function DirectionOf(kind: EdgeKind): (d: Direction) {
    if kind == ActuatorEdge then Down else Up
  }

  /**
   * An edge is consistent with its kind: its direction fits, a sensor edge goes from a
   * tuple type into a module, a module edge joins two modules and an actuator edge goes
   * from a module to an actuator type.
   */
  predicate EdgeFits(app: Application, e: AppEdge) {
    && e.direction == DirectionOf(e.kind)
    && (e.kind == SensorEdge ==> !IsModule(app, e.source) && IsModule(app, e.destination) && e.tupleType == e.source)
    && (e.kind == ModuleEdge ==> IsModule(app, e.source) && IsModule(app, e.destination))
    && (e.kind == ActuatorEdge ==> IsModule(app, e.source) && !IsModule(app, e.destination))
  }

  /** Some edge goes from `source` to `destination`. */
  predicate HasEdge(app: Application, source: string, destination: string) {
    exists k :: 0 <= k < |app.edges| && app.edges[k].source == source && app.edges[k].destination == destination
  }

  /** Every consecutive pair of every loop is a registered edge. */
  predicate LoopsFollowEdges(app: Application) {
    forall l, k :: 0 <= l < |app.loops| && 0 <= k < |app.loops[l]| - 1 ==> HasEdge(app, app.loops[l][k], app.loops[l][k + 1])
  }

  /**
   * A tuple mapping consumes the tuple type of an edge into its module and produces the
   * tuple type of an edge out of it.
   */
  predicate MappingFollowsEdges(app: Application, m: TupleMapping) {
    && (exists k :: 0 <= k < |app.edges| && app.edges[k].destination == m.moduleName && app.edges[k].tupleType == m.inputType)
    && (exists k :: 0 <= k < |app.edges| && app.edges[k].source == m.moduleName && app.edges[k].tupleType == m.outputType)
  }

  /** No two modules share a name. */
  predicate ModulesDistinct(app: Application) {
    forall a, b :: 0 <= a < b < |app.modules| ==> app.modules[a].name != app.modules[b].name
  }

  predicate EdgesFitKinds(app: Application) {
    forall k :: 0 <= k < |app.edges| ==> EdgeFits(app, app.edges[k])
  }

  /** Every tuple mapping is that of a module, and follows its edges. */
  predicate MappingsFollowEdges(app: Application) {
    forall k :: 0 <= k < |app.tupleMappings| ==>
      IsModule(app, app.tupleMappings[k].moduleName) && MappingFollowsEdges(app, app.tupleMappings[k])
  }

  /** Every module has a tuple mapping, and no module has two. */
  predicate ModulesMappedOnce(app: Application) {
    && (forall k :: 0 <= k < |app.modules| ==>
          exists t :: 0 <= t < |app.tupleMappings| && app.tupleMappings[t].moduleName == app.modules[k].name)
    && (forall a, b :: 0 <= a < b < |app.tupleMappings| ==> app.tupleMappings[a].moduleName != app.tupleMappings[b].moduleName)
  }

  /** The structural facts the application graph is built to satisfy. */
  predicate WellFormed(app: Application) {
    && ModulesDistinct(app)
    && EdgesFitKinds(app)
    && LoopsFollowEdges(app)
    && MappingsFollowEdges(app)
    && ModulesMappedOnce(app)
  }

  /**
   * The healthcare application for user `userId`: the sensors' PATIENT tuples go UP to
   * `patient_data`, its "slots" tuples UP to `check_for_emergency`, whose PTZ_PARAMS tuples,
   * emitted every 100 time units, go DOWN to the PTZ_CONTROL actuators; the loop runs from
   * the sensor through both modules to the actuator.
   */
  function CreateApplication(appId: string, userId: int): (app: Application)
    ensures app.appId == appId && app.userId == userId
    ensures ModuleNames(app) == [PatientData, CheckForEmergency]
    ensures forall k :: 0 <= k < |app.modules| ==> app.modules[k].ram == 10
    ensures |app.edges| == 3 && |app.tupleMappings| == 2
    ensures app.loops == [[SensorType, PatientData, CheckForEmergency, ActuatorType]]
  {
    Application(
      appId,
      userId,
      [AppModule(PatientData, 10), AppModule(CheckForEmergency, 10)],
      [
        AppEdge(SensorType, PatientData, None, 1000.0, 500.0, SensorType, Up, SensorEdge),
        AppEdge(PatientData, CheckForEmergency, None, 1000.0, 500.0, SlotsTuple, Up, ModuleEdge),
        AppEdge(CheckForEmergency, ActuatorType, Some(100.0), 28.0, 100.0, PtzParamsTuple, Down, ActuatorEdge)
      ],
      [
        TupleMapping(PatientData, SensorType, SlotsTuple, 1.0),
        TupleMapping(CheckForEmergency, SlotsTuple, PtzParamsTuple, 1.0)
      ],
      [[SensorType, PatientData, CheckForEmergency, ActuatorType]])
  }

  /** The two modules of the application, and no tuple type, are modules. */
  lemma ApplicationModules(appId: string, userId: int)
    ensures var app := CreateApplication(appId, userId);
      && ModulesDistinct(app)
      && IsModule(app, PatientData) && IsModule(app, CheckForEmergency)
      && !IsModule(app, SensorType) && !IsModule(app, ActuatorType)
  {
    var app := CreateApplication(appId, userId);
    assert app.modules[0].name == PatientData && app.modules[1].name == CheckForEmergency;
  }

  /** Sensor and module edges go UP into a module, the actuator edge DOWN out of one. */
  lemma ApplicationEdgesFit(appId: string, userId: int)
    ensures EdgesFitKinds(CreateApplication(appId, userId))
  {
    ApplicationModules(appId, userId);
  }

  /** Each step of the loop PATIENT → patient_data → check_for_emergency → PTZ_CONTROL is an edge. */
  lemma ApplicationLoopFollowsEdges(appId: string, userId: int)
    ensures LoopsFollowEdges(CreateApplication(appId, userId))
  {
    var app := CreateApplication(appId, userId);
    assert HasEdge(app, SensorType, PatientData) by { assert app.edges[0].source == SensorType; }
    assert HasEdge(app, PatientData, CheckForEmergency) by { assert app.edges[1].source == PatientData; }
    assert HasEdge(app, CheckForEmergency, ActuatorType) by { assert app.edges[2].source == CheckForEmergency; }
  }

  /** Each tuple mapping reads the tuple type of an edge into its module and writes that of an edge out of it. */
  lemma ApplicationMappingsFollowEdges(appId: string, userId: int)
    ensures MappingsFollowEdges(CreateApplication(appId, userId))
  {
    var app := CreateApplication(appId, userId);
    ApplicationModules(appId, userId);
    assert MappingFollowsEdges(app, app.tupleMappings[0]) by {
      assert app.edges[0].destination == PatientData && app.edges[1].source == PatientData;
    }
    assert MappingFollowsEdges(app, app.tupleMappings[1]) by {
      assert app.edges[1].destination == CheckForEmergency && app.edges[2].source == CheckForEmergency;
    }
  }

  /** Each module has exactly one tuple mapping. */
  lemma ApplicationModulesMappedOnce(appId: string, userId: int)
    ensures ModulesMappedOnce(CreateApplication(appId, userId))
  {
    var app := CreateApplication(appId, userId);
    assert app.tupleMappings[0].moduleName == app.modules[0].name;
    assert app.tupleMappings[1].moduleName == app.modules[1].name;
  }

  /**
   * The application graph is well formed: distinct modules, every edge consistent with its
   * kind, the loop along edges, and one tuple mapping per module that reads the tuple type
   * of an edge into it and writes that of an edge out of it.
   */
  lemma ApplicationWellFormed(appId: string, userId: int)
    ensures WellFormed(CreateApplication(appId, userId))
  {
    ApplicationModules(appId, userId);
    ApplicationEdgesFit(appId, userId);
    ApplicationLoopFollowsEdges(appId, userId);
    ApplicationMappingsFollowEdges(appId, userId);
    ApplicationModulesMappedOnce(appId, userId);
  }

  /**
   * The application matches the topology: every sensor emits the tuple type of the
   * sensor edge and every actuator has the type the actuator edge ends at.
   */
  lemma EndpointsMatchApplication(h: nat, p: nat, first: nat, userId: int, appId: string)
    ensures var app, ss, acts := CreateApplication(appId, userId), Sensors(h, p, first, userId, appId), Actuators(h, p, first, userId, appId);
      && (forall k :: 0 <= k < |ss| ==>
            exists e :: 0 <= e < |app.edges| && app.edges[e].kind == SensorEdge && app.edges[e].source == ss[k].tupleType)
      && (forall k :: 0 <= k < |acts| ==>
            exists e :: 0 <= e < |app.edges| && app.edges[e].kind == ActuatorEdge && app.edges[e].destination == acts[k].actuatorType)
  {
    var app, ss, acts := CreateApplication(appId, userId), Sensors(h, p, first, userId, appId), Actuators(h, p, first, userId, appId);
    TopologyFacts.EndpointsBound(h, p, first, userId, appId);
    forall k | 0 <= k < |ss|
      ensures exists e :: 0 <= e < |app.edges| && app.edges[e].kind == SensorEdge && app.edges[e].source == ss[k].tupleType
    {
      assert app.edges[0].kind == SensorEdge;
    }
    forall k | 0 <= k < |acts|
      ensures exists e :: 0 <= e < |app.edges| && app.edges[e].kind == ActuatorEdge && app.edges[e].destination == acts[k].actuatorType
    {
      assert app.edges[2].kind == ActuatorEdge;
    }
  }
}
