/** The orchestrator: the sensor registry, the measurement buffer and the gated
    three-stage pipeline (correlation, calibration, skeleton fusion). */
module Core {
  import opened FusionTypes
  import FusionGraph

  /** A call received by a pipeline stage whose internals are not part of this model. */
  datatype StageCall =
    | AddMeasurementGroup(batch: seq<Measurement>)
    | Identify
    | Calibrate

  /** The estimated transform between two systems' frames, its quality and whether it is stable. */
  datatype CalibrationResult = CalibrationResult(transform: Vector, quality: Scalar, stable: bool)

  /** Data association stage. Its statistics are not part of this model: it records the
      calls it receives, and `Identify` may leave it stable or not. */
  class Correlator {
    ghost var calls: seq<StageCall>
    var stable: bool

    constructor ()
      ensures calls == []
    {
      calls := [];
      stable := *;
    }

    predicate IsStable()
      reads this
    {
      stable
    }

    method AddMeasurementGroup(batch: seq<Measurement>)
      modifies this
      ensures calls == old(calls) + [StageCall.AddMeasurementGroup(batch)]
      ensures stable == old(stable)
    {
      calls := calls + [StageCall.AddMeasurementGroup(batch)];
    }

    method Identify()
      modifies this
      ensures calls == old(calls) + [StageCall.Identify]
    {
      calls := calls + [StageCall.Identify];
      stable := *;
    }
  }

  /** Frame alignment stage. Its estimator is not part of this model: it records the
      calls it receives, and `Calibrate` may change its results and its stability. */
  class Calibrator {
    ghost var calls: seq<StageCall>
    var stable: bool
    /** The current result for every ordered pair of systems. */
    var results: (SystemDescriptor, SystemDescriptor) -> CalibrationResult

    constructor ()
      ensures calls == []
    {
      calls := [];
      stable := *;
      results := *;
    }

    predicate IsStable()
      reads this
    {
      stable
    }

    method AddMeasurementGroup(batch: seq<Measurement>)
      modifies this
      ensures calls == old(calls) + [StageCall.AddMeasurementGroup(batch)]
      ensures stable == old(stable) && results == old(results)
    {
      calls := calls + [StageCall.AddMeasurementGroup(batch)];
    }

    method Calibrate()
      modifies this
      ensures calls == old(calls) + [StageCall.Calibrate]
    {
      calls := calls + [StageCall.Calibrate];
      stable := *;
      results := *;
    }

    /** The result for (s1, s2), stable or not. */
    method GetResultsFor(s1: SystemDescriptor, s2: SystemDescriptor) returns (r: CalibrationResult)
      ensures r == results(s1, s2)
    {
      r := results(s1, s2);
    }
  }

  class Core {
    /** The sensor registry: system, then sensor id, to the one Sensor for that pair. */
    var sensors: map<SystemDescriptor, map<SensorID, Sensor>>
    /** Measurements received since the last `Fuse`, in arrival order. */
    var measurementBuffer: seq<Measurement>
    const correlator: Correlator
    const calibrator: Calibrator
    const skeleton: FusionGraph.FusionGraph

    /** Every registered sensor. */
    ghost function RegisteredSensors(): set<Sensor>
      reads this
    {
      set system, id | system in sensors && id in sensors[system] :: sensors[system][id]
    }

    predicate IsRegistered(system: SystemDescriptor, id: SensorID)
      reads this
    {
      system in sensors && id in sensors[system]
    }

    /** The registry entries of one system, empty when the system is unknown. */
    function EntriesOf(system: SystemDescriptor): map<SensorID, Sensor>
      reads this
    {
      if system in sensors then sensors[system] else map[]
    }

    /** Every registered sensor carries the system and id it is registered under. */
    ghost predicate Valid()
      reads this, skeleton, RegisteredSensors()
    {
      && skeleton.Valid()
      && forall system, id :: system in sensors && id in sensors[system] ==>
           sensors[system][id].system == system && sensors[system][id].id == id
    }

    constructor ()
      ensures Valid()
      ensures sensors == map[] && measurementBuffer == []
      ensures fresh(correlator) && fresh(calibrator) && fresh(skeleton)
      ensures correlator.calls == [] && calibrator.calls == []
      ensures skeleton.nodes == map[] && skeleton.fuseCalls == 0
    {
      sensors := map[];
      measurementBuffer := [];
      correlator := new Correlator();
      calibrator := new Calibrator();
      skeleton := new FusionGraph.FusionGraph();
    }

    /** Delegates to the skeleton. */
    method AddNode(node: NodeDescriptor, parent: NodeDescriptor)
      requires Valid()
      modifies skeleton
      ensures Valid()
      ensures skeleton.nodes.Keys == old(skeleton.nodes.Keys) + {node}
      ensures skeleton.nodes[node].measurements == [] && skeleton.nodes[node].parentDesc == parent
      ensures forall n :: n in old(skeleton.nodes) && n != node ==> skeleton.nodes[n] == old(skeleton.nodes)[n]
      ensures skeleton.fuseCalls == old(skeleton.fuseCalls)
    {
      skeleton.AddNode(node, parent);
    }

    /** Records `node` as a candidate of the measurement's sensor and buffers the measurement. */
    method AddMeasurement(m: Measurement, node: NodeDescriptor)
      requires Valid() && m.sensor != null
      modifies this, m.sensor
      ensures Valid()
      ensures m.sensor.addedNodes == old(m.sensor.addedNodes) + [node]
      ensures measurementBuffer == old(measurementBuffer) + [m]
      ensures sensors == old(sensors)
    {
      m.sensor.AddNode(node);
      measurementBuffer := measurementBuffer + [m];
    }

    /** Records every node of `nodes` as a candidate of the measurement's sensor, in order,
        and buffers the measurement once. */
    method AddMeasurementCandidates(m: Measurement, nodes: seq<NodeDescriptor>)
      requires Valid() && m.sensor != null
      modifies this, m.sensor
      ensures Valid()
      ensures m.sensor.addedNodes == old(m.sensor.addedNodes) + nodes
      ensures measurementBuffer == old(measurementBuffer) + [m]
      ensures sensors == old(sensors)
    {
      var sensor := m.sensor;
      for i := 0 to |nodes|
        invariant Valid()
        invariant sensor.addedNodes == old(sensor.addedNodes) + nodes[..i]
        invariant measurementBuffer == old(measurementBuffer)
        invariant sensors == old(sensors)
      {
        sensor.AddNode(nodes[i]);
        assert nodes[..i + 1] == nodes[..i] + [nodes[i]];
      }
      assert nodes[..|nodes|] == nodes;
      measurementBuffer := measurementBuffer + [m];
    }

    /** One pipeline cycle. The correlator always receives the whole buffer and identifies;
        the calibrator runs only once the correlator is stable, the skeleton fuses only once
        both are stable; the buffer is emptied in every case. */
    method Fuse()
      requires Valid()
      modifies this, correlator, calibrator, skeleton
      ensures Valid()
      ensures measurementBuffer == []
      ensures sensors == old(sensors)
      ensures correlator.calls
           == old(correlator.calls) + [StageCall.AddMeasurementGroup(old(measurementBuffer)), StageCall.Identify]
      ensures correlator.IsStable() ==>
        calibrator.calls
        == old(calibrator.calls) + [StageCall.AddMeasurementGroup(old(measurementBuffer)), StageCall.Calibrate]
      ensures !correlator.IsStable() ==> unchanged(calibrator)
      ensures correlator.IsStable() && calibrator.IsStable() ==> skeleton.fuseCalls == old(skeleton.fuseCalls) + 1
      ensures !(correlator.IsStable() && calibrator.IsStable()) ==> unchanged(skeleton)
    {
      correlator.AddMeasurementGroup(measurementBuffer);
      correlator.Identify();
      if correlator.IsStable() {
        calibrator.AddMeasurementGroup(measurementBuffer);
        calibrator.Calibrate();
        if calibrator.IsStable() {
          skeleton.Fuse();
        }
      }
      measurementBuffer := [];
    }

    /** Delegates to the calibrator. */
    method GetCalibrationResult(s1: SystemDescriptor, s2: SystemDescriptor) returns (r: CalibrationResult)
      ensures r == calibrator.results(s1, s2)
    {
      r := calibrator.GetResultsFor(s1, s2);
    }

    /** Binds `m` to the sensor registered for (system, id), creating and registering that
        sensor first when the pair has not been seen. A pair seen before keeps its sensor
        and leaves the registry as it was. */
    method SetMeasurementSensorInfo(m: Measurement, system: SystemDescriptor, id: SensorID)
      requires Valid()
      modifies this, m
      ensures Valid()
      ensures IsRegistered(system, id) && m.sensor == sensors[system][id]
      ensures m.sensor.system == system && m.sensor.id == id
      ensures old(IsRegistered(system, id)) ==> sensors == old(sensors) && m.sensor == old(sensors[system][id])
      ensures !old(IsRegistered(system, id)) ==>
        && fresh(m.sensor) && m.sensor.addedNodes == []
        && sensors == old(sensors)[system := old(EntriesOf(system))[id := m.sensor]]
      ensures measurementBuffer == old(measurementBuffer)
    {
      sensors := sensors[system := EntriesOf(system)];
      if id !in sensors[system] {
        var sensor := new Sensor();
        sensors := sensors[system := sensors[system][id := sensor]];
        sensor.system := system;
        sensor.id := id;
      }
      m.SetSensor(sensors[system][id]);
    }
  }
}
