/** Shared vocabulary of the fusion core: descriptors, sensors and measurements. */
module FusionTypes {

  /** The bit pattern of one 32-bit float. The modelled code only copies
      these values (slices of vectors, blocks of matrices), never computes with them. */
  type Scalar = bv32

  /** A vector and a matrix of scalars, row by row. */
  type Vector = seq<Scalar>
  type Matrix = seq<seq<Scalar>>

  /** Name of a joint or landmark of the skeleton tree. */
  type NodeDescriptor = string
  /** Name of an independent tracking system. */
  type SystemDescriptor = string
  /** Key of one physical sensor, unique within its system. */
  type SensorID = int

  datatype Option<T> = None | Some(value: T)

  /** A matrix with at least `n` rows, each of which has at least `n` entries. */
  predicate HasTopLeft(u: Matrix, n: nat) {
    |u| >= n && forall i :: 0 <= i < n ==> |u[i]| >= n
  }

  /** One physical sensor of a tracking system. What `addNode` does inside the
      sensor is not part of this model: the sensor records the calls it received. */
  class Sensor {
    var system: SystemDescriptor
    var id: SensorID
    /** The candidate nodes handed to `addNode`, in call order. */
    ghost var addedNodes: seq<NodeDescriptor>

    constructor ()
      ensures addedNodes == []
    {
      system := "";
      id := 0;
      addedNodes := [];
    }

    method AddNode(node: NodeDescriptor)
      modifies this
      ensures addedNodes == old(addedNodes) + [node]
      ensures system == old(system) && id == old(id)
    {
      addedNodes := addedNodes + [node];
    }
  }

  /** One observation: a data vector and its uncertainty, fixed at creation, and the
      sensor it came from, set later by the registry. */
  class Measurement {
    const data: Vector
    const uncertainty: Matrix
    var sensor: Sensor?

    constructor (data: Vector, uncertainty: Matrix)
      ensures this.data == data && this.uncertainty == uncertainty
      ensures sensor == null
    {
      this.data := data;
      this.uncertainty := uncertainty;
      sensor := null;
    }

    method SetSensor(s: Sensor)
      modifies this
      ensures sensor == s
    {
      sensor := s;
    }
  }
}
