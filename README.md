# UnrealFusion core, modelled in Dafny

UnrealFusion fuses pose measurements from several tracking systems into one skeleton.
This project models three sequential pieces of it:

- **The orchestrator and its sensor registry** (`core.dfy`, module `Core`). `Core` owns a
  two-level registry from system to sensor id to `Sensor`, filled lazily. It also owns a
  buffer of pending measurements and the three pipeline stages. `Fuse` runs one cycle:
  - the correlator always receives the buffer and identifies;
  - the calibrator runs only if the correlator is stable;
  - the skeleton fuses only if the calibrator is stable too;
  - the buffer is emptied in every case.

  The correlator and calibrator internals are not part of this model. Each stage keeps a
  ghost history of the calls it received and a stability flag that its work step
  (`Identify`, `Calibrate`) may set either way.
- **The skeleton graph's state models and node map** (`fusion_graph.dfy`, module
  `FusionGraph`).
  - The Cartesian model replaces a node's state with the first three data entries and the
    top-left 3 x 3 uncertainty block. The twist model takes position from entries 0..3,
    rotation from 3..6, and the top-left 6 x 6 block. Neither keeps anything of the old
    state.
  - `FusionGraph` maps each descriptor to a node: state, queue of pending measurements,
    own name and parent name.
- **The host component's pose copy** (`fusion_plant.dfy`, module `FusionPlant`).
  - `CopyPose` copies all bone-space transforms when both skeletons share a mesh.
  - Otherwise it resets the target to its reference pose and overwrites each target bone
    whose name matches a source bone. It is proved against `Remap`, a bone-by-bone fold,
    and the lemmas about `Remap` state the pointwise outcome.
  - Bone names are engine names, which compare equal regardless of letter case. The
    model keeps `BoneName` abstract with only an equality, so every statement about
    matching names holds for that case-insensitive equality.

`fusion_types.dfy` (module `FusionTypes`) holds the shared vocabulary: descriptors, the
`Sensor` and `Measurement` classes, and `Scalar`, a 32-bit float's bit pattern. The
modelled code only copies floats, so no float arithmetic appears anywhere.

Where the code's declarations and comments suggest more than the code does, the model
follows the code:
- `Core::fuse` never passes measurements to the skeleton: the call that would do so is
  commented out (Source/UnrealFusion/Fusion/Core.cpp:54). The skeleton only receives
  `fuse()`.
- `setMeasurementSensorInfo` calls `setSensor` on the measurement on every call
  (Source/UnrealFusion/Fusion/Core.cpp:77), including for a measurement already bound to
  a sensor.
- Both state models carry the comment "Use latest measurement"
  (Source/UnrealFusion/Fusion/FusionGraph.h:44, 71). The loop that would drain a node's
  queue front to back exists only as commented-out code in the node record
  (Source/UnrealFusion/Fusion/FusionGraph.h:113-118), and as written it would not compile:
  it calls `pop_front` on a `std::vector` and a three-argument `updateState`.
  `ApplyQueue` models that loop's evident intent, not code that runs, and
  `ApplyQueueNewestWins` proves that the latest measurement decides the state. Nothing
  else uses `ApplyQueue`. The body of the graph's `fuse` is not part of this model, so
  `FusionGraph.FusionGraph.Fuse` only records that it was called.

## Model

| member | source | states |
|---|---|---|
| `Core.Core.SetMeasurementSensorInfo` | Source/UnrealFusion/Fusion/Core.cpp:68-78 | Afterwards (system, id) is registered and the measurement points at that entry, whose sensor carries this system and id. A pair seen before keeps its sensor and leaves the whole registry unchanged, so a second registration is idempotent. A new pair gets a fresh sensor with no candidates, and only the entry (system, id) is added. The invariant holds throughout: every registered sensor carries the keys it is stored under. |
| `Core.Core.AddMeasurement` | Source/UnrealFusion/Fusion/Core.cpp:30-33 | The node is handed to the measurement's sensor once. The buffer becomes the old buffer plus the measurement. The registry is unchanged. |
| `Core.Core.AddMeasurementCandidates` | Source/UnrealFusion/Fusion/Core.cpp:36-42 | Every candidate node is handed to the measurement's sensor, in order. The measurement is appended to the buffer exactly once, at the end. |
| `Core.Core.Fuse` | Source/UnrealFusion/Fusion/Core.cpp:45-61 | The correlator always receives the whole pre-call buffer, then `Identify`. The calibrator receives the same buffer and `Calibrate` only when the correlator is then stable; otherwise it is untouched. The skeleton's `Fuse` runs exactly once when both are stable; otherwise the skeleton is untouched. The buffer ends empty in every case, and the registry is unchanged. |
| `Core.Core.GetCalibrationResult` | Source/UnrealFusion/Fusion/Core.cpp:63-65 | Returns the calibrator's current result for the ordered pair (s1, s2), whether or not it is stable. |
| `Core.Core.AddNode` | Source/UnrealFusion/Fusion/Core.cpp:20-23 | Delegates to the skeleton. The node is present afterwards with the given parent and an empty queue, and every other node is as before. |
| `FusionGraph.CartesianUpdate` | Source/UnrealFusion/Fusion/FusionGraph.h:43-47 | The new expectation has three entries, equal to data[0..3). The new uncertainty is 3 x 3, equal entry by entry to the measurement's top-left block. Requires at least 3 data entries and at least a 3 x 3 matrix. |
| `FusionGraph.CartesianNewestWins` | Source/UnrealFusion/Fusion/FusionGraph.h:44-46 | The update does not depend on the prior state, so applying M1 and then M2 gives the same state as applying M2 alone. |
| `FusionGraph.CartesianIdempotent` | Source/UnrealFusion/Fusion/FusionGraph.h:43-47 | Applying the same measurement twice is the same as applying it once. |
| `FusionGraph.CartesianReadsLeadingOnly` | Source/UnrealFusion/Fusion/FusionGraph.h:45-46 | Two measurements that agree on data[0..3) and on the top-left 3 x 3 block give the same state. |
| `FusionGraph.TwistUpdate` | Source/UnrealFusion/Fusion/FusionGraph.h:70-75 | Position is data[0..3) and rotation is data[3..6), three entries each. The uncertainty is 6 x 6, equal entry by entry to the top-left block. Requires at least 6 data entries and at least a 6 x 6 matrix. |
| `FusionGraph.TwistSlicesPartitionData` | Source/UnrealFusion/Fusion/FusionGraph.h:72-73 | Position followed by rotation is exactly data[..6), so the two slices are adjacent and do not overlap. |
| `FusionGraph.TwistNewestWins` | Source/UnrealFusion/Fusion/FusionGraph.h:71-74 | The update does not depend on the prior state, so applying M1 and then M2 gives the same state as applying M2 alone. |
| `FusionGraph.TwistIdempotent` | Source/UnrealFusion/Fusion/FusionGraph.h:70-75 | Applying the same measurement twice is the same as applying it once. |
| `FusionGraph.TwistReadsLeadingOnly` | Source/UnrealFusion/Fusion/FusionGraph.h:72-74 | Two measurements that agree on data[0..6) and on the top-left 6 x 6 block give the same state. |
| `FusionGraph.ApplyQueueNewestWins` | Source/UnrealFusion/Fusion/FusionGraph.h:113-118 | Draining a non-empty queue front to back leaves exactly the state its last measurement gives. Draining an empty queue leaves the state as it was. |
| `FusionGraph.FusionGraph.AddNode` | Source/UnrealFusion/Fusion/FusionGraph.h:127-128 | The node is present afterwards, stored under its own name, with the given parent and an empty queue. Every other node is unchanged. |
| `FusionGraph.FusionGraph.AddMeasurement` | Source/UnrealFusion/Fusion/FusionGraph.h:133-134 | The measurement is appended to the end of that node's queue, in arrival order. No other node, and nothing else of that node, changes. |
| `FusionGraph.FusionGraph.GetMeasurements` | Source/UnrealFusion/Fusion/FusionGraph.h:130-131 | Every returned pair names an existing node. Restricted to any one node, the list is exactly that node's queue, in order and with multiplicity. |
| `FusionGraph.FusionGraph.ClearMeasurements` | Source/UnrealFusion/Fusion/FusionGraph.h:157-158 | Every node's queue is empty afterwards. The node set and each node's state, name and parent are unchanged. |
| `FusionGraph.FusionGraph.Fuse` | Source/UnrealFusion/Fusion/FusionGraph.h:136-137 | Records one call and keeps the graph's invariant. Its effect on the nodes is not part of this model. |
| `FusionPlant.BoneIndex` | Source/UnrealFusion/FusionPlant.cpp:105-107 | Returns the first index carrying the name, or None exactly when no bone carries it. |
| `FusionPlant.PoseableMesh.GetBoneIndex` | Source/UnrealFusion/FusionPlant.cpp:105 | A found index is in range of the target's bones and names the bone searched for. None means no bone of the mesh has that name. |
| `FusionPlant.Remap` | Source/UnrealFusion/FusionPlant.cpp:97-111 | The slow path only overwrites indexed slots after the reset, so the result is always as long as the target's reference pose. |
| `FusionPlant.RemapKeepsUnmatched` | Source/UnrealFusion/FusionPlant.cpp:97-107 | A target bone whose name matches no handled source bone keeps its reference-pose transform. |
| `FusionPlant.RemapLastMatchWins` | Source/UnrealFusion/FusionPlant.cpp:102-110 | Source bone i, found at target index j, leaves input[i] at j unless a later source bone has the same name. When source names repeat, the last matching source wins. |
| `FusionPlant.CopiedPoseLength` | Source/UnrealFusion/FusionPlant.cpp:97-111 | On different meshes the copied pose has exactly one transform per target bone. |
| `FusionPlant.FusionPlant.CopyPose` | Source/UnrealFusion/FusionPlant.cpp:81-115 | The target's transforms become `CopiedPose`: unchanged when its required bones are not valid; exactly the input's on the same mesh; the remapped reference pose otherwise. Same-mesh requires equal array lengths. Its validity flag and mesh are unchanged. |
| `FusionPlant.FusionPlant.Fuse` | Source/UnrealFusion/FusionPlant.cpp:70-75 | When there is an input skeleton and an output, the output gets the pose copied from the first input. With no input skeleton, the output is untouched. The output's mesh and required-bones flag stay as they were in every case. With no output, nothing can change. |
| `FusionPlant.FusionPlant.AddSkeleton` | Source/UnrealFusion/FusionPlant.cpp:40-44 | Exactly one element, the given skeleton, is appended to the end of the list. The output is unchanged. |
| `FusionPlant.FusionPlant.SetOutputTarget` | Source/UnrealFusion/FusionPlant.cpp:47-51 | The output is replaced by the given skeleton. The list of inputs is unchanged. |

## Left out

- Correlator and calibrator internals (evidence accumulation, candidate narrowing,
  least-squares calibration): their code is not part of this model. Each stage records its
  calls, and its stability flag and results are left unspecified after `Identify` or `Calibrate`.
- `Measurement::setSensor` is not part of this model. The model's `SetSensor` always
  re-points the measurement to the sensor it is given.
- `Core.Core.AddMeasurement` and `Core.Core.AddMeasurementCandidates` require that the
  measurement has a sensor. The source dereferences `getSensor()` unguarded
  (Source/UnrealFusion/Fusion/Core.cpp:31, 39), so a measurement that was never passed to
  `setMeasurementSensorInfo` is not modelled.
- `Sensor::addNode`, `Measurement`'s metadata and `utility::safeAccess`: their code is not
  part of this model. A sensor records the nodes handed to it. `safeAccess` is read as
  inserting an empty entry for an unknown system.
- `FusionGraph.FusionGraph.AddNode`: the body of `FusionGraph::addNode` is not part of this
  model. The model inserts or replaces the node and leaves its initial state unspecified.
  It does not check that the parent exists.
- `FusionGraph.FusionGraph.Fuse`: the body of `FusionGraph::fuse` is not part of this model.
  Only the call is recorded.
- `FusionGraph.FusionGraph.AddMeasurement`: the source declares it without a body. For a
  descriptor with no node, the model chooses to leave the graph unchanged.
- `FusionGraph.FusionGraph.GetMeasurements`: the order across different nodes is left
  unspecified. Only each node's own order is stated.
- The node record's `parent` pointer: only the parent's descriptor is modelled.
- `TwistModel::worldStateFunc` and the commented-out world-state walk: they are unfinished
  and compose float poses.
- Float semantics of vectors and matrices: the modelled code does no arithmetic, so
  scalars are opaque bit patterns.
- The `Create*Measurement` helpers: they call foreign factories and `setMetaData`, and
  their only error output is a console warning.
- Engine glue: the constructor, `BeginPlay`, `TickComponent`, `RefreshBoneTransforms`
  after a copy, the empty `AddPositionMeasurement`/`AddRotationMeasurement`,
  `GetTestPosition` and the Blueprint bindings.
- `FusionPlant.FusionPlant.AddSkeleton`: skeletons are non-null references. A null skeleton
  passed in from a script, which `Fuse` would dereference, is not modelled.
- Engine arrays are modelled as values (`seq`). The slow path's element writes are modelled
  as sequence updates of the target's field.
- Producer-side locking of the buffer: the core is single-threaded.
