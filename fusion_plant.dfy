/** The host component: a list of input skeletons, one output skeleton, and the pose
    copy that moves bone-space transforms from an input onto the output. */
module FusionPlant {
  import opened FusionTypes

  /** An engine bone name. Only its equality is used, and that equality is the engine's
      name equality, which ignores letter case; the model leaves it abstract. */
  type BoneName(==)

  /** A bone's local transform; its components are only copied. */
  datatype Transform = Transform(rotation: Vector, translation: Vector, scale3D: Vector)

  /** Engine bone lookup: the index of the first bone called `name`, or None when no
      bone has that name. */
  function BoneIndex(names: seq<BoneName>, name: BoneName): (r: Option<nat>)
    ensures r.Some? ==> r.value < |names| && names[r.value] == name
    ensures r.Some? ==> forall k :: 0 <= k < r.value ==> names[k] != name
    ensures r.None? <==> forall k :: 0 <= k < |names| ==> names[k] != name
    decreases |names|
  {
    if names == [] then None
    else if names[0] == name then Some(0)
    else match BoneIndex(names[1..], name)
      case Some(j) => Some(j + 1)
      case None => None
  }

  /** The target's transforms after the slow path has handled source bones [0, k):
      the target's reference pose, then, bone by bone, the source transform written
      at the target index of the source bone's name, when there is one. */
  function Remap(refPose: seq<Transform>, targetNames: seq<BoneName>,
                 sourceNames: seq<BoneName>, source: seq<Transform>, k: nat): (r: seq<Transform>)
    requires |refPose| == |targetNames|
    requires k <= |sourceNames| && k <= |source|
    ensures |r| == |refPose|
  {
    if k == 0 then refPose
    else
      var prev := Remap(refPose, targetNames, sourceNames, source, k - 1);
      match BoneIndex(targetNames, sourceNames[k - 1])
      case Some(j) => prev[j := source[k - 1]]
      case None => prev
  }

  /** A target bone whose name no handled source bone carries keeps its reference pose. */
  lemma {:induction false} RemapKeepsUnmatched(refPose: seq<Transform>, targetNames: seq<BoneName>,
                                               sourceNames: seq<BoneName>, source: seq<Transform>, k: nat, j: nat)
    requires |refPose| == |targetNames|
    requires k <= |sourceNames| && k <= |source|
    requires j < |targetNames|
    requires forall i :: 0 <= i < k ==> sourceNames[i] != targetNames[j]
    ensures Remap(refPose, targetNames, sourceNames, source, k)[j] == refPose[j]
  {
    if k > 0 {
      RemapKeepsUnmatched(refPose, targetNames, sourceNames, source, k - 1, j);
    }
  }

  /** Source bone i whose name is found at target index j lands at j, unless a later
      handled source bone carries the same name: the last match wins. */
  lemma {:induction false} RemapLastMatchWins(refPose: seq<Transform>, targetNames: seq<BoneName>,
                                              sourceNames: seq<BoneName>, source: seq<Transform>, k: nat, i: nat)
    requires |refPose| == |targetNames|
    requires k <= |sourceNames| && k <= |source|
    requires i < k
    requires BoneIndex(targetNames, sourceNames[i]).Some?
    requires forall i' :: i < i' < k ==> sourceNames[i'] != sourceNames[i]
    ensures Remap(refPose, targetNames, sourceNames, source, k)[BoneIndex(targetNames, sourceNames[i]).value]
         == source[i]
  {
    var j := BoneIndex(targetNames, sourceNames[i]).value;
    if i < k - 1 {
      RemapLastMatchWins(refPose, targetNames, sourceNames, source, k - 1, i);
      var other := BoneIndex(targetNames, sourceNames[k - 1]);
      assert other.Some? ==> targetNames[other.value] != targetNames[j];
    }
  }

  /** An engine reference skeleton: bone names and the reference pose, one per bone. */
  class SkeletalMesh {
    const boneNames: seq<BoneName>
    const refBonePose: seq<Transform>

    constructor (boneNames: seq<BoneName>, refBonePose: seq<Transform>)
      requires |refBonePose| == |boneNames|
      ensures this.boneNames == boneNames && this.refBonePose == refBonePose
      ensures Valid()
    {
      this.boneNames := boneNames;
      this.refBonePose := refBonePose;
    }

    /** The reference pose has one transform per bone. */
    predicate Valid() {
      |refBonePose| == |boneNames|
    }
  }

  /** A skeleton component whose bone-space transforms can be set directly. */
  class PoseableMesh {
    var requiredBonesValid: bool
    var skeletalMesh: SkeletalMesh
    var boneSpaceTransforms: seq<Transform>

    constructor (mesh: SkeletalMesh, requiredBonesValid: bool)
      ensures skeletalMesh == mesh && this.requiredBonesValid == requiredBonesValid
      ensures boneSpaceTransforms == mesh.refBonePose
    {
      skeletalMesh := mesh;
      this.requiredBonesValid := requiredBonesValid;
      boneSpaceTransforms := mesh.refBonePose;
    }

    function GetBoneName(i: nat): (r: BoneName)
      reads this
      requires i < |skeletalMesh.boneNames|
      ensures r in skeletalMesh.boneNames
    {
      skeletalMesh.boneNames[i]
    }

    function GetBoneIndex(name: BoneName): (r: Option<nat>)
      reads this
      ensures r.Some? ==> r.value < |skeletalMesh.boneNames| && GetBoneName(r.value) == name
      ensures r.None? ==> name !in skeletalMesh.boneNames
    {
      BoneIndex(skeletalMesh.boneNames, name)
    }
  }

  /** What a pose copy from `input` onto `target` requires: the target's reference pose
      covers its bones; on the same mesh both transform arrays have the same length; on
      different meshes the input has a transform for each of its bones. */
  predicate CanCopy(target: PoseableMesh, input: PoseableMesh)
    reads target, input
  {
    && target.skeletalMesh.Valid()
    && (target.requiredBonesValid && target.skeletalMesh == input.skeletalMesh ==>
          |target.boneSpaceTransforms| == |input.boneSpaceTransforms|)
    && (target.requiredBonesValid && target.skeletalMesh != input.skeletalMesh ==>
          |input.boneSpaceTransforms| >= |input.skeletalMesh.boneNames|)
  }

  /** The target's transforms after a pose copy: unchanged when its required bones are
      not valid, the input's on the same mesh, the remapped reference pose otherwise. */
  function CopiedPose(target: PoseableMesh, input: PoseableMesh): seq<Transform>
    reads target, input
    requires CanCopy(target, input)
  {
    if !target.requiredBonesValid then target.boneSpaceTransforms
    else if target.skeletalMesh == input.skeletalMesh then input.boneSpaceTransforms
    else Remap(target.skeletalMesh.refBonePose, target.skeletalMesh.boneNames,
               input.skeletalMesh.boneNames, input.boneSpaceTransforms, |input.skeletalMesh.boneNames|)
  }

  /** On different meshes the copied pose has exactly one transform per target bone. */
  lemma CopiedPoseLength(target: PoseableMesh, input: PoseableMesh)
    requires CanCopy(target, input)
    requires target.requiredBonesValid && target.skeletalMesh != input.skeletalMesh
    ensures |CopiedPose(target, input)| == |target.skeletalMesh.boneNames|
  {
  }

  class FusionPlant {
    /** The input skeletons, in the order they were added. */
    var skeletons: seq<PoseableMesh>
    /** The output skeleton, if one was set. */
    var fusedSkeleton: PoseableMesh?

    constructor ()
      ensures skeletons == [] && fusedSkeleton == null
    {
      skeletons := [];
      fusedSkeleton := null;
    }

    method AddSkeleton(mesh: PoseableMesh)
      modifies this
      ensures skeletons == old(skeletons) + [mesh]
      ensures fusedSkeleton == old(fusedSkeleton)
    {
      skeletons := skeletons + [mesh];
    }

    method SetOutputTarget(mesh: PoseableMesh?)
      modifies this
      ensures fusedSkeleton == mesh
      ensures skeletons == old(skeletons)
    {
      fusedSkeleton := mesh;
    }

    /** Copies the first input skeleton's pose onto the output, when both exist. */
    method Fuse()
      requires fusedSkeleton != null && |skeletons| > 0 ==> CanCopy(fusedSkeleton, skeletons[0])
      modifies fusedSkeleton
      ensures fusedSkeleton != null && |skeletons| > 0 ==>
        fusedSkeleton.boneSpaceTransforms == old(CopiedPose(fusedSkeleton, skeletons[0]))
      ensures fusedSkeleton != null ==>
        fusedSkeleton.requiredBonesValid == old(fusedSkeleton.requiredBonesValid)
        && fusedSkeleton.skeletalMesh == old(fusedSkeleton.skeletalMesh)
      ensures fusedSkeleton != null && |skeletons| == 0 ==> unchanged(fusedSkeleton)
    {
      if |skeletons| > 0 && fusedSkeleton != null {
        CopyPose(fusedSkeleton, skeletons[0]);
      }
    }

    /** Copies the input's bone-space transforms onto the target: wholesale when both
        share a mesh, bone by bone, matched by name over the target's reference pose,
        when they do not. Nothing changes when the target's required bones are not valid. */
    method CopyPose(target: PoseableMesh, input: PoseableMesh)
      requires CanCopy(target, input)
      modifies target
      ensures target.boneSpaceTransforms == old(CopiedPose(target, input))
      ensures target.requiredBonesValid == old(target.requiredBonesValid)
      ensures target.skeletalMesh == old(target.skeletalMesh)
    {
      if target.requiredBonesValid {
        if target.skeletalMesh == input.skeletalMesh {
          target.boneSpaceTransforms := input.boneSpaceTransforms;
        } else {
          target.boneSpaceTransforms := target.skeletalMesh.refBonePose;
          var numSourceBones := |input.skeletalMesh.boneNames|;
          for sourceBoneIndex := 0 to numSourceBones
            invariant target.requiredBonesValid && target.skeletalMesh == old(target.skeletalMesh)
            invariant target != input && input.boneSpaceTransforms == old(input.boneSpaceTransforms)
            invariant target.boneSpaceTransforms
                   == Remap(target.skeletalMesh.refBonePose, target.skeletalMesh.boneNames,
                            input.skeletalMesh.boneNames, input.boneSpaceTransforms, sourceBoneIndex)
          {
            var sourceBoneName := input.GetBoneName(sourceBoneIndex);
            var targetBoneIndex := target.GetBoneIndex(sourceBoneName);
            if targetBoneIndex.Some? {
              target.boneSpaceTransforms :=
                target.boneSpaceTransforms[targetBoneIndex.value := input.boneSpaceTransforms[sourceBoneIndex]];
            }
          }
        }
      }
    }
  }
}
