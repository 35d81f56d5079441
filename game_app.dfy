/** The robot-arm part of the HelloRobotArm application: the selection and
    angle state driven by the keyboard, the three-bone chain, and the
    per-frame update that poses the arm and hands its world transforms to the
    scene graph's transform nodes. */
module HelloRobotArm {
  import opened Maths
  import opened Skeleton
  import opened Controls

  /** The y-scale OnInitialize gives robot-arm transform node 0. RotateRobotArm
      reads node 0's y-scale on every call as the distance from one joint to
      the next; the model takes that scale to keep its start-up value, although
      OnUpdate has reset node 0's matrix earlier in the same frame. */
  const BoneLength: real := 20.0

  /** initialTransform: node 0's transform matrix once OnInitialize has scaled
      it to (10, 20, 10) and moved it to (0, 10, 0). Every rendered bone is
      corrected by it. */
  function InitialTransform(): Matrix44 {
    [NodeTransform(Vector3(0.0, 10.0, 0.0), Vector3(10.0, 20.0, 10.0))]
  }

  /** The translation from a joint to the next one along the arm. */
  function JointOffset(): Matrix44 {
    Translation(0.0, BoneLength, 0.0)
  }

  /** Local transform of bone index posed by Euler angles in degrees: the
      rotation alone for the root, the rotation times the joint offset for
      the other bones. */
  function LocalTransform(index: nat, degrees: Vector3): Matrix44 {
    if index == 0 then RotationFromDegrees(degrees)
    else Mul(RotationFromDegrees(degrees), JointOffset())
  }

  /** The linear chain of bones posed by an angle table. */
  function PosedBones(angles: seq<Vector3>): (bones: seq<Bone>)
    ensures |bones| == |angles| && IsLinearChain(bones) && ParentsPrecede(bones)
    ensures forall i :: 0 <= i < |angles| ==> bones[i].transform == LocalTransform(i, angles[i])
  {
    seq(|angles|, i requires 0 <= i < |angles| =>
      Bone(LocalTransform(i, angles[i]), if i == 0 then None else Some(i - 1)))
  }

  /** Composition order of the posed arm: each bone's world transform is its
      own rotation, then the offset to its joint, then its parent's world
      transform, down to the root's rotation. */
  lemma ArmPose(angles: seq<Vector3>)
    requires |angles| == BoneCount
    ensures WorldTransform(PosedBones(angles), 0) == RotationFromDegrees(angles[0])
    ensures WorldTransform(PosedBones(angles), 1)
         == Product([RotationFromDegrees(angles[1]), JointOffset(), RotationFromDegrees(angles[0])])
    ensures WorldTransform(PosedBones(angles), 2)
         == Product([RotationFromDegrees(angles[2]), JointOffset(),
                     RotationFromDegrees(angles[1]), JointOffset(),
                     RotationFromDegrees(angles[0])])
  {
    var bones := PosedBones(angles);
    var r0, r1, r2 := RotationFromDegrees(angles[0]), RotationFromDegrees(angles[1]), RotationFromDegrees(angles[2]);
    var t := JointOffset();
    LinearChainWorld(bones, 1);
    LinearChainWorld(bones, 2);
    assert LocalsToRoot(bones, 1) == [Mul(r1, t), r0];
    assert LocalsToRoot(bones, 2) == [Mul(r2, t), Mul(r1, t), r0];
    MulAssociative(Mul(r2, t), r1, t);
    ProductOfThree(r1, t, r0);
    ProductOfTwo(Mul(r1, t), r0);
    ProductOfThree(Mul(r2, t), Mul(r1, t), r0);
    ProductOfFive(r2, t, r1, t, r0);
  }

  lemma ProductOfTwo(a: Matrix44, b: Matrix44)
    ensures Product([a, b]) == Mul(a, b)
  {
    assert [a, b][..1] == [a];
  }

  lemma ProductOfThree(a: Matrix44, b: Matrix44, c: Matrix44)
    ensures Product([a, b, c]) == Mul(Mul(a, b), c)
  {
    assert [a, b, c][..2] == [a, b];
    ProductOfTwo(a, b);
  }

  lemma ProductOfFive(a: Matrix44, b: Matrix44, c: Matrix44, d: Matrix44, e: Matrix44)
    ensures Product([a, b, c, d, e]) == Mul(Mul(Mul(Mul(a, b), c), d), e)
  {
    assert [a, b, c, d, e][..4] == [a, b, c, d];
    assert [a, b, c, d][..3] == [a, b, c];
    ProductOfThree(a, b, c);
  }

  class GameApp {
    /** controlArmCounter: the bone the direction keys turn. */
    var controlArmCounter: nat
    /** angles[3]: Euler angles in degrees, one triple per bone. */
    var angles: array<Vector3>
    /** mBones */
    var bones: array<Bone>
    /** mBoneWorldTransform */
    var boneWorld: array<Matrix44>
    /** The matrices set on the three robot-arm transform nodes. */
    var armNodeTransforms: array<Matrix44>

    /** The selection and angle state and the arm's nodes are in place. */
    ghost predicate ArmReady()
      reads this
    {
      && angles.Length == BoneCount
      && armNodeTransforms.Length == BoneCount
      && controlArmCounter < BoneCount
    }

    /** The state OnUpdate runs in, once InitializeBones has built the chain. */
    ghost predicate Valid()
      reads this, bones
    {
      && ArmReady()
      && bones.Length == BoneCount
      && boneWorld.Length == BoneCount
      && boneWorld != armNodeTransforms
      && IsLinearChain(bones[..])
    }

    /** The file-scope state before the first frame: bone 0 selected, every
        angle zero, the bone vectors still empty. The node matrices are
        overwritten by the first OnUpdate before anything is rendered. */
    constructor ()
      ensures ArmReady() && controlArmCounter == 0
      ensures forall i :: 0 <= i < BoneCount ==> angles[i] == Zero()
      ensures bones.Length == 0 && boneWorld.Length == 0
      ensures forall i :: 0 <= i < BoneCount ==> armNodeTransforms[i] == Identity()
      ensures fresh(angles) && fresh(bones) && fresh(boneWorld) && fresh(armNodeTransforms)
    {
      controlArmCounter := 0;
      angles := new Vector3[BoneCount](_ => Zero());
      bones := new Bone[0];
      boneWorld := new Matrix44[0];
      armNodeTransforms := new Matrix44[BoneCount](_ => Identity());
    }

    /** Size both bone vectors to three and hang bone i from bone i - 1.
        Entries that already existed keep their values. */
    method InitializeBones()
      modifies this`bones, this`boneWorld
      ensures fresh(bones) && fresh(boneWorld)
      ensures bones.Length == BoneCount && boneWorld.Length == BoneCount
      ensures forall i :: 0 <= i < BoneCount ==>
        bones[i].transform == if i < old(bones.Length) then old(bones[i].transform) else Identity()
      ensures bones[0].parent == if 0 < old(bones.Length) then old(bones[0].parent) else None
      ensures forall i :: 1 <= i < BoneCount ==> bones[i].parent == Some(i - 1)
      ensures forall i :: 0 <= i < BoneCount ==>
        boneWorld[i] == if i < old(boneWorld.Length) then old(boneWorld[i]) else Identity()
      ensures ArmReady() && (old(bones.Length) == 0 || old(bones[0].parent) == None) ==> Valid()
    {
      var newWorld := Resize(boneWorld, BoneCount, Identity());
      var newBones := Resize(bones, BoneCount, DefaultBone());
      ghost var resized := newBones[..];
      for i := 1 to BoneCount
        modifies newBones
        invariant newBones[0] == resized[0]
        invariant forall j :: 1 <= j < i ==> newBones[j] == resized[j].(parent := Some(j - 1))
        invariant forall j :: i <= j < BoneCount ==> newBones[j] == resized[j]
      {
        newBones[i] := newBones[i].(parent := Some(i - 1));
      }
      bones, boneWorld := newBones, newWorld;
    }

    /** Keys ONE, TWO and THREE select bone 0, 1 and 2, checked in that order. */
    method SelectBone(keys: KeyState)
      modifies this`controlArmCounter
      ensures controlArmCounter == Selection(old(controlArmCounter), keys)
    {
      if keys.one {
        controlArmCounter := 0;
      }
      if keys.two {
        controlArmCounter := 1;
      }
      if keys.three {
        controlArmCounter := 2;
      }
    }

    /** One direction key: if it is held, turn the selected bone by step on the
        key's axis; a selection with no bone behind it turns nothing. */
    method TurnSelectedIfDown(keys: KeyState, key: DirectionKey, step: real)
      modifies angles
      ensures angles[..] == TurnIfDown(old(angles[..]), controlArmCounter, keys, key, step)
    {
      if IsDown(keys, key) {
        if controlArmCounter < angles.Length {
          var i := controlArmCounter;
          ghost var before := angles[..];
          angles[i] := AddToAxis(angles[i], AxisOf(key), SignOf(key) * step);
          assert angles[..] == before[i := AddToAxis(before[i], AxisOf(key), SignOf(key) * step)];
          assert Turn(before, i, key, step) == before[i := AddToAxis(before[i], AxisOf(key), SignOf(key) * step)];
        }
      }
    }

    /** The direction keys of one frame, applied one after another to the
        selected bone at modelRotationSpeed * deltaTime each. */
    method AccumulateAngles(keys: KeyState, deltaTime: real)
      modifies angles
      ensures angles[..] == TurnFrame(old(angles[..]), controlArmCounter, keys, ModelRotationSpeed * deltaTime)
    {
      var step := ModelRotationSpeed * deltaTime;
      TurnSelectedIfDown(keys, Left, step);
      TurnSelectedIfDown(keys, Right, step);
      TurnSelectedIfDown(keys, Down, step);
      TurnSelectedIfDown(keys, Up, step);
      TurnSelectedIfDown(keys, PageUp, step);
      TurnSelectedIfDown(keys, PageDown, step);
    }

    /** Rebuild every bone's local transform from the angle table. The
        selected bone is passed in and not used: all three are rebuilt. */
    method RotateRobotArm(controlArm: nat)
      requires Valid()
      modifies bones
      ensures Valid()
      ensures bones[..] == PosedBones(angles[..])
    {
      bones[0] := bones[0].(transform := RotationFromDegrees(angles[0]));
      bones[1] := bones[1].(transform := Mul(RotationFromDegrees(angles[1]), Translation(0.0, BoneLength, 0.0)));
      bones[2] := bones[2].(transform := Mul(RotationFromDegrees(angles[2]), Translation(0.0, BoneLength, 0.0)));
      assert bones[..] == PosedBones(angles[..]);
    }

    /** World transforms from the root down: every bone's local transform
        times its parent's world transform. They depend on the local
        transforms alone, so a second call without changing them gives the
        same result. */
    method UpdateBones()
      requires Valid()
      modifies boneWorld
      ensures Valid()
      ensures forall i :: 0 <= i < BoneCount ==>
        ParentsPrecede(bones[..]) && boneWorld[i] == WorldTransform(bones[..], i)
    {
      LinearChainParentsPrecede(bones[..]);
      boneWorld[0] := bones[0].transform;
      boneWorld[1] := Mul(bones[1].transform, bones[0].transform);
      boneWorld[2] := Mul(Mul(bones[2].transform, bones[1].transform), bones[0].transform);
      MulAssociative(bones[2].transform, bones[1].transform, bones[0].transform);
    }

    /** The robot-arm part of one frame: selection keys, direction keys, the
        previous frame's world transforms to the transform nodes, then the
        new local and world transforms. */
    method OnUpdate(keys: KeyState, deltaTime: real)
      requires Valid()
      modifies this`controlArmCounter, angles, bones, boneWorld, armNodeTransforms
      ensures Valid()
      ensures controlArmCounter == Selection(old(controlArmCounter), keys)
      ensures angles[..] == TurnFrame(old(angles[..]), controlArmCounter, keys, ModelRotationSpeed * deltaTime)
      ensures forall i :: 0 <= i < BoneCount ==> armNodeTransforms[i] == Mul(InitialTransform(), old(boneWorld[i]))
      ensures bones[..] == PosedBones(angles[..])
      ensures forall i :: 0 <= i < BoneCount ==>
        ParentsPrecede(bones[..]) && boneWorld[i] == WorldTransform(bones[..], i)
    {
      SelectBone(keys);
      AccumulateAngles(keys, deltaTime);
      for i := 0 to BoneCount
        modifies armNodeTransforms
        invariant forall j :: 0 <= j < i ==> armNodeTransforms[j] == Mul(InitialTransform(), boneWorld[j])
        invariant boneWorld[..] == old(boneWorld[..])
      {
        armNodeTransforms[i] := Mul(InitialTransform(), boneWorld[i]);
      }
      RotateRobotArm(controlArmCounter);
      UpdateBones();
    }
  }
}
