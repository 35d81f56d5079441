# HelloRobotArm: keyboard-driven three-bone arm

This project models the robot-arm rig of the HelloRobotArm sample, in
`VGP334/HelloRobotArm/GameApp.cpp`, and proves properties of it in Dafny. The
rig has three parts, all updated once per frame by `GameApp::OnUpdate`:

- **Bone selection.** `controlArmCounter` starts at 0. The keys ONE, TWO and
  THREE set it to 0, 1 and 2. They are checked in that order, so the last held
  key wins.
- **Angle accumulation.** `angles[3]` holds one Euler-angle triple, in degrees,
  per bone. LEFT/RIGHT add or subtract `modelRotationSpeed * deltaTime` on z,
  UP/DOWN do so on x, and PGDN/PGUP do so on y. Only the selected bone changes.
  Each held key is applied on its own, in the order the source checks them.
- **Forward kinematics.** `InitializeBones` sizes `mBones` and
  `mBoneWorldTransform` to three entries and hangs bone i from bone i - 1.
  `RotateRobotArm` rebuilds each bone's local transform: the rotation for
  bone 0, and the rotation times a translation of (0, h, 0) for bones 1
  and 2. Here h is the y-scale of transform node 0, which the code reads
  anew on every call. The model takes h to be 20, the y-scale set at
  start-up (see "## Left out"). `UpdateBones` composes local transforms into world transforms, from
  the root down. `OnUpdate` gives transform node i the matrix
  `initialTransform * world[i]` before it recomputes the world transforms.
  The rendered pose is therefore the one computed in the previous frame.

Modules:

- `Maths` (maths.dfy) holds `Vector3` and `Matrix44`. A matrix is a formal
  product of the matrices the engine's Maths library builds: Euler rotation,
  translation, and a node's transform matrix. `Mul` concatenates formal
  products. It is associative and assumes nothing more. So an equation proved
  here with no matrix equality among its hypotheses also holds for the
  engine's real product. Inequalities do not carry over: in this model a
  zero rotation differs from the identity, and no two distinct generators
  commute, which is false of real matrices. No contract here relies on an
  inequality.
- `Controls` (controls.dfy) holds the key snapshot (`KeyState`), `Selection`,
  and the per-key and per-frame angle updates (`Turn`, `TurnIfDown`,
  `TurnFrame`). It also holds an independent closed form (`NetDirection`) and
  the lemmas that relate them.
- `Skeleton` (skeleton.dfy) holds `Bone` (a local transform and a parent
  index) and `WorldTransform`, which composes transforms down the parent
  chain. It also holds `Product`, the left-to-right product as the source
  writes it, and the proof that the two agree on a linear chain.
- `HelloRobotArm` (game_app.dfy) holds the class `GameApp`. Its fields
  `controlArmCounter`, `angles`, `bones`, `boneWorld` and `armNodeTransforms`
  are updated in place by methods named after the source's. Each method is
  proved against the functions above.

Three points of the code's behaviour that the model keeps:

- Selecting a bone cannot fail. Only three keys set the index, and each sets
  it to 0, 1 or 2. There is no out-of-range selection and no error path.
- Both non-root bones use the same offset: node 0's y-scale, taken to stay
  at the 20 set at start-up (see "## Left out"). There is no per-bone offset
  table.
- The stored angles are never clamped or wrapped into a range. The model
  keeps them exact and unbounded.

## Model

| member | source | states |
|---|---|---|
| `Controls.Selection` | VGP334/HelloRobotArm/GameApp.cpp:372-385 | Defined by precedence: THREE beats TWO beats ONE. The contract states that with none of the three held the selection is unchanged, that a selection in 0..2 stays in 0..2, and that any of the three keys gives a value in 0..2. |
| `Controls.AddToAxis` | VGP334/HelloRobotArm/GameApp.cpp:391 | Adding to one component changes that component by exactly delta and leaves the other two components as they were. |
| `Controls.TurnIfDown` | VGP334/HelloRobotArm/GameApp.cpp:387-401 | One `if (IsKeyDown(...))` block. The table keeps its length, no bone but the selected one changes, and nothing changes if the key is not held. `TurnIfDownAt` states its effect as a vector sum. |
| `Controls.Turn` | VGP334/HelloRobotArm/GameApp.cpp:387-401 | One key changes only the selected bone, and only on its own axis, by sign times step. Every other bone and every other axis is unchanged. A selection with no bone behind it changes nothing. |
| `Controls.TurnFrame` | VGP334/HelloRobotArm/GameApp.cpp:387-476 | The six key checks of one frame keep the table length and leave every unselected bone unchanged. |
| `Controls.TurnIfDownAt` | VGP334/HelloRobotArm/GameApp.cpp:387-401 | A key's check adds step times its unit turn if the key is held, and zero otherwise. |
| `Controls.TurnFrameClosedForm` | VGP334/HelloRobotArm/GameApp.cpp:387-476 | One frame moves the selected bone by step * (UP-DOWN, PGDN-PGUP, LEFT-RIGHT) and nothing else. There is no clamping and no wrap-around. |
| `Controls.OpposingKeysCancel` | VGP334/HelloRobotArm/GameApp.cpp:387-416 | Holding LEFT and RIGHT together leaves the selected bone's z angle unchanged, whatever else is held. |
| `Controls.SelectRootAndTurnLeft` | VGP334/HelloRobotArm/GameApp.cpp:372-401 | ONE and LEFT held for one second select bone 0 and add 50 degrees to its z angle. Bones 1 and 2 do not change. |
| `Controls.AccumulationAdditive` | VGP334/HelloRobotArm/GameApp.cpp:391-474 | Two frames with the same keys and time steps d1 and d2 give the same angles as one frame of d1 + d2. |
| `Controls.FramesAccumulate` | VGP334/HelloRobotArm/GameApp.cpp:391-474 | n frames of the same keys turn exactly n times as far as one frame. The angles grow without bound. |
| `Skeleton.ProductCons` | VGP334/HelloRobotArm/GameApp.cpp:520 | Multiplying a product on the left by one more factor gives the product of the longer chain. This relies on associativity. |
| `Skeleton.LinearChainWorld` | VGP334/HelloRobotArm/GameApp.cpp:508-520 | In the chain InitializeBones builds, composing down the parents gives world[i] = local[i] * local[i-1] * ... * local[0]. |
| `Skeleton.Resize` | VGP334/HelloRobotArm/GameApp.cpp:506-507 | Resizing gives a vector of the new size. Existing entries are kept and new slots are default-initialised. |
| `HelloRobotArm.InitialTransform` | VGP334/HelloRobotArm/GameApp.cpp:220-226 | The matrix of node 0 after it is scaled to (10, 20, 10) and moved to (0, 10, 0). `OnUpdate` multiplies every bone's world transform by it on the left. |
| `HelloRobotArm.LocalTransform` | VGP334/HelloRobotArm/GameApp.cpp:525-533 | The root's local transform is its Euler rotation alone. Every other bone's is its rotation times the joint offset, rotation on the left. This order decides the composition order in `ArmPose`. |
| `HelloRobotArm.PosedBones` | VGP334/HelloRobotArm/GameApp.cpp:523-533 | A posed arm is a linear chain whose bone i has the local transform built from angles[i]. |
| `HelloRobotArm.ArmPose` | VGP334/HelloRobotArm/GameApp.cpp:516-533 | Composition order: world[0] = R0, world[1] = R1 * T * R0 and world[2] = R2 * T * R1 * T * R0, where T is the joint offset. |
| `HelloRobotArm.GameApp.constructor` | VGP334/HelloRobotArm/GameApp.cpp:14-18 | Bone 0 is selected, every angle is zero and the bone vectors are empty. |
| `HelloRobotArm.GameApp.InitializeBones` | VGP334/HelloRobotArm/GameApp.cpp:503-512 | Exactly three bones and three world slots. Bone i's parent is i - 1 for i = 1, 2. Entries that already existed are kept. From the initial state this gives a valid linear chain. |
| `HelloRobotArm.GameApp.SelectBone` | VGP334/HelloRobotArm/GameApp.cpp:372-385 | The three sequential checks leave `controlArmCounter` equal to `Selection` of its old value. |
| `HelloRobotArm.GameApp.TurnSelectedIfDown` | VGP334/HelloRobotArm/GameApp.cpp:387-401 | The in-place update of one key check equals `TurnIfDown` of the old angle table. |
| `HelloRobotArm.GameApp.AccumulateAngles` | VGP334/HelloRobotArm/GameApp.cpp:387-476 | The six checks together leave the angle table equal to `TurnFrame` of the old table, with step modelRotationSpeed * deltaTime. |
| `HelloRobotArm.GameApp.RotateRobotArm` | VGP334/HelloRobotArm/GameApp.cpp:523-534 | Every bone's local transform is rebuilt from the current angles and the parents are unchanged. The controlArm argument has no effect. |
| `HelloRobotArm.GameApp.UpdateBones` | VGP334/HelloRobotArm/GameApp.cpp:514-521 | world[i] = local[i] * world[parent(i)] for every bone. The result depends only on the local transforms, which the method does not change, so a repeated call gives the same result. |
| `HelloRobotArm.GameApp.OnUpdate` | VGP334/HelloRobotArm/GameApp.cpp:372-486 | The new selection is `Selection` and the new angles are `TurnFrame`. Node i receives initialTransform * the previous frame's world[i]. The bones are then posed from the new angles, and the world transforms are recomputed from them. |

## Left out

- Window, input-system, graphics-device and GUI setup and teardown; shader,
  texture and mesh loading; scene-graph node creation and wiring; rendering;
  `OnTerminate`. These are I/O and engine services.
- The free camera (walk, strafe and rise with the LSHIFT boost, mouse pitch
  and yaw), the sky sphere following the camera, and the F1 wireframe toggle.
  They drive engine objects whose code is not part of this model.
- The timer and the key states are parameters of `OnUpdate`: `deltaTime` and
  a `KeyState` snapshot of `IsKeyDown`.
- The numerics of the Maths library are uninterpreted. This covers degree to
  radian conversion, Euler angles to quaternion, quaternion to matrix,
  translation entries and the node transform matrix. Matrix44's default value
  is taken to be the identity.
- HelloRobotArm.GameApp.RotateRobotArm: the joint offset is a constant 20
  (`BoneLength`). The code instead reads node 0's `GetScale().y` on each call,
  after `OnUpdate` has already replaced node 0's matrix with
  `SetTransformMatrix` that frame. The `Transform` class is not part of this
  model. So the model assumes that `SetTransformMatrix` leaves the scale at
  the value set at start-up. `ArmPose`'s single offset `T` rests on that
  assumption.
- The early return of `OnUpdate` when the window is closed or ESC is pressed
  is not modelled. On such a frame the timer advances but the rig is not
  updated. The model's `OnUpdate` is a frame that gets past those checks.
- `controlArmCounter`, `angles` and `initialTransform` are namespace-scope
  globals in the code, not members of `GameApp`. The model holds the first
  two as fields of `GameApp`. There is only one `GameApp`, so nothing else
  shares them.
- `float` is idealised as `real`, so rounding is not modelled. With rounding,
  opposite keys need not cancel exactly.
- The 32-bit width of `controlArmCounter` is not modelled. The counter only
  ever holds 0, 1 or 2, so it cannot overflow.
- `mBones[i].parent` is a pointer into the bone vector. It is modelled as an
  index, so dangling after reallocation is not modelled.
- The robot-arm transform nodes' matrices before the first frame are taken to
  be the identity. The first `OnUpdate` overwrites them before anything is
  rendered.
- The solar-system sample, the FSM header and the two WinMain files hold no
  logic of the rig. They are not part of this model.
