/** Keyboard control of the robot arm: which bone the keys ONE, TWO and THREE
    select, and how the arrow and page keys turn the selected bone's Euler
    angles (in degrees) by modelRotationSpeed * deltaTime per frame. */
module Controls {
  import opened Maths

  /** modelRotationSpeed, in degrees per second. */
  const ModelRotationSpeed: real := 50.0

  /** Number of bones, and so of angle triples and selectable indices. */
  const BoneCount: nat := 3

  /** One frame's IsKeyDown result for each key the rig reads. */
  datatype KeyState = KeyState(
    one: bool, two: bool, three: bool,
    left: bool, right: bool, down: bool, up: bool, pageUp: bool, pageDown: bool)

  /** The keys that turn the selected bone, in the order OnUpdate checks them. */
  datatype DirectionKey = Left | Right | Down | Up | PageUp | PageDown

  datatype Axis = X | Y | Z

  function IsDown(keys: KeyState, key: DirectionKey): bool {
    match key
    case Left => keys.left
    case Right => keys.right
    case Down => keys.down
    case Up => keys.up
    case PageUp => keys.pageUp
    case PageDown => keys.pageDown
  }

  /** The axis a direction key turns about. */
  function AxisOf(key: DirectionKey): Axis {
    match key
    case Left => Z
    case Right => Z
    case Down => X
    case Up => X
    case PageUp => Y
    case PageDown => Y
  }

  /** Whether a direction key adds (+1) or subtracts (-1) the step. */
  function SignOf(key: DirectionKey): real {
    match key
    case Left => 1.0
    case Right => -1.0
    case Down => -1.0
    case Up => 1.0
    case PageUp => -1.0
    case PageDown => 1.0
  }

  function Component(v: Vector3, axis: Axis): real {
    match axis
    case X => v.x
    case Y => v.y
    case Z => v.z
  }

  /** v with delta added on one axis. */
  function AddToAxis(v: Vector3, axis: Axis, delta: real): (r: Vector3)
    ensures Component(r, axis) == Component(v, axis) + delta
    ensures forall other: Axis :: other != axis ==> Component(r, other) == Component(v, other)
  {
    match axis
    case X => v.(x := v.x + delta)
    case Y => v.(y := v.y + delta)
    case Z => v.(z := v.z + delta)
  }

  // ---------------------------------------------------------------------
  // Bone selection
  // ---------------------------------------------------------------------

  /** The selected bone after one frame: the last of ONE, TWO, THREE that is
      held decides, so THREE beats TWO beats ONE; with none held the
      selection stays. */
  function Selection(current: nat, keys: KeyState): (r: nat)
    ensures current < BoneCount ==> r < BoneCount
    ensures (keys.one || keys.two || keys.three) ==> r < BoneCount
    ensures !keys.one && !keys.two && !keys.three ==> r == current
  {
    if keys.three then 2
    else if keys.two then 1
    else if keys.one then 0
    else current
  }

  // ---------------------------------------------------------------------
  // Angle accumulation
  // ---------------------------------------------------------------------

  /** One held key turns the selected bone by step on its axis. A selection
      outside the angle table turns nothing. */
  function Turn(angles: seq<Vector3>, selected: nat, key: DirectionKey, step: real): (r: seq<Vector3>)
    ensures |r| == |angles|
    ensures forall j :: 0 <= j < |r| && j != selected ==> r[j] == angles[j]
    ensures selected < |r| ==>
      Component(r[selected], AxisOf(key)) == Component(angles[selected], AxisOf(key)) + SignOf(key) * step
    ensures selected < |r| ==>
      forall other: Axis :: other != AxisOf(key) ==> Component(r[selected], other) == Component(angles[selected], other)
  {
    if selected < |angles| then
      angles[selected := AddToAxis(angles[selected], AxisOf(key), SignOf(key) * step)]
    else
      angles
  }

  /** The key's turn if it is held this frame, no change otherwise. */
  function TurnIfDown(angles: seq<Vector3>, selected: nat, keys: KeyState, key: DirectionKey, step: real): (r: seq<Vector3>)
    ensures |r| == |angles|
    ensures forall j :: 0 <= j < |r| && j != selected ==> r[j] == angles[j]
    ensures !IsDown(keys, key) ==> r == angles
  {
    if IsDown(keys, key) then Turn(angles, selected, key, step) else angles
  }

  /** One frame of direction keys: LEFT, RIGHT, DOWN, UP, PGUP and PGDN are
      checked in that order and each held one is applied on its own, with no
      exclusion between opposite keys. */
  function TurnFrame(angles: seq<Vector3>, selected: nat, keys: KeyState, step: real): (r: seq<Vector3>)
    ensures |r| == |angles|
    ensures forall j :: 0 <= j < |r| && j != selected ==> r[j] == angles[j]
  {
    var afterLeft := TurnIfDown(angles, selected, keys, Left, step);
    var afterRight := TurnIfDown(afterLeft, selected, keys, Right, step);
    var afterDown := TurnIfDown(afterRight, selected, keys, Down, step);
    var afterUp := TurnIfDown(afterDown, selected, keys, Up, step);
    var afterPageUp := TurnIfDown(afterUp, selected, keys, PageUp, step);
    TurnIfDown(afterPageUp, selected, keys, PageDown, step)
  }

  // ---------------------------------------------------------------------
  // Closed form: a frame's turn is step times the net direction of the keys
  // ---------------------------------------------------------------------

  function Plus(a: Vector3, b: Vector3): Vector3 {
    Vector3(a.x + b.x, a.y + b.y, a.z + b.z)
  }

  function Scale(v: Vector3, s: real): Vector3 {
    Vector3(s * v.x, s * v.y, s * v.z)
  }

  function Count(held: bool): real {
    if held then 1.0 else 0.0
  }

  /** The unit turn of one key: +1 or -1 on its axis. */
  function Unit(key: DirectionKey): Vector3 {
    match key
    case Left => Vector3(0.0, 0.0, 1.0)
    case Right => Vector3(0.0, 0.0, -1.0)
    case Down => Vector3(-1.0, 0.0, 0.0)
    case Up => Vector3(1.0, 0.0, 0.0)
    case PageUp => Vector3(0.0, -1.0, 0.0)
    case PageDown => Vector3(0.0, 1.0, 0.0)
  }

  /** The net direction of one frame's keys: UP minus DOWN on x, PGDN minus
      PGUP on y, LEFT minus RIGHT on z. */
  function NetDirection(keys: KeyState): Vector3 {
    Vector3(Count(keys.up) - Count(keys.down),
            Count(keys.pageDown) - Count(keys.pageUp),
            Count(keys.left) - Count(keys.right))
  }

  /** What one key adds to the selected bone this frame: step times its unit
      turn if it is held, nothing otherwise. */
  function KeyTurn(keys: KeyState, key: DirectionKey, step: real): Vector3 {
    Scale(Unit(key), Count(IsDown(keys, key)) * step)
  }

  /** Adding on the key's axis is adding step times the key's unit turn. */
  lemma TurnIsUnitStep(v: Vector3, key: DirectionKey, step: real)
    ensures AddToAxis(v, AxisOf(key), SignOf(key) * step) == Plus(v, Scale(Unit(key), step))
  {
    match key
    case Left =>
    case Right =>
    case Down =>
    case Up =>
    case PageUp =>
    case PageDown =>
  }

  /** A held key adds step times its unit turn to the selected bone. */
  lemma TurnIfDownAt(angles: seq<Vector3>, selected: nat, keys: KeyState, key: DirectionKey, step: real)
    requires selected < |angles|
    ensures TurnIfDown(angles, selected, keys, key, step)
         == angles[selected := Plus(angles[selected], KeyTurn(keys, key, step))]
  {
    var v := angles[selected];
    if IsDown(keys, key) {
      assert KeyTurn(keys, key, step) == Scale(Unit(key), step);
      TurnIsUnitStep(v, key, step);
      assert Turn(angles, selected, key, step) == angles[selected := Plus(v, Scale(Unit(key), step))];
    } else {
      assert Plus(v, Scale(Unit(key), 0.0 * step)) == v;
      assert angles[selected := v] == angles;
    }
  }

  /** v moved by the held keys' unit turns one key at a time, in the order
      OnUpdate checks them. */
  function StepByStep(v: Vector3, keys: KeyState, step: real): Vector3 {
    var afterLeft := Plus(v, KeyTurn(keys, Left, step));
    var afterRight := Plus(afterLeft, KeyTurn(keys, Right, step));
    var afterDown := Plus(afterRight, KeyTurn(keys, Down, step));
    var afterUp := Plus(afterDown, KeyTurn(keys, Up, step));
    var afterPageUp := Plus(afterUp, KeyTurn(keys, PageUp, step));
    Plus(afterPageUp, KeyTurn(keys, PageDown, step))
  }

  /** Applying the keys one at a time adds up to step times their net
      direction. */
  lemma StepByStepIsNet(v: Vector3, keys: KeyState, step: real)
    ensures StepByStep(v, keys, step) == Plus(v, Scale(NetDirection(keys), step))
  {
    var left, right := Count(keys.left) * step, Count(keys.right) * step;
    var down, up := Count(keys.down) * step, Count(keys.up) * step;
    var pageUp, pageDown := Count(keys.pageUp) * step, Count(keys.pageDown) * step;
    KeyTurnsOnAxes(keys, step);
    assert StepByStep(v, keys, step)
        == Vector3(v.x - down + up, v.y - pageUp + pageDown, v.z + left - right);
    assert Scale(NetDirection(keys), step) == Vector3(up - down, pageDown - pageUp, left - right);
  }

  /** Each key's turn lies on its own axis and is step long when held. */
  lemma KeyTurnsOnAxes(keys: KeyState, step: real)
    ensures KeyTurn(keys, Left, step) == Vector3(0.0, 0.0, Count(keys.left) * step)
    ensures KeyTurn(keys, Right, step) == Vector3(0.0, 0.0, -(Count(keys.right) * step))
    ensures KeyTurn(keys, Down, step) == Vector3(-(Count(keys.down) * step), 0.0, 0.0)
    ensures KeyTurn(keys, Up, step) == Vector3(Count(keys.up) * step, 0.0, 0.0)
    ensures KeyTurn(keys, PageUp, step) == Vector3(0.0, -(Count(keys.pageUp) * step), 0.0)
    ensures KeyTurn(keys, PageDown, step) == Vector3(0.0, Count(keys.pageDown) * step, 0.0)
  {
  }

  /** Independent reference for TurnFrame: the selected bone moves by step
      times the net direction of the held keys and nothing else moves. The
      angles are not clamped and not wrapped. */
  lemma TurnFrameClosedForm(angles: seq<Vector3>, selected: nat, keys: KeyState, step: real)
    ensures TurnFrame(angles, selected, keys, step)
         == if selected < |angles|
            then angles[selected := Plus(angles[selected], Scale(NetDirection(keys), step))]
            else angles
  {
    if selected < |angles| {
      var v0 := angles[selected];
      var a1 := TurnIfDown(angles, selected, keys, Left, step);
      TurnIfDownAt(angles, selected, keys, Left, step);
      var a2 := TurnIfDown(a1, selected, keys, Right, step);
      TurnIfDownAt(a1, selected, keys, Right, step);
      var a3 := TurnIfDown(a2, selected, keys, Down, step);
      TurnIfDownAt(a2, selected, keys, Down, step);
      var a4 := TurnIfDown(a3, selected, keys, Up, step);
      TurnIfDownAt(a3, selected, keys, Up, step);
      var a5 := TurnIfDown(a4, selected, keys, PageUp, step);
      TurnIfDownAt(a4, selected, keys, PageUp, step);
      var a6 := TurnIfDown(a5, selected, keys, PageDown, step);
      TurnIfDownAt(a5, selected, keys, PageDown, step);
      assert a6 == angles[selected := StepByStep(v0, keys, step)];
      StepByStepIsNet(v0, keys, step);
      assert TurnFrame(angles, selected, keys, step) == a6;
    }
  }

  /** LEFT and RIGHT held together leave the z angle where it was. */
  lemma OpposingKeysCancel(angles: seq<Vector3>, selected: nat, keys: KeyState, step: real)
    requires selected < |angles|
    requires keys.left && keys.right
    ensures TurnFrame(angles, selected, keys, step)[selected].z == angles[selected].z
  {
    TurnFrameClosedForm(angles, selected, keys, step);
  }

  /** Holding ONE and LEFT for a one-second frame selects bone 0 and turns
      it 50 degrees about z; nothing else moves. */
  lemma SelectRootAndTurnLeft(angles: seq<Vector3>, current: nat)
    requires |angles| == BoneCount
    ensures var keys := KeyState(true, false, false, true, false, false, false, false, false);
      var r := TurnFrame(angles, Selection(current, keys), keys, ModelRotationSpeed * 1.0);
      && r[0] == Vector3(angles[0].x, angles[0].y, angles[0].z + 50.0)
      && r[1] == angles[1] && r[2] == angles[2]
  {
    var keys := KeyState(true, false, false, true, false, false, false, false, false);
    TurnFrameClosedForm(angles, 0, keys, ModelRotationSpeed * 1.0);
  }

  /** Two frames with the same keys, of steps d1 and d2, turn as far as one
      frame of step d1 + d2. */
  lemma AccumulationAdditive(angles: seq<Vector3>, selected: nat, keys: KeyState, d1: real, d2: real)
    ensures TurnFrame(TurnFrame(angles, selected, keys, d1), selected, keys, d2)
         == TurnFrame(angles, selected, keys, d1 + d2)
  {
    var once := TurnFrame(angles, selected, keys, d1);
    TurnFrameClosedForm(angles, selected, keys, d1);
    TurnFrameClosedForm(once, selected, keys, d2);
    TurnFrameClosedForm(angles, selected, keys, d1 + d2);
    if selected < |angles| {
      var n := NetDirection(keys);
      assert Plus(Plus(angles[selected], Scale(n, d1)), Scale(n, d2)) == Plus(angles[selected], Scale(n, d1 + d2));
      assert once[selected := Plus(once[selected], Scale(n, d2))]
          == angles[selected := Plus(angles[selected], Scale(n, d1 + d2))];
    }
  }

  /** n frames with the same keys and step. */
  function Frames(angles: seq<Vector3>, selected: nat, keys: KeyState, step: real, n: nat): seq<Vector3>
    decreases n
  {
    if n == 0 then angles else TurnFrame(Frames(angles, selected, keys, step, n - 1), selected, keys, step)
  }

  /** Holding the same keys for n frames turns n times as far as one frame:
      the angles grow without bound and are never wrapped. */
  lemma {:induction false} FramesAccumulate(angles: seq<Vector3>, selected: nat, keys: KeyState, step: real, n: nat)
    ensures Frames(angles, selected, keys, step, n) == TurnFrame(angles, selected, keys, n as real * step)
    decreases n
  {
    if n == 0 {
      TurnFrameClosedForm(angles, selected, keys, 0.0);
      if selected < |angles| {
        assert Plus(angles[selected], Scale(NetDirection(keys), 0.0)) == angles[selected];
        assert angles[selected := angles[selected]] == angles;
      }
    } else {
      var m: nat := n - 1;
      var before := m as real * step;
      FramesAccumulate(angles, selected, keys, step, m);
      assert Frames(angles, selected, keys, step, m) == TurnFrame(angles, selected, keys, before);
      assert Frames(angles, selected, keys, step, n)
          == TurnFrame(Frames(angles, selected, keys, step, m), selected, keys, step);
      assert Frames(angles, selected, keys, step, n)
          == TurnFrame(TurnFrame(angles, selected, keys, before), selected, keys, step);
      AccumulationAdditive(angles, selected, keys, before, step);
      assert before + step == n as real * step;
    }
  }
}
