/**
 * The server-side first-person camera controller (`PointerLockControls`).
 *
 * The camera's quaternion is represented by the two Euler angles the controller
 * edits (yaw about the world up axis, then pitch about the local right axis);
 * converting between quaternion and Euler angles is taken to be the identity.
 * `camera.matrix` is a separate field that only the renderer refreshes, and the
 * move commands read their direction from it.
 */
module Controls {
  import opened Wrappers
  import opened Geometry
  import opened Protocol

  /** Radians of rotation per pixel of mouse movement. */
  const LOOK_SPEED: real := 0.002
  /** `pointerSpeed`: a private field that is never reassigned. */
  const POINTER_SPEED: real := 1.0
  /** Default `minPolarAngle` and `maxPolarAngle`; no code in the repository assigns them. */
  const MIN_POLAR_ANGLE: real := 0.0
  const MAX_POLAR_ANGLE: real := PI
  const HALF_PI: real := PI / 2.0
  /** The range the pitch is clamped into after a look. */
  const PITCH_MIN: real := HALF_PI - MAX_POLAR_ANGLE
  const PITCH_MAX: real := HALF_PI - MIN_POLAR_ANGLE

  /** The Euler angles `y` (yaw) and `x` (pitch) of the camera, in 'YXZ' order with no roll. */
  datatype Orientation = Orientation(yaw: real, pitch: real)

  /** `new Euler(0, 0, 0, 'YXZ')`. */
  const LEVEL: Orientation := Orientation(0.0, 0.0)

  /** The listeners `connect()` registers and `disconnect()` removes. */
  const CONNECT_HANDLERS: multiset<EventName> :=
    multiset{LockEv} + multiset{UnlockEv} + multiset{PointerLockErrorEv} +
    multiset{MoveEv(Forward)} + multiset{MoveEv(Backward)} + multiset{MoveEv(Left)} +
    multiset{MoveEv(Right)} + multiset{MoveEv(Up)} + multiset{MoveEv(Down)}

  /** With the default polar angles the pitch range is [-pi/2, pi/2], which contains the level pitch 0. */
  lemma DefaultPitchRange()
    ensures PITCH_MIN == -HALF_PI && PITCH_MAX == HALF_PI
    ensures PITCH_MIN < LEVEL.pitch < PITCH_MAX
  {
  }

  /** `x || 0` for an event field: a missing value counts as zero. */
  function OrZero(m: Option<real>): real {
    match m
    case None => 0.0
    case Some(v) => v
  }

  /** `Math.max(lo, Math.min(hi, x))`. */
  function Clamp(lo: real, hi: real, x: real): (r: real)
    ensures lo <= r
    ensures lo <= hi ==> r <= hi
    ensures lo <= x <= hi ==> r == x
    ensures x < lo ==> r == lo
    ensures lo <= hi < x ==> r == hi
    ensures hi < lo ==> r == lo
  {
    var m := if x < hi then x else hi;
    if m < lo then lo else m
  }

  /** The angle one event field turns the camera by: `movement * 0.002 * pointerSpeed`. */
  function LookDelta(movement: Option<real>): real {
    OrZero(movement) * LOOK_SPEED * POINTER_SPEED
  }

  /** The orientation after one `onMouseMove` while locked. */
  function Look(o: Orientation, movementX: Option<real>, movementY: Option<real>): (r: Orientation)
    ensures r.yaw == o.yaw - LookDelta(movementX)
    ensures PITCH_MIN <= r.pitch <= PITCH_MAX
    ensures var p := o.pitch - LookDelta(movementY);
            (PITCH_MIN <= p <= PITCH_MAX ==> r.pitch == p) &&
            (p < PITCH_MIN ==> r.pitch == PITCH_MIN) &&
            (PITCH_MAX < p ==> r.pitch == PITCH_MAX)
  {
    var yaw := o.yaw - LookDelta(movementX);
    var pitch := o.pitch - LookDelta(movementY);
    Orientation(yaw, Clamp(PITCH_MIN, PITCH_MAX, pitch))
  }

  /** `k` looks with the same event, as when `k` mousemove listeners are registered. */
  function LookTimes(o: Orientation, movementX: Option<real>, movementY: Option<real>, k: nat): Orientation
  {
    if k == 0 then o else Look(LookTimes(o, movementX, movementY, k - 1), movementX, movementY)
  }

  /** Yaw accumulates exactly; pitch stays in range however large the deltas. */
  lemma {:induction false} LookTimesEffect(o: Orientation, movementX: Option<real>, movementY: Option<real>, k: nat)
    ensures LookTimes(o, movementX, movementY, k).yaw == o.yaw - Times(k, LookDelta(movementX))
    ensures k > 0 ==> PITCH_MIN <= LookTimes(o, movementX, movementY, k).pitch <= PITCH_MAX
  {
    if k > 0 {
      LookTimesEffect(o, movementX, movementY, k - 1);
      TimesStep(k, LookDelta(movementX));
    }
  }

  /**
   * Repeated downward motion (movementY >= 0 lowers the pitch) from an in-range pitch
   * saturates at PITCH_MIN instead of wrapping.
   */
  lemma {:induction false} LookTimesSaturates(o: Orientation, movementX: Option<real>, movementY: Option<real>, k: nat)
    requires PITCH_MIN <= o.pitch <= PITCH_MAX
    requires OrZero(movementY) >= 0.0
    ensures LookTimes(o, movementX, movementY, k).pitch == PitchFloor(o.pitch - Times(k, LookDelta(movementY)))
  {
    if k > 0 {
      LookTimesSaturates(o, movementX, movementY, k - 1);
      LookTimesEffect(o, movementX, movementY, k - 1);
      var prev := LookTimes(o, movementX, movementY, k - 1);
      var d := LookDelta(movementY);
      var before := o.pitch - Times(k - 1, d);
      assert o.pitch - Times(k, d) == before - d by { TimesStep(k, d); }
      assert PITCH_MIN <= prev.pitch <= PITCH_MAX;
      assert LookTimes(o, movementX, movementY, k) == Look(prev, movementX, movementY);
    }
  }

  /** A pitch raised to PITCH_MIN if it falls below it. */
  function PitchFloor(p: real): real {
    if p < PITCH_MIN then PITCH_MIN else p
  }

  /** The direction a move command translates along, read from the camera's basis columns. */
  function Direction(m: Basis, axis: Axis): Vec3 {
    match axis
    case Forward => Negate(m.col2)
    case Backward => m.col2
    case Right => m.col0
    case Left => Negate(m.col0)
    case Up => Negate(m.col1)
    case Down => m.col1
  }

  function Opposite(axis: Axis): Axis {
    match axis
    case Forward => Backward
    case Backward => Forward
    case Right => Left
    case Left => Right
    case Up => Down
    case Down => Up
  }

  /**
   * The position after a move command. Forward, Right and Up add a scaled basis column;
   * Backward, Left and Down are Forward, Right and Up with the distance negated.
   */
  function Moved(p: Vec3, m: Basis, axis: Axis, distance: real): Vec3
    decreases if axis.Backward? || axis.Left? || axis.Down? then 1 else 0
  {
    match axis
    case Forward => AddScaled(p, Negate(m.col2), distance)
    case Backward => Moved(p, m, Forward, -distance)
    case Right => AddScaled(p, m.col0, distance)
    case Left => Moved(p, m, Right, -distance)
    case Up => AddScaled(p, Negate(m.col1), distance)
    case Down => Moved(p, m, Up, -distance)
  }

  /** Every move translates by `distance` along its direction. */
  lemma MovedAlong(p: Vec3, m: Basis, axis: Axis, distance: real)
    ensures Moved(p, m, axis, distance) == AddScaled(p, Direction(m, axis), distance)
  {
    match axis
    case Backward => ScaleNegate(m.col2, distance);
    case Left => ScaleNegate(m.col0, distance);
    case Down => ScaleNegate(m.col1, distance);
    case _ =>
  }

  /** The opposite command is the same command with the distance negated. */
  lemma OppositeNegates(p: Vec3, m: Basis, axis: Axis, distance: real)
    ensures Moved(p, m, Opposite(axis), distance) == Moved(p, m, axis, -distance)
  {
  }

  /** A move followed by its opposite with the same distance restores the position exactly. */
  lemma MoveThenOpposite(p: Vec3, m: Basis, axis: Axis, distance: real)
    ensures Moved(Moved(p, m, axis, distance), m, Opposite(axis), distance) == p
  {
  }

  /**
   * A move over one matrix and the opposite move over another: the second runs along the
   * other matrix's vector, so the position ends displaced by the difference.
   */
  lemma MoveThenOppositeAcross(p: Vec3, m: Basis, m': Basis, axis: Axis, distance: real)
    ensures Moved(Moved(p, m, axis, distance), m', Opposite(axis), distance) ==
            AddScaled(AddScaled(p, Direction(m, axis), distance), Direction(m', axis), -distance)
  {
    MovedAlong(p, m, axis, distance);
    OppositeNegates(Moved(p, m, axis, distance), m', axis, distance);
    MovedAlong(Moved(p, m, axis, distance), m', axis, -distance);
  }

  /** A move by distance 0 is a no-op. */
  lemma MoveZero(p: Vec3, m: Basis, axis: Axis)
    ensures Moved(p, m, axis, 0.0) == p
  {
  }

  /** A sequence of move commands of one distance, applied in order with a fixed basis. */
  function MovedAll(p: Vec3, m: Basis, axes: seq<Axis>, distance: real): Vec3
    decreases |axes|
  {
    if axes == [] then p
    else Moved(MovedAll(p, m, axes[..|axes| - 1], distance), m, axes[|axes| - 1], distance)
  }

  /** How many more times `a` than `Opposite(a)` occurs in `axes`. */
  function Excess(axes: seq<Axis>, a: Axis): int {
    multiset(axes)[a] as int - multiset(axes)[Opposite(a)] as int
  }

  /** The net displacement, per unit distance, of a sequence of moves. */
  function Drift(m: Basis, axes: seq<Axis>): Vec3 {
    Combination(m, Excess(axes, Forward) as real, Excess(axes, Right) as real, Excess(axes, Up) as real)
  }

  /** `f` steps forward, `r` right and `u` up, per unit distance. */
  function Combination(m: Basis, f: real, r: real, u: real): Vec3 {
    Add(Add(Scale(Direction(m, Forward), f), Scale(Direction(m, Right), r)), Scale(Direction(m, Up), u))
  }

  /** +1 when `last` is `a`, -1 when it is the opposite of `a`, 0 otherwise. */
  function Shift(last: Axis, a: Axis): real {
    if last == a then 1.0 else if last == Opposite(a) then -1.0 else 0.0
  }

  lemma CombinationStep(m: Basis, f: real, r: real, u: real, last: Axis)
    ensures Combination(m, f + Shift(last, Forward), r + Shift(last, Right), u + Shift(last, Up)) ==
            Add(Combination(m, f, r, u), Direction(m, last))
  {
    match last
    case Forward => ScaleShift(Direction(m, Forward), f);
    case Backward => ScaleShift(Direction(m, Forward), f);
    case Right => ScaleShift(Direction(m, Right), r);
    case Left => ScaleShift(Direction(m, Right), r);
    case Up => ScaleShift(Direction(m, Up), u);
    case Down => ScaleShift(Direction(m, Up), u);
  }

  /** A run of moves only depends on how many of each command it holds. */
  lemma {:induction false} MovedAllDrift(p: Vec3, m: Basis, axes: seq<Axis>, distance: real)
    ensures MovedAll(p, m, axes, distance) == AddScaled(p, Drift(m, axes), distance)
    decreases |axes|
  {
    if axes != [] {
      var front, last := axes[..|axes| - 1], axes[|axes| - 1];
      MovedAllDrift(p, m, front, distance);
      MovedAlong(MovedAll(p, m, front, distance), m, last, distance);
      DriftSnoc(m, axes);
      AddScaledTwice(p, Drift(m, front), Direction(m, last), distance);
    }
  }

  /** The last move raises the excess of its own axis by one and lowers its opposite's by one. */
  lemma ExcessSnoc(axes: seq<Axis>, a: Axis)
    requires axes != []
    ensures Excess(axes, a) as real == Excess(axes[..|axes| - 1], a) as real + Shift(axes[|axes| - 1], a)
  {
    var front, last := axes[..|axes| - 1], axes[|axes| - 1];
    assert axes == front + [last];
    assert multiset(axes) == multiset(front) + multiset{last};
  }

  lemma DriftSnoc(m: Basis, axes: seq<Axis>)
    requires axes != []
    ensures Drift(m, axes) == Add(Drift(m, axes[..|axes| - 1]), Direction(m, axes[|axes| - 1]))
  {
    var front := axes[..|axes| - 1];
    ExcessSnoc(axes, Forward);
    ExcessSnoc(axes, Right);
    ExcessSnoc(axes, Up);
    CombinationStep(m, Excess(front, Forward) as real, Excess(front, Right) as real, Excess(front, Up) as real,
                    axes[|axes| - 1]);
  }

  /** As many moves forward as backward, right as left and up as down leave the position unchanged. */
  lemma BalancedMovesCancel(p: Vec3, m: Basis, axes: seq<Axis>, distance: real)
    requires multiset(axes)[Forward] == multiset(axes)[Backward]
    requires multiset(axes)[Right] == multiset(axes)[Left]
    requires multiset(axes)[Up] == multiset(axes)[Down]
    ensures MovedAll(p, m, axes, distance) == p
  {
    MovedAllDrift(p, m, axes, distance);
  }

  /** The camera: its position, its orientation and the basis columns of its last refreshed matrix. */
  class Camera {
    var position: Vec3
    var orientation: Orientation
    var matrix: Basis

    /** A new `PerspectiveCamera` sits at the origin, level, with an identity matrix. */
    constructor ()
      ensures position == ORIGIN && orientation == LEVEL && matrix == IDENTITY
    {
      position := ORIGIN;
      orientation := LEVEL;
      matrix := IDENTITY;
    }
  }

  class PointerLockControls {
    const camera: Camera
    const socket: Socket
    var isLocked: bool

    /** Starts unlocked and subscribes the control handlers (`connect()`). */
    constructor (camera: Camera, socket: Socket)
      modifies socket
      ensures this.camera == camera && this.socket == socket
      ensures !isLocked
      ensures socket.listeners == old(socket.listeners) + CONNECT_HANDLERS
    {
      this.camera := camera;
      this.socket := socket;
      isLocked := false;
      new;
      Connect();
    }

    /** `onMouseMove`: ignored unless locked; otherwise turns the camera and clamps the pitch. */
    method OnMouseMove(movementX: Option<real>, movementY: Option<real>)
      modifies camera
      ensures camera.orientation == if isLocked then Look(old(camera.orientation), movementX, movementY)
                                    else old(camera.orientation)
      ensures camera.position == old(camera.position) && camera.matrix == old(camera.matrix)
    {
      if !isLocked {
        return;
      }
      camera.orientation := Look(camera.orientation, movementX, movementY);
    }

    /** `lock`: subscribes `mousemove` (once more) and sets the lock flag. */
    method Lock()
      modifies this, socket
      ensures isLocked
      ensures socket.listeners == old(socket.listeners) + multiset{MouseMoveEv}
    {
      socket.On(MouseMoveEv);
      isLocked := true;
    }

    /** `unlock`: removes one `mousemove` subscription and clears the lock flag. */
    method Unlock()
      modifies this, socket
      ensures !isLocked
      ensures socket.listeners == old(socket.listeners) - multiset{MouseMoveEv}
    {
      socket.Off(MouseMoveEv);
      isLocked := false;
    }

    /** `onPointerlockError`: unsubscribes what `connect()` subscribed; the lock flag stays. */
    method OnPointerlockError()
      modifies socket
      ensures socket.listeners == old(socket.listeners) - CONNECT_HANDLERS
    {
      Disconnect();
    }

    method Connect()
      modifies socket
      ensures socket.listeners == old(socket.listeners) + CONNECT_HANDLERS
    {
      socket.On(LockEv);
      socket.On(UnlockEv);
      socket.On(PointerLockErrorEv);
      socket.On(MoveEv(Forward));
      socket.On(MoveEv(Backward));
      socket.On(MoveEv(Left));
      socket.On(MoveEv(Right));
      socket.On(MoveEv(Up));
      socket.On(MoveEv(Down));
    }

    method Disconnect()
      modifies socket
      ensures socket.listeners == old(socket.listeners) - CONNECT_HANDLERS
    {
      ghost var before := socket.listeners;
      socket.Off(LockEv);
      ghost var removed := multiset{LockEv};
      socket.Off(UnlockEv);
      OffAfterOff(before, removed, UnlockEv);
      removed := removed + multiset{UnlockEv};
      socket.Off(PointerLockErrorEv);
      OffAfterOff(before, removed, PointerLockErrorEv);
      removed := removed + multiset{PointerLockErrorEv};
      socket.Off(MoveEv(Forward));
      OffAfterOff(before, removed, MoveEv(Forward));
      removed := removed + multiset{MoveEv(Forward)};
      socket.Off(MoveEv(Backward));
      OffAfterOff(before, removed, MoveEv(Backward));
      removed := removed + multiset{MoveEv(Backward)};
      socket.Off(MoveEv(Left));
      OffAfterOff(before, removed, MoveEv(Left));
      removed := removed + multiset{MoveEv(Left)};
      socket.Off(MoveEv(Right));
      OffAfterOff(before, removed, MoveEv(Right));
      removed := removed + multiset{MoveEv(Right)};
      socket.Off(MoveEv(Up));
      OffAfterOff(before, removed, MoveEv(Up));
      removed := removed + multiset{MoveEv(Up)};
      socket.Off(MoveEv(Down));
      OffAfterOff(before, removed, MoveEv(Down));
      removed := removed + multiset{MoveEv(Down)};
    }

    method Dispose()
      modifies socket
      ensures socket.listeners == old(socket.listeners) - CONNECT_HANDLERS
    {
      Disconnect();
    }

    method MoveForward(distance: real)
      modifies camera
      ensures camera.position == Moved(old(camera.position), camera.matrix, Forward, distance)
      ensures camera.orientation == old(camera.orientation) && camera.matrix == old(camera.matrix)
    {
      camera.position := AddScaled(camera.position, Negate(camera.matrix.col2), distance);
    }

    method MoveBackward(distance: real)
      modifies camera
      ensures camera.position == Moved(old(camera.position), camera.matrix, Backward, distance)
      ensures camera.orientation == old(camera.orientation) && camera.matrix == old(camera.matrix)
    {
      MoveForward(-distance);
    }

    method MoveRight(distance: real)
      modifies camera
      ensures camera.position == Moved(old(camera.position), camera.matrix, Right, distance)
      ensures camera.orientation == old(camera.orientation) && camera.matrix == old(camera.matrix)
    {
      camera.position := AddScaled(camera.position, camera.matrix.col0, distance);
    }

    method MoveLeft(distance: real)
      modifies camera
      ensures camera.position == Moved(old(camera.position), camera.matrix, Left, distance)
      ensures camera.orientation == old(camera.orientation) && camera.matrix == old(camera.matrix)
    {
      MoveRight(-distance);
    }

    method MoveUp(distance: real)
      modifies camera
      ensures camera.position == Moved(old(camera.position), camera.matrix, Up, distance)
      ensures camera.orientation == old(camera.orientation) && camera.matrix == old(camera.matrix)
    {
      camera.position := AddScaled(camera.position, Negate(camera.matrix.col1), distance);
    }

    method MoveDown(distance: real)
      modifies camera
      ensures camera.position == Moved(old(camera.position), camera.matrix, Down, distance)
      ensures camera.orientation == old(camera.orientation) && camera.matrix == old(camera.matrix)
    {
      MoveUp(-distance);
    }

    /** `reset(position)`: puts the camera at `position`, level; the matrix is not refreshed. */
    method Reset(position: Vec3)
      modifies camera
      ensures camera.position == position && camera.orientation == LEVEL
      ensures camera.matrix == old(camera.matrix)
    {
      camera.position := position;
      camera.orientation := LEVEL;
    }
  }
}
