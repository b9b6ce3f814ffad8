/**
 * Camera.cpp: a camera owns one Transform and keeps a view and a projection
 * matrix. Keyboard and mouse state, which the source polls from its input
 * module, are an explicit parameter of `Update`.
 */
module Cameras {
  import opened Math3D
  import opened Transforms

  /** The input state one `Update` call polls. */
  datatype InputState = InputState(
    keyW: bool, keyS: bool, keyA: bool, keyD: bool,
    keySpace: bool, keyX: bool, keyShift: bool,
    mouseLeft: bool, mouseDx: int, mouseDy: int)

  /** Camera.h's member defaults. */
  const FieldOfView: real := 1.5707
  const NearClip: real := 0.01
  const FarClip: real := 500.0
  const MoveSpeed: real := 1.0
  const MouseLookSpeed: real := 0.01

  /** The world up vector every view matrix is built with. */
  const WorldUp: Vec3 := Vec3(0.0, 1.0, 0.0)

  function SprintFactor(shift: bool): real {
    if shift then 5.0 else 1.0
  }

  /** The distance one held movement key moves the camera this frame. */
  function Step(dt: real, input: InputState): real {
    dt * MoveSpeed * SprintFactor(input.keyShift)
  }

  /** The distance S, A or X moves the camera this frame (a negative step). */
  function BackStep(dt: real, input: InputState): real {
    dt * -MoveSpeed * SprintFactor(input.keyShift)
  }

  /** The effect of one movement key: move by delta while it is held. */
  function KeyMove(held: bool, p: Vec3, delta: Vec3): Vec3 {
    if held then Add(p, delta) else p
  }

  /**
   * Where the six movement keys take position p when the orientation is r:
   * W/S and D/A move along the rotated local z and x axes, Space/X along the
   * world y axis, in the order the source tests them.
   */
  function MovedPosition(rotateBy: QuatRotate, p: Vec3, r: Vec3, dt: real, input: InputState): Vec3 {
    var ahead := Step(dt, input);
    var back := BackStep(dt, input);
    var p1 := KeyMove(input.keyW, p, RotateVector(rotateBy, Vec3(0.0, 0.0, ahead), r));
    var p2 := KeyMove(input.keyS, p1, RotateVector(rotateBy, Vec3(0.0, 0.0, back), r));
    var p3 := KeyMove(input.keyD, p2, RotateVector(rotateBy, Vec3(ahead, 0.0, 0.0), r));
    var p4 := KeyMove(input.keyA, p3, RotateVector(rotateBy, Vec3(back, 0.0, 0.0), r));
    var p5 := KeyMove(input.keySpace, p4, Vec3(0.0, ahead, 0.0));
    KeyMove(input.keyX, p5, Vec3(0.0, back, 0.0))
  }

  /**
   * The yaw clamp: a yaw beyond a quarter turn either way resets the whole
   * rotation to (0, +-pi/2, 0), discarding pitch and roll.
   */
  function ClampYaw(r: Vec3): (c: Vec3)
    ensures -PiOver2 <= c.y <= PiOver2
    ensures c == r <==> -PiOver2 <= r.y <= PiOver2
    ensures c != r ==> c.x == 0.0 && c.z == 0.0 && (c.y == PiOver2 <==> r.y > PiOver2)
  {
    if r.y > PiOver2 then Vec3(0.0, PiOver2, 0.0)
    else if r.y < -PiOver2 then Vec3(0.0, -PiOver2, 0.0)
    else r
  }

  /** The rotation after the mouse-look branch of `Update`. */
  function LookedRotation(r: Vec3, input: InputState): Vec3 {
    if input.mouseLeft then
      ClampYaw(Add(r, Vec3(input.mouseDy as real * MouseLookSpeed, input.mouseDx as real * MouseLookSpeed, 0.0)))
    else r
  }

  class Camera {
    const transform: Transform
    var viewMat: Matrix
    var projectionMat: Matrix
    var isPerspective: bool

    /** The camera's transform keeps its caches honest and its yaw within a quarter turn. */
    ghost predicate Valid()
      reads transform
    {
      transform.Valid() && -PiOver2 <= transform.rotation.y <= PiOver2
    }

    /** The view matrix the current transform calls for. */
    ghost function ExpectedView(): Matrix
      reads this, transform
    {
      LookTo(transform.position, RotateVector(transform.rotateBy, UnitZ, transform.rotation), WorldUp)
    }

    constructor (aspectRatio: real, startingPosition: Vec3, rotateBy: QuatRotate)
      ensures Valid() && fresh(transform) && transform.rotateBy == rotateBy
      ensures transform.position == startingPosition
      ensures transform.rotation == Zero && transform.scale == One
      ensures isPerspective
      ensures viewMat == LookTo(startingPosition, RotateVector(rotateBy, UnitZ, Zero), WorldUp)
      ensures projectionMat == PerspectiveFov(FieldOfView, aspectRatio, NearClip, FarClip)
    {
      transform := new Transform(rotateBy);
      isPerspective := true;
      new;
      transform.SetPosition(startingPosition);
      UpdateViewMatrix();
      UpdateProjectionMatrix(aspectRatio);
    }

    /** Returns the cached view matrix; nothing is recomputed. */
    method GetViewMatrix() returns (m: Matrix)
      ensures m == viewMat
    {
      return viewMat;
    }

    /** Returns the cached projection matrix; nothing is recomputed. */
    method GetProjectionMatrix() returns (m: Matrix)
      ensures m == projectionMat
    {
      return projectionMat;
    }

    /** One frame of fly-camera control, then an unconditional view refresh. */
    method Update(dt: real, input: InputState)
      requires Valid()
      modifies this, transform
      ensures Valid()
      ensures transform.position
              == MovedPosition(transform.rotateBy, old(transform.position), old(transform.rotation), dt, input)
      ensures transform.rotation == LookedRotation(old(transform.rotation), input)
      ensures transform.scale == old(transform.scale)
      ensures viewMat == ExpectedView()
      ensures projectionMat == old(projectionMat) && isPerspective == old(isPerspective)
    {
      MoveByKeys(dt, input);
      LookByMouse(input);
      UpdateViewMatrix();
    }

    /** The keyboard half of `Update`: the six movement keys in source order. */
    method MoveByKeys(dt: real, input: InputState)
      requires transform.Valid()
      modifies transform
      ensures transform.Valid()
      ensures transform.position
              == MovedPosition(transform.rotateBy, old(transform.position), old(transform.rotation), dt, input)
      ensures transform.rotation == old(transform.rotation) && transform.scale == old(transform.scale)
    {
      var ahead := Step(dt, input);
      var back := BackStep(dt, input);
      MoveRelativeIfHeld(input.keyW, Vec3(0.0, 0.0, ahead));
      MoveRelativeIfHeld(input.keyS, Vec3(0.0, 0.0, back));
      MoveRelativeIfHeld(input.keyD, Vec3(ahead, 0.0, 0.0));
      MoveRelativeIfHeld(input.keyA, Vec3(back, 0.0, 0.0));
      MoveAbsoluteIfHeld(input.keySpace, Vec3(0.0, ahead, 0.0));
      MoveAbsoluteIfHeld(input.keyX, Vec3(0.0, back, 0.0));
    }

    /** One of the W, S, D, A tests: while the key is held, move along the camera's own axes. */
    method MoveRelativeIfHeld(held: bool, offset: Vec3)
      requires transform.Valid()
      modifies transform
      ensures transform.Valid()
      ensures transform.position == KeyMove(held, old(transform.position), RotateVector(transform.rotateBy, offset, old(transform.rotation)))
      ensures transform.rotation == old(transform.rotation) && transform.scale == old(transform.scale)
    {
      if held {
        transform.MoveRelative(offset);
      }
    }

    /** The Space and X tests: while the key is held, move along the world axes. */
    method MoveAbsoluteIfHeld(held: bool, offset: Vec3)
      requires transform.Valid()
      modifies transform
      ensures transform.Valid()
      ensures transform.position == KeyMove(held, old(transform.position), offset)
      ensures transform.rotation == old(transform.rotation) && transform.scale == old(transform.scale)
    {
      if held {
        transform.MoveAbsolute(offset);
      }
    }

    /** The mouse half of `Update`: accumulate the look deltas, then clamp the yaw. */
    method LookByMouse(input: InputState)
      requires transform.Valid()
      modifies transform
      ensures transform.Valid()
      ensures transform.rotation == LookedRotation(old(transform.rotation), input)
      ensures transform.position == old(transform.position) && transform.scale == old(transform.scale)
    {
      if input.mouseLeft {
        var cursorMovementX := input.mouseDx;
        var cursorMovementY := input.mouseDy;
        transform.Rotate(Vec3(cursorMovementY as real * MouseLookSpeed, cursorMovementX as real * MouseLookSpeed, 0.0));
        if transform.rotation.y > PiOver2 {
          transform.SetRotation(Vec3(0.0, PiOver2, 0.0));
        } else if transform.rotation.y < -PiOver2 {
          transform.SetRotation(Vec3(0.0, -PiOver2, 0.0));
        }
      }
    }

    /** Look-to view from the current position along the current forward vector. */
    method UpdateViewMatrix()
      requires transform.Valid()
      modifies this, transform
      ensures transform.Valid() && viewMat == ExpectedView()
      ensures transform.PoseUnchanged()
      ensures projectionMat == old(projectionMat) && isPerspective == old(isPerspective)
    {
      var pos := transform.position;
      var forward := transform.GetForward();
      viewMat := LookTo(pos, forward, WorldUp);
    }

    /** The projection is rebuilt only for a perspective camera. */
    method UpdateProjectionMatrix(aspectRatio: real)
      modifies this
      ensures isPerspective ==> projectionMat == PerspectiveFov(FieldOfView, aspectRatio, NearClip, FarClip)
      ensures !isPerspective ==> projectionMat == old(projectionMat)
      ensures viewMat == old(viewMat) && isPerspective == old(isPerspective)
    {
      if isPerspective {
        projectionMat := PerspectiveFov(FieldOfView, aspectRatio, NearClip, FarClip);
      }
    }
  }

  /** Holding Space or X moves along world y whatever the orientation. */
  lemma VerticalMoveIgnoresOrientation(rotateBy: QuatRotate, p: Vec3, r1: Vec3, r2: Vec3, dt: real, input: InputState)
    requires !input.keyW && !input.keyS && !input.keyA && !input.keyD
    ensures MovedPosition(rotateBy, p, r1, dt, input) == MovedPosition(rotateBy, p, r2, dt, input)
    ensures input.keySpace && !input.keyX ==>
              MovedPosition(rotateBy, p, r1, dt, input) == Add(p, Vec3(0.0, Step(dt, input), 0.0))
  {
  }

  /** W alone moves along the rotated local z axis, five times as far with Shift. */
  lemma ForwardKeyMovesAlongLocalZ(rotateBy: QuatRotate, p: Vec3, r: Vec3, dt: real, input: InputState)
    requires input.keyW && !input.keyS && !input.keyA && !input.keyD && !input.keySpace && !input.keyX
    ensures MovedPosition(rotateBy, p, r, dt, input) == Add(p, rotateBy(Vec3(0.0, 0.0, Step(dt, input)), r))
    ensures input.keyShift ==> Step(dt, input) == 5.0 * dt * MoveSpeed
  {
  }

  /** With no key held the camera stays put. */
  lemma NoKeysNoMove(rotateBy: QuatRotate, p: Vec3, r: Vec3, dt: real, input: InputState)
    requires !input.keyW && !input.keyS && !input.keyA && !input.keyD && !input.keySpace && !input.keyX
    ensures MovedPosition(rotateBy, p, r, dt, input) == p
  {
  }

  /**
   * The rotation changes only while the left button is down, and then its yaw
   * ends within a quarter turn either way.
   */
  lemma MouseLookBounds(r: Vec3, input: InputState)
    ensures !input.mouseLeft ==> LookedRotation(r, input) == r
    ensures input.mouseLeft ==> -PiOver2 <= LookedRotation(r, input).y <= PiOver2
    ensures (input.mouseLeft && input.mouseDx == 0 && input.mouseDy == 0 && -PiOver2 <= r.y <= PiOver2)
            ==> LookedRotation(r, input) == r
  {
  }
}
