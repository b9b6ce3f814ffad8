/**
 * Transform.cpp: position, pitch/yaw/roll rotation and scale of one object,
 * with two lazily recomputed caches. The world matrix and its inverse
 * transpose are recomputed together when `dirty` is set; the three local
 * direction vectors are recomputed together when `rotDirty` is set. Mutators
 * only overwrite or accumulate the pose and raise flags.
 *
 * The object invariant `Valid` is the caching contract: a clear flag means the
 * cache it guards equals what the current pose calls for.
 */
module Transforms {
  import opened Math3D

  class Transform {
    /** The quaternion rotation DirectXMath performs; fixed for the object's life. */
    const rotateBy: QuatRotate

    var position: Vec3
    var rotation: Vec3
    var scale: Vec3

    var worldMatrix: Matrix
    var worldInverseTranspose: Matrix
    var localRight: Vec3
    var localUp: Vec3
    var localForward: Vec3

    var dirty: bool
    var rotDirty: bool

    /** The world matrix the current pose calls for. */
    function World(): Matrix
      reads this
    {
      WorldOf(position, rotation, scale)
    }

    ghost predicate WorldCached()
      reads this
    {
      worldMatrix == World() && worldInverseTranspose == InverseTranspose(World())
    }

    ghost predicate DirectionsCached()
      reads this
    {
      && localRight == RotateVector(rotateBy, UnitX, rotation)
      && localUp == RotateVector(rotateBy, UnitY, rotation)
      && localForward == RotateVector(rotateBy, UnitZ, rotation)
    }

    /** A cache whose flag is clear is never stale. */
    ghost predicate Valid()
      reads this
    {
      (!dirty ==> WorldCached()) && (!rotDirty ==> DirectionsCached())
    }

    twostate predicate PoseUnchanged()
      reads this
    {
      position == old(position) && rotation == old(rotation) && scale == old(scale)
    }

    twostate predicate WorldCacheUnchanged()
      reads this
    {
      worldMatrix == old(worldMatrix) && worldInverseTranspose == old(worldInverseTranspose)
    }

    twostate predicate DirectionCacheUnchanged()
      reads this
    {
      localRight == old(localRight) && localUp == old(localUp) && localForward == old(localForward)
    }

    /**
     * Transform(): identity pose and identity caches. The source leaves both
     * flags and the direction vectors uninitialised; here both flags start
     * raised and the direction vectors are left unassigned (arbitrary).
     */
    constructor (rotateBy: QuatRotate)
      ensures this.rotateBy == rotateBy
      ensures position == Zero && rotation == Zero && scale == One
      ensures worldMatrix == Identity && worldInverseTranspose == Identity
      ensures dirty && rotDirty
      ensures Valid()
    {
      this.rotateBy := rotateBy;
      position := Zero;
      rotation := Zero;
      scale := One;
      worldMatrix := Identity;
      worldInverseTranspose := Identity;
      dirty := true;
      rotDirty := true;
    }

    /** SetPosition(x, y, z) and SetPosition(XMFLOAT3): overwrite the position. */
    method SetPosition(p: Vec3)
      requires Valid()
      modifies this
      ensures Valid()
      ensures position == p && rotation == old(rotation) && scale == old(scale)
      ensures dirty && rotDirty == old(rotDirty)
      ensures WorldCacheUnchanged() && DirectionCacheUnchanged()
    {
      position := p;
      dirty := true;
    }

    /** SetRotation(pitch, yaw, roll): overwrite the rotation. */
    method SetRotation(r: Vec3)
      requires Valid()
      modifies this
      ensures Valid()
      ensures rotation == r && position == old(position) && scale == old(scale)
      ensures dirty && rotDirty
      ensures WorldCacheUnchanged() && DirectionCacheUnchanged()
    {
      rotation := r;
      dirty := true;
      rotDirty := true;
    }

    /**
     * SetRotation(XMFLOAT3) as written: it stores the current position and
     * ignores its argument.
     */
    method SetRotationFromVector(r: Vec3)
      requires Valid()
      modifies this
      ensures Valid()
      ensures rotation == old(position) && position == old(position) && scale == old(scale)
      ensures dirty && rotDirty
      ensures WorldCacheUnchanged() && DirectionCacheUnchanged()
    {
      rotation := Vec3(position.x, position.y, position.z);
      dirty := true;
      rotDirty := true;
    }

    /** SetScale(x, y, z): overwrite the scale. */
    method SetScale(s: Vec3)
      requires Valid()
      modifies this
      ensures Valid()
      ensures scale == s && position == old(position) && rotation == old(rotation)
      ensures dirty && rotDirty == old(rotDirty)
      ensures WorldCacheUnchanged() && DirectionCacheUnchanged()
    {
      scale := s;
      dirty := true;
    }

    /**
     * SetScale(XMFLOAT3) as written: it stores the current position and
     * ignores its argument.
     */
    method SetScaleFromVector(s: Vec3)
      requires Valid()
      modifies this
      ensures Valid()
      ensures scale == old(position) && position == old(position) && rotation == old(rotation)
      ensures dirty && rotDirty == old(rotDirty)
      ensures WorldCacheUnchanged() && DirectionCacheUnchanged()
    {
      scale := Vec3(position.x, position.y, position.z);
      dirty := true;
    }

    /** Both overloads of GetWorldMatrix. */
    method GetWorldMatrix() returns (m: Matrix)
      requires Valid()
      modifies this
      ensures Valid() && !dirty
      ensures m == World() && m == worldMatrix
      ensures PoseUnchanged() && rotDirty == old(rotDirty) && DirectionCacheUnchanged()
      ensures !old(dirty) ==> unchanged(this)
    {
      if !dirty {
        return worldMatrix;
      }
      RecalculateWorldAndTranspose();
      return worldMatrix;
    }

    method GetWorldInverseTranspose() returns (m: Matrix)
      requires Valid()
      modifies this
      ensures Valid() && !dirty
      ensures m == InverseTranspose(World()) && m == worldInverseTranspose
      ensures PoseUnchanged() && rotDirty == old(rotDirty) && DirectionCacheUnchanged()
      ensures !old(dirty) ==> unchanged(this)
    {
      if !dirty {
        return worldInverseTranspose;
      }
      RecalculateWorldAndTranspose();
      return worldInverseTranspose;
    }

    /** Recomputes both world caches from scale * rotation * translation. */
    method RecalculateWorldAndTranspose()
      requires Valid()
      modifies this
      ensures Valid() && !dirty && WorldCached()
      ensures PoseUnchanged() && rotDirty == old(rotDirty) && DirectionCacheUnchanged()
    {
      var world := WorldOf(position, rotation, scale);
      worldMatrix := world;
      worldInverseTranspose := InverseTranspose(world);
      dirty := false;
    }

    /** Both overloads of MoveAbsolute: world-space translation. */
    method MoveAbsolute(offset: Vec3)
      requires Valid()
      modifies this
      ensures Valid()
      ensures position == Add(old(position), offset)
      ensures rotation == old(rotation) && scale == old(scale)
      ensures dirty && rotDirty == old(rotDirty)
      ensures WorldCacheUnchanged() && DirectionCacheUnchanged()
    {
      position := Vec3(position.x + offset.x, position.y + offset.y, position.z + offset.z);
      dirty := true;
    }

    /** Both overloads of MoveRelative: the offset is first rotated by the orientation. */
    method MoveRelative(offset: Vec3)
      requires Valid()
      modifies this
      ensures Valid()
      ensures position == Add(old(position), RotateVector(rotateBy, offset, rotation))
      ensures rotation == old(rotation) && scale == old(scale)
      ensures dirty && rotDirty == old(rotDirty)
      ensures WorldCacheUnchanged() && DirectionCacheUnchanged()
    {
      var moved := RotateVector(rotateBy, offset, rotation);
      position := Vec3(position.x + moved.x, position.y + moved.y, position.z + moved.z);
      dirty := true;
    }

    /** Both overloads of Rotate: pitch, yaw and roll accumulate. */
    method Rotate(delta: Vec3)
      requires Valid()
      modifies this
      ensures Valid()
      ensures rotation == Add(old(rotation), delta)
      ensures position == old(position) && scale == old(scale)
      ensures dirty && rotDirty
      ensures WorldCacheUnchanged() && DirectionCacheUnchanged()
    {
      rotation := Vec3(rotation.x + delta.x, rotation.y + delta.y, rotation.z + delta.z);
      dirty := true;
      rotDirty := true;
    }

    /** Both overloads of Scale: component-wise multiplication. */
    method Scale(factor: Vec3)
      requires Valid()
      modifies this
      ensures Valid()
      ensures scale == MulComponents(old(scale), factor)
      ensures position == old(position) && rotation == old(rotation)
      ensures dirty && rotDirty == old(rotDirty)
      ensures WorldCacheUnchanged() && DirectionCacheUnchanged()
    {
      scale := Vec3(scale.x * factor.x, scale.y * factor.y, scale.z * factor.z);
      dirty := true;
    }

    method GetRight() returns (v: Vec3)
      requires Valid()
      modifies this
      ensures Valid() && !rotDirty
      ensures v == RotateVector(rotateBy, UnitX, rotation)
      ensures PoseUnchanged() && dirty == old(dirty) && WorldCacheUnchanged()
      ensures !old(rotDirty) ==> unchanged(this)
    {
      if rotDirty {
        RecalculateLocalDirections();
      }
      return localRight;
    }

    method GetUp() returns (v: Vec3)
      requires Valid()
      modifies this
      ensures Valid() && !rotDirty
      ensures v == RotateVector(rotateBy, UnitY, rotation)
      ensures PoseUnchanged() && dirty == old(dirty) && WorldCacheUnchanged()
      ensures !old(rotDirty) ==> unchanged(this)
    {
      if rotDirty {
        RecalculateLocalDirections();
      }
      return localUp;
    }

    method GetForward() returns (v: Vec3)
      requires Valid()
      modifies this
      ensures Valid() && !rotDirty
      ensures v == RotateVector(rotateBy, UnitZ, rotation)
      ensures PoseUnchanged() && dirty == old(dirty) && WorldCacheUnchanged()
      ensures !old(rotDirty) ==> unchanged(this)
    {
      if rotDirty {
        RecalculateLocalDirections();
      }
      return localForward;
    }

    /** Rotates the three unit axes by the current orientation. */
    method RecalculateLocalDirections()
      requires Valid()
      modifies this
      ensures Valid() && !rotDirty && DirectionsCached()
      ensures PoseUnchanged() && dirty == old(dirty) && WorldCacheUnchanged()
    {
      localRight := RotateVector(rotateBy, UnitX, rotation);
      localUp := RotateVector(rotateBy, UnitY, rotation);
      localForward := RotateVector(rotateBy, UnitZ, rotation);
      rotDirty := false;
    }
  }

  /**
   * Two reads of the world matrix with no mutator between them agree, and the
   * second leaves the object exactly as the first left it.
   */
  method WorldMatrixIdempotent(t: Transform) returns (first: Matrix, second: Matrix)
    requires t.Valid()
    modifies t
    ensures first == second == t.World()
    ensures t.Valid() && !t.dirty
  {
    first := t.GetWorldMatrix();
    label between:
    second := t.GetWorldMatrix();
    assert unchanged@between(t);
  }

  /**
   * Whatever sequence of mutators ran before, reading the world matrix gives
   * the matrix of the final pose: setting position then scale, or scale then
   * position, yields the same world matrix.
   */
  method PositionAndScaleCommute(a: Transform, b: Transform, p: Vec3, s: Vec3)
    returns (ma: Matrix, mb: Matrix)
    requires a != b && a.Valid() && b.Valid() && a.rotation == b.rotation
    modifies a, b
    ensures ma == mb == WorldOf(p, a.rotation, s)
  {
    a.SetPosition(p);
    a.SetScale(s);
    ma := a.GetWorldMatrix();
    b.SetScale(s);
    b.SetPosition(p);
    mb := b.GetWorldMatrix();
  }

  /** With orientation (0, 0, 0), a relative move is the same as an absolute one. */
  method RelativeMoveAtZeroRotation(a: Transform, b: Transform, offset: Vec3)
    requires a != b && a.Valid() && b.Valid()
    requires a.position == b.position && a.rotation == Zero
    requires ZeroRotationIsIdentity(a.rotateBy)
    modifies a, b
    ensures a.position == b.position == Add(old(a.position), offset)
  {
    a.MoveRelative(offset);
    b.MoveAbsolute(offset);
  }

  /**
   * The vector overload of SetRotation, applied to a new transform with the
   * argument (1, 2, 3), stores the position (0, 0, 0) instead.
   */
  method RotationOverloadStoresPosition(rotateBy: QuatRotate) returns (stored: Vec3)
    ensures stored == Zero && stored != Vec3(1.0, 2.0, 3.0)
  {
    var t := new Transform(rotateBy);
    t.SetRotationFromVector(Vec3(1.0, 2.0, 3.0));
    stored := t.rotation;
  }

  /**
   * The vector overload of SetScale, applied to a new transform with the
   * argument (2, 2, 2), stores the position (0, 0, 0), a degenerate scale.
   */
  method ScaleOverloadStoresPosition(rotateBy: QuatRotate) returns (stored: Vec3)
    ensures stored == Zero && stored != Vec3(2.0, 2.0, 2.0)
  {
    var t := new Transform(rotateBy);
    t.SetScaleFromVector(Vec3(2.0, 2.0, 2.0));
    stored := t.scale;
  }

  /** The intended overloads store their argument on the same new transform. */
  method IntendedOverloadsStoreArgument(rotateBy: QuatRotate, r: Vec3, s: Vec3)
    returns (storedRotation: Vec3, storedScale: Vec3)
    ensures storedRotation == r && storedScale == s
  {
    var t := new Transform(rotateBy);
    t.SetRotation(r);
    t.SetScale(s);
    storedRotation, storedScale := t.rotation, t.scale;
  }
}
