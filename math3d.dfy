/**
 * The slice of DirectXMath the renderer relies on, over unbounded reals.
 *
 * Vectors are plain real triples. Matrices are never inspected by the
 * renderer, only built, cached, compared and handed to shaders, so a matrix is
 * a symbolic term naming the DirectXMath call that produced it: two equal
 * terms denote equal matrices. Because a datatype's constructors are distinct
 * and injective, two different terms are also provably unequal, although the
 * matrices they name may be numerically equal (the world matrix of a fresh
 * pose is the identity); no contract here states a matrix disequality.
 * Rotating a vector by the roll-pitch-yaw quaternion is a function value
 * supplied by the caller, so that no rotation identity is taken for granted;
 * the one fact used about it is a named hypothesis.
 */
module Math3D {

  datatype Vec2 = Vec2(x: real, y: real)
  datatype Vec3 = Vec3(x: real, y: real, z: real)
  datatype Vec4 = Vec4(x: real, y: real, z: real, w: real)

  const Zero: Vec3 := Vec3(0.0, 0.0, 0.0)
  const One: Vec3 := Vec3(1.0, 1.0, 1.0)

  /** The local axes that RecalculateLocalDirections rotates. */
  const UnitX: Vec3 := Vec3(1.0, 0.0, 0.0)
  const UnitY: Vec3 := Vec3(0.0, 1.0, 0.0)
  const UnitZ: Vec3 := Vec3(0.0, 0.0, 1.0)

  /** XM_PIDIV2 as DirectXMath spells it. */
  const PiOver2: real := 1.570796327

  function Add(a: Vec3, b: Vec3): Vec3 {
    Vec3(a.x + b.x, a.y + b.y, a.z + b.z)
  }

  function MulComponents(a: Vec3, b: Vec3): Vec3 {
    Vec3(a.x * b.x, a.y * b.y, a.z * b.z)
  }

  function ScaleBy(v: Vec3, k: real): Vec3 {
    Vec3(v.x * k, v.y * k, v.z * k)
  }

  /**
   * XMVector3Rotate(v, XMQuaternionRotationRollPitchYaw(r.x, r.y, r.z)):
   * the vector v rotated by the orientation with pitch r.x, yaw r.y, roll r.z.
   */
  type QuatRotate = (Vec3, Vec3) -> Vec3

  /** The vector v rotated by orientation r under the rotation rotateBy. */
  function RotateVector(rotateBy: QuatRotate, v: Vec3, r: Vec3): Vec3 {
    rotateBy(v, r)
  }

  /** The hypothesis that the orientation (0, 0, 0) leaves every vector alone. */
  ghost predicate ZeroRotationIsIdentity(rotateBy: QuatRotate) {
    forall v :: RotateVector(rotateBy, v, Zero) == v
  }

  /** A trigonometric function such as sin or cos, supplied by the caller. */
  type RealFn = real -> real

  function Eval(f: RealFn, x: real): real {
    f(x)
  }

  /** 4x4 matrices as the DirectXMath calls that build them. */
  datatype Matrix =
    | Identity
      /** XMMatrixScaling(s) * XMMatrixRotationRollPitchYaw(r) * XMMatrixTranslation(t) */
    | ScaleRotateTranslate(s: Vec3, r: Vec3, t: Vec3)
      /** XMMatrixInverse(XMMatrixTranspose(m)) */
    | InverseTranspose(m: Matrix)
      /** XMMatrixLookToLH(eye, direction, up) */
    | LookTo(eye: Vec3, direction: Vec3, up: Vec3)
      /** XMMatrixLookAtLH(eye, focus, up) */
    | LookAt(eye: Vec3, focus: Vec3, up: Vec3)
      /** XMMatrixOrthographicLH(width, height, near, far) */
    | Orthographic(width: real, height: real, near: real, far: real)
      /** XMMatrixPerspectiveFovLH(fov, aspect, near, far) */
    | PerspectiveFov(fov: real, aspect: real, near: real, far: real)

  /** The world matrix of a pose: scale first, then rotation, translation last. */
  function WorldOf(position: Vec3, rotation: Vec3, scale: Vec3): Matrix {
    ScaleRotateTranslate(scale, rotation, position)
  }
}
