/** The part of the engine's Maths library that the robot-arm rig relies on.

    The library's numerics (degrees to radians, Euler angles to quaternion,
    quaternion to matrix, the entries of a translation) are not modelled. A 4x4
    matrix is a formal product of the matrices the rig asks the library for,
    leftmost factor first, and multiplication concatenates formal products. That
    product is associative and has the empty product as its unit, and it assumes
    nothing more. An equation between matrices proved here with no matrix
    equality among its hypotheses therefore also holds for Matrix44's real
    product, which is associative too. Inequalities do not carry over: here a
    zero rotation is not the identity and distinct generators never commute. */
module Maths {

  /** Maths::Vector3, with real standing in for float. */
  datatype Vector3 = Vector3(x: real, y: real, z: real)

  function Zero(): Vector3 {
    Vector3(0.0, 0.0, 0.0)
  }

  /** A matrix the library builds and the rig treats as opaque. */
  datatype Generator =
    | EulerRotation(degrees: Vector3)
      // QuaternionToMatrix(ToQuaternion(...)) of the angles converted to radians
    | TranslationBy(offset: Vector3)
      // Matrix44::Translation(x, y, z)
    | NodeTransform(position: Vector3, scale: Vector3)
      // the matrix a scene-graph Transform builds from its position and scale

  /** Maths::Matrix44 as a formal product of generators. */
  type Matrix44 = seq<Generator>

  /** The default Matrix44: the identity, the empty product. */
  function Identity(): Matrix44 {
    []
  }

  /** a * b */
  function Mul(a: Matrix44, b: Matrix44): Matrix44 {
    a + b
  }

  /** The rotation matrix for Euler angles given in degrees. */
  function RotationFromDegrees(degrees: Vector3): Matrix44 {
    [EulerRotation(degrees)]
  }

  /** Matrix44::Translation(x, y, z) */
  function Translation(x: real, y: real, z: real): Matrix44 {
    [TranslationBy(Vector3(x, y, z))]
  }

  lemma MulAssociative(a: Matrix44, b: Matrix44, c: Matrix44)
    ensures Mul(Mul(a, b), c) == Mul(a, Mul(b, c))
  {
  }

  lemma IdentityIsUnit(a: Matrix44)
    ensures Mul(Identity(), a) == a && Mul(a, Identity()) == a
  {
  }
}
