/** Camera.h: a camera matrix `C = [L | c]` with `L = Rᵀ` and `c = -Rᵀ·t` for
    a rotation `R` and a position `t`, and the two functions that take it
    apart again. */
module Camera {
  import opened Vectors
  import opened Matrices
  import opened MatrixOperations

  /** The left 3×3 block `L` of a camera matrix. */
  function LeftBlock(c: Matrix3x4): Matrix3 {
    Matrix3(
      c.a00, c.a01, c.a02,
      c.a10, c.a11, c.a12,
      c.a20, c.a21, c.a22)
  }

  /** The last column of a camera matrix. */
  function LastColumn(c: Matrix3x4): Vector3 {
    Vector3(c.a03, c.a13, c.a23)
  }

  /** Unary minus, written out component-wise as the sums of Camera.h do;
      it is the same map as `v *= -1`. */
  function Neg3(v: Vector3): (r: Vector3)
    ensures r == MulAssign3(v, -1.0)
  {
    Vector3(-v.x, -v.y, -v.z)
  }

  /** `getRotation(C)`: the transpose of the left block. */
  function GetRotation(c: Matrix3x4): (r: Matrix3)
    ensures Transpose3(r) == LeftBlock(c)
  {
    Matrix3(
      c.a00, c.a10, c.a20,
      c.a01, c.a11, c.a21,
      c.a02, c.a12, c.a22)
  }

  /** `getPosition(C)`: minus the rotation applied to the last column. */
  function GetPosition(c: Matrix3x4): (p: Vector3)
    ensures p == Neg3(MatVec3(GetRotation(c), LastColumn(c)))
  {
    var p := Vector3(
      -c.a00 * c.a03 - c.a10 * c.a13 - c.a20 * c.a23,
      -c.a01 * c.a03 - c.a11 * c.a13 - c.a21 * c.a23,
      -c.a02 * c.a03 - c.a12 * c.a13 - c.a22 * c.a23);
    NegatedInner(c.a00, c.a10, c.a20, c.a03, c.a13, c.a23, p.x);
    NegatedInner(c.a01, c.a11, c.a21, c.a03, c.a13, c.a23, p.y);
    NegatedInner(c.a02, c.a12, c.a22, c.a03, c.a13, c.a23, p.z);
    p
  }

  /** `getCameraMatrix(R, t)`: `[Rᵀ | -Rᵀ·t]`. */
  function GetCameraMatrix(r: Matrix3, t: Vector3): (c: Matrix3x4)
    ensures LeftBlock(c) == Transpose3(r)
    ensures LastColumn(c) == Neg3(MatVec3(Transpose3(r), t))
  {
    var c := Matrix3x4(
      r.a00, r.a10, r.a20, -r.a00 * t.x - r.a10 * t.y - r.a20 * t.z,
      r.a01, r.a11, r.a21, -r.a01 * t.x - r.a11 * t.y - r.a21 * t.z,
      r.a02, r.a12, r.a22, -r.a02 * t.x - r.a12 * t.y - r.a22 * t.z);
    NegatedInner(r.a00, r.a10, r.a20, t.x, t.y, t.z, c.a03);
    NegatedInner(r.a01, r.a11, r.a21, t.x, t.y, t.z, c.a13);
    NegatedInner(r.a02, r.a12, r.a22, t.x, t.y, t.z, c.a23);
    c
  }

  /** Over plain reals: the source's `-a*x - b*y - c*z` is the negated inner
      product. */
  lemma NegatedInner(a: real, b: real, c: real, x: real, y: real, z: real, s: real)
    requires s == -a * x - b * y - c * z
    ensures s == -Inner3(a, b, c, x, y, z)
  {
  }

  lemma MatVecNeg3(m: Matrix3, v: Vector3)
    ensures MatVec3(m, Neg3(v)) == Neg3(MatVec3(m, v))
  {
    InnerNeg(m.a00, m.a01, m.a02, v.x, v.y, v.z);
    InnerNeg(m.a10, m.a11, m.a12, v.x, v.y, v.z);
    InnerNeg(m.a20, m.a21, m.a22, v.x, v.y, v.z);
  }

  lemma InnerNeg(a: real, b: real, c: real, x: real, y: real, z: real)
    ensures Inner3(a, b, c, -x, -y, -z) == -Inner3(a, b, c, x, y, z)
  {
  }

  /** The rotation is recovered from the camera matrix for every `R` and `t`. */
  lemma RotationRoundTrip(r: Matrix3, t: Vector3)
    ensures GetRotation(GetCameraMatrix(r, t)) == r
  {
    TransposeInvolution3(r);
  }

  /** The camera centre `t` maps to zero under the homogeneous product. */
  lemma CentreMapsToZero(r: Matrix3, t: Vector3)
    ensures MatVec3x4Homogeneous(GetCameraMatrix(r, t), t) == Vector3(0.0, 0.0, 0.0)
  {
    var c := GetCameraMatrix(r, t);
    HomogeneousSplits(c, t);
  }

  /** The homogeneous product is the left block applied to the point plus
      the last column. */
  lemma HomogeneousSplits(c: Matrix3x4, v: Vector3)
    ensures MatVec3x4Homogeneous(c, v) == Sum3(MatVec3(LeftBlock(c), v), LastColumn(c))
  {
  }

  /** The component-wise sum of two vectors. */
  function Sum3(a: Vector3, b: Vector3): Vector3 {
    Vector3(a.x + b.x, a.y + b.y, a.z + b.z)
  }

  /** The recovered position is `R·Rᵀ·t`, so it is `t` whenever `R·Rᵀ = I`. */
  lemma PositionRoundTrip(r: Matrix3, t: Vector3)
    ensures GetPosition(GetCameraMatrix(r, t)) == MatVec3(Mul3(r, Transpose3(r)), t)
    ensures Mul3(r, Transpose3(r)) == Identity3() ==> GetPosition(GetCameraMatrix(r, t)) == t
  {
    RotationRoundTrip(r, t);
    MatVecNeg3(r, MatVec3(Transpose3(r), t));
    assert MatVec3(Mul3(r, Transpose3(r)), t) == MatVec3(r, MatVec3(Transpose3(r), t));
    IdentityNeutral3(Identity3(), t);
  }

  /** A camera matrix whose left block `L` has `L·Lᵀ = I` is rebuilt exactly
      from its rotation and position. */
  lemma CameraMatrixRoundTrip(c: Matrix3x4)
    requires Mul3(LeftBlock(c), Transpose3(LeftBlock(c))) == Identity3()
    ensures GetCameraMatrix(GetRotation(c), GetPosition(c)) == c
  {
    var l := LeftBlock(c);
    var r := GetRotation(c);
    var p := GetPosition(c);
    TransposeInvolution3(l);
    assert Transpose3(r) == l;
    MatVecNeg3(l, MatVec3(r, LastColumn(c)));
    assert MatVec3(Mul3(l, r), LastColumn(c)) == MatVec3(l, MatVec3(r, LastColumn(c)));
    IdentityNeutral3(Identity3(), LastColumn(c));
    assert LastColumn(GetCameraMatrix(r, p)) == LastColumn(c);
  }

  /** For such a camera matrix the recovered position is the centre. */
  lemma PositionIsCentre(c: Matrix3x4)
    requires Mul3(LeftBlock(c), Transpose3(LeftBlock(c))) == Identity3()
    ensures MatVec3x4Homogeneous(c, GetPosition(c)) == Vector3(0.0, 0.0, 0.0)
  {
    CameraMatrixRoundTrip(c);
    CentreMapsToZero(GetRotation(c), GetPosition(c));
  }

  /** The identity camera sits at the origin with the identity rotation. */
  lemma IdentityCamera()
    ensures GetRotation(Identity3x4()) == Identity3()
    ensures GetPosition(Identity3x4()) == Vector3(0.0, 0.0, 0.0)
  {
  }
}
