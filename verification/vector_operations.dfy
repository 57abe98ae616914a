/** The free functions of VectorOperations.h: dot and cross products and the
    vector–scalar operators, which copy the vector and delegate to the
    compound operators of Vector.h. */
module VectorOperations {
  import opened Vectors

  // ---------------------------------------------------------------------------
  // Dot and cross products
  // ---------------------------------------------------------------------------

  function Dot2(a: Vector2, b: Vector2): (r: real)
    ensures a == b ==> r >= 0.0
  {
    a.x * b.x + a.y * b.y
  }

  function Dot3(a: Vector3, b: Vector3): (r: real)
    ensures a == b ==> r >= 0.0
  {
    a.x * b.x + a.y * b.y + a.z * b.z
  }

  function Dot4(a: Vector4, b: Vector4): (r: real)
    ensures a == b ==> r >= 0.0
  {
    a.x * b.x + a.y * b.y + a.z * b.z + a.w * b.w
  }

  /** The dot product is the sum over indices of the products of the
      components `operator[]` selects. */
  lemma DotIsSumOverIndices(a2: Vector2, b2: Vector2, a3: Vector3, b3: Vector3, a4: Vector4, b4: Vector4)
    ensures Dot2(a2, b2) == At2(a2, 0) * At2(b2, 0) + At2(a2, 1) * At2(b2, 1)
    ensures Dot3(a3, b3) == At3(a3, 0) * At3(b3, 0) + At3(a3, 1) * At3(b3, 1) + At3(a3, 2) * At3(b3, 2)
    ensures Dot4(a4, b4) == At4(a4, 0) * At4(b4, 0) + At4(a4, 1) * At4(b4, 1) + At4(a4, 2) * At4(b4, 2) + At4(a4, 3) * At4(b4, 3)
  {
  }

  lemma DotSymmetric(a2: Vector2, b2: Vector2, a3: Vector3, b3: Vector3, a4: Vector4, b4: Vector4)
    ensures Dot2(a2, b2) == Dot2(b2, a2)
    ensures Dot3(a3, b3) == Dot3(b3, a3)
    ensures Dot4(a4, b4) == Dot4(b4, a4)
  {
  }

  /** The cross product is orthogonal to both of its inputs. */
  function Cross(a: Vector3, b: Vector3): (r: Vector3)
    ensures Dot3(r, a) == 0.0 && Dot3(r, b) == 0.0
  {
    Vector3(
      a.y * b.z - a.z * b.y,
      a.z * b.x - a.x * b.z,
      a.x * b.y - a.y * b.x)
  }

  lemma CrossAnticommutative(a: Vector3, b: Vector3)
    ensures Cross(a, b) == MulAssign3(Cross(b, a), -1.0)
  {
  }

  lemma CrossSelfIsZero(a: Vector3)
    ensures Cross(a, a) == Vector3(0.0, 0.0, 0.0)
  {
  }

  // ---------------------------------------------------------------------------
  // Vector2 with a scalar
  // ---------------------------------------------------------------------------

  /** `vec * f`, through `vec *= f` on a copy. */
  function Scale2(v: Vector2, f: real): (r: Vector2)
    ensures Dot2(r, r) == f * f * Dot2(v, v)
  {
    var r := MulAssign2(v, f);
    SquareOfScaled(v.x, f, r.x);
    SquareOfScaled(v.y, f, r.y);
    r
  }

  /** `f * vec`, defined in the source as `vec * f`. */
  function ScaleLeft2(f: real, v: Vector2): (r: Vector2)
    ensures forall i :: 0 <= i < 2 ==> At2(r, i) == f * At2(v, i)
  {
    Scale2(v, f)
  }

  function Div2(v: Vector2, f: real): (r: Vector2)
    requires f != 0.0
    ensures Scale2(r, f) == v
  {
    DivAssign2(v, f)
  }

  function Add2(v: Vector2, f: real): (r: Vector2)
    ensures Sub2(r, f) == v
  {
    AddAssign2(v, f)
  }

  /** `f + vec`, defined in the source as `vec + f`. */
  function AddLeft2(f: real, v: Vector2): (r: Vector2)
    ensures forall i :: 0 <= i < 2 ==> At2(r, i) == f + At2(v, i)
  {
    Add2(v, f)
  }

  function Sub2(v: Vector2, f: real): (r: Vector2)
    ensures forall i :: 0 <= i < 2 ==> At2(r, i) + f == At2(v, i)
  {
    SubAssign2(v, f)
  }

  // ---------------------------------------------------------------------------
  // Vector3 with a scalar
  // ---------------------------------------------------------------------------

  function Scale3(v: Vector3, f: real): (r: Vector3)
    ensures Dot3(r, r) == f * f * Dot3(v, v)
    ensures Cross(r, v) == Vector3(0.0, 0.0, 0.0)
  {
    var r := MulAssign3(v, f);
    SquareOfScaled(v.x, f, r.x);
    SquareOfScaled(v.y, f, r.y);
    SquareOfScaled(v.z, f, r.z);
    r
  }

  function ScaleLeft3(f: real, v: Vector3): (r: Vector3)
    ensures forall i :: 0 <= i < 3 ==> At3(r, i) == f * At3(v, i)
  {
    Scale3(v, f)
  }

  function Div3(v: Vector3, f: real): (r: Vector3)
    requires f != 0.0
    ensures Scale3(r, f) == v
  {
    DivAssign3(v, f)
  }

  /** `f / vec`: the scalar divided by each component. */
  function DivLeft3(f: real, v: Vector3): (r: Vector3)
    requires v.x != 0.0 && v.y != 0.0 && v.z != 0.0
    ensures forall i :: 0 <= i < 3 ==> At3(r, i) * At3(v, i) == f
  {
    Vector3(f / v.x, f / v.y, f / v.z)
  }

  function Add3(v: Vector3, f: real): (r: Vector3)
    ensures Sub3(r, f) == v
  {
    AddAssign3(v, f)
  }

  function AddLeft3(f: real, v: Vector3): (r: Vector3)
    ensures forall i :: 0 <= i < 3 ==> At3(r, i) == f + At3(v, i)
  {
    Add3(v, f)
  }

  function Sub3(v: Vector3, f: real): (r: Vector3)
    ensures forall i :: 0 <= i < 3 ==> At3(r, i) + f == At3(v, i)
  {
    SubAssign3(v, f)
  }

  /** `f - vec`: the scalar minus each component, the negation of `vec - f`. */
  function SubLeft3(f: real, v: Vector3): (r: Vector3)
    ensures r == Scale3(Sub3(v, f), -1.0)
  {
    Vector3(f - v.x, f - v.y, f - v.z)
  }

  // ---------------------------------------------------------------------------
  // Vector4 with a scalar (through the as-written compound operators)
  // ---------------------------------------------------------------------------

  function Scale4(v: Vector4, f: real): (r: Vector4)
    ensures Dot4(r, r) == f * f * Dot4(v, v)
  {
    var r := MulAssign4(v, f);
    SquareOfScaled(v.x, f, r.x);
    SquareOfScaled(v.y, f, r.y);
    SquareOfScaled(v.z, f, r.z);
    SquareOfScaled(v.w, f, r.w);
    r
  }

  lemma SquareOfScaled(x: real, f: real, y: real)
    requires y == x * f
    ensures y * y == f * f * (x * x)
  {
  }

  function ScaleLeft4(f: real, v: Vector4): (r: Vector4)
    ensures forall i :: 0 <= i < 4 ==> At4(r, i) == f * At4(v, i)
  {
    Scale4(v, f)
  }

  /** `vec / f`: inherits the `w *= f` of the as-written `/=`. */
  function Div4(v: Vector4, f: real): (r: Vector4)
    requires f != 0.0
    ensures r.x * f == v.x && r.y * f == v.y && r.z * f == v.z
    ensures r.w == v.w * f
  {
    DivAssign4(v, f)
  }

  /** `vec + f`: inherits the `w *= f` of the as-written `+=`. */
  function Add4(v: Vector4, f: real): (r: Vector4)
    ensures r.x - v.x == f && r.y - v.y == f && r.z - v.z == f
    ensures r.w == v.w * f
  {
    AddAssign4(v, f)
  }

  function AddLeft4(f: real, v: Vector4): (r: Vector4)
    ensures r == Add4(v, f)
    ensures forall i :: 0 <= i < 3 ==> At4(r, i) == f + At4(v, i)
  {
    Add4(v, f)
  }

  /** `vec - f`: inherits the `w *= f` of the as-written `-=`. */
  function Sub4(v: Vector4, f: real): (r: Vector4)
    ensures v.x - r.x == f && v.y - r.y == f && v.z - r.z == f
    ensures r.w == v.w * f
  {
    SubAssign4(v, f)
  }

  /** `f - vec` builds its result directly, so its `w` is right: it is the
      negation of the corrected `vec - f`, and differs from the as-written
      one in `w` whenever `f - w != -w * f`. */
  function SubLeft4(f: real, v: Vector4): (r: Vector4)
    ensures r == MulAssign4(SubAssign4Corrected(v, f), -1.0)
    ensures forall i :: 0 <= i < 4 ==> At4(r, i) == f - At4(v, i)
  {
    Vector4(f - v.x, f - v.y, f - v.z, f - v.w)
  }

  /** `vec * f == f * vec` for every dimension. */
  lemma ScalarProductCommutes(v2: Vector2, v3: Vector3, v4: Vector4, f: real)
    ensures ScaleLeft2(f, v2) == Scale2(v2, f)
    ensures ScaleLeft3(f, v3) == Scale3(v3, f)
    ensures ScaleLeft4(f, v4) == Scale4(v4, f)
  {
  }

  /** `(vec + f) - f == vec` for Vector2 and Vector3. */
  lemma AddThenSubScalar(v2: Vector2, v3: Vector3, f: real)
    ensures Sub2(Add2(v2, f), f) == v2
    ensures Sub3(Add3(v3, f), f) == v3
  {
  }
}
