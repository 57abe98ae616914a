/** The fixed-size vector value types of Vector.h: `Vector2`, `Vector3` and
    `Vector4` over idealised real arithmetic, their field-layout indexing and
    their compound scalar operators.

    A C++ compound operator updates its receiver and returns a copy of it; in
    this functional model both are the one value the function returns. */
module Vectors {

  datatype Vector2 = Vector2(x: real, y: real)
  datatype Vector3 = Vector3(x: real, y: real, z: real)
  datatype Vector4 = Vector4(x: real, y: real, z: real, w: real)

  // ---------------------------------------------------------------------------
  // Field layout and `operator[]`
  // ---------------------------------------------------------------------------

  /** The fields in declaration order, i.e. their order in memory. */
  function Fields2(v: Vector2): (s: seq<real>)
    ensures |s| == 2
  {
    [v.x, v.y]
  }

  function Fields3(v: Vector3): (s: seq<real>)
    ensures |s| == 3
  {
    [v.x, v.y, v.z]
  }

  function Fields4(v: Vector4): (s: seq<real>)
    ensures |s| == 4
  {
    [v.x, v.y, v.z, v.w]
  }

  /** `operator[](idx)`: the field `idx` places after `x`. */
  function At2(v: Vector2, idx: nat): (r: real)
    requires idx < 2
    ensures r == Fields2(v)[idx]
  {
    if idx == 0 then v.x else v.y
  }

  function At3(v: Vector3, idx: nat): (r: real)
    requires idx < 3
    ensures r == Fields3(v)[idx]
  {
    match idx
    case 0 => v.x
    case 1 => v.y
    case _ => v.z
  }

  function At4(v: Vector4, idx: nat): (r: real)
    requires idx < 4
    ensures r == Fields4(v)[idx]
  {
    match idx
    case 0 => v.x
    case 1 => v.y
    case 2 => v.z
    case _ => v.w
  }

  /** Indexing determines the vector: two vectors that agree at every index
      are the same vector. */
  lemma IndexingDeterminesVector3(u: Vector3, v: Vector3)
    requires forall i :: 0 <= i < 3 ==> At3(u, i) == At3(v, i)
    ensures u == v
  {
    assert At3(u, 0) == At3(v, 0);
    assert At3(u, 1) == At3(v, 1);
    assert At3(u, 2) == At3(v, 2);
  }

  // ---------------------------------------------------------------------------
  // Vector2 compound operators
  // ---------------------------------------------------------------------------

  function MulAssign2(v: Vector2, f: real): (r: Vector2)
    ensures forall i :: 0 <= i < 2 ==> At2(r, i) == At2(v, i) * f
  {
    Vector2(v.x * f, v.y * f)
  }

  function DivAssign2(v: Vector2, f: real): (r: Vector2)
    requires f != 0.0
    ensures forall i :: 0 <= i < 2 ==> At2(r, i) * f == At2(v, i)
  {
    Vector2(v.x / f, v.y / f)
  }

  function AddAssign2(v: Vector2, f: real): (r: Vector2)
    ensures forall i :: 0 <= i < 2 ==> At2(r, i) - At2(v, i) == f
  {
    Vector2(v.x + f, v.y + f)
  }

  function SubAssign2(v: Vector2, f: real): (r: Vector2)
    ensures forall i :: 0 <= i < 2 ==> At2(v, i) - At2(r, i) == f
  {
    Vector2(v.x - f, v.y - f)
  }

  /** `+= f` followed by `-= f` gives back the original vector. */
  lemma AddThenSubRestores2(v: Vector2, f: real)
    ensures SubAssign2(AddAssign2(v, f), f) == v
  {
  }

  /** `*= f` followed by `/= f` gives back the original vector. */
  lemma MulThenDivRestores2(v: Vector2, f: real)
    requires f != 0.0
    ensures DivAssign2(MulAssign2(v, f), f) == v
  {
  }

  // ---------------------------------------------------------------------------
  // Vector3 compound operators
  // ---------------------------------------------------------------------------

  function MulAssign3(v: Vector3, f: real): (r: Vector3)
    ensures forall i :: 0 <= i < 3 ==> At3(r, i) == At3(v, i) * f
  {
    Vector3(v.x * f, v.y * f, v.z * f)
  }

  function DivAssign3(v: Vector3, f: real): (r: Vector3)
    requires f != 0.0
    ensures forall i :: 0 <= i < 3 ==> At3(r, i) * f == At3(v, i)
  {
    Vector3(v.x / f, v.y / f, v.z / f)
  }

  function AddAssign3(v: Vector3, f: real): (r: Vector3)
    ensures forall i :: 0 <= i < 3 ==> At3(r, i) - At3(v, i) == f
  {
    Vector3(v.x + f, v.y + f, v.z + f)
  }

  function SubAssign3(v: Vector3, f: real): (r: Vector3)
    ensures forall i :: 0 <= i < 3 ==> At3(v, i) - At3(r, i) == f
  {
    Vector3(v.x - f, v.y - f, v.z - f)
  }

  lemma AddThenSubRestores3(v: Vector3, f: real)
    ensures SubAssign3(AddAssign3(v, f), f) == v
  {
  }

  lemma MulThenDivRestores3(v: Vector3, f: real)
    requires f != 0.0
    ensures DivAssign3(MulAssign3(v, f), f) == v
  {
  }

  // ---------------------------------------------------------------------------
  // Vector4 compound operators, as written
  // ---------------------------------------------------------------------------

  function MulAssign4(v: Vector4, f: real): (r: Vector4)
    ensures forall i :: 0 <= i < 4 ==> At4(r, i) == At4(v, i) * f
  {
    Vector4(v.x * f, v.y * f, v.z * f, v.w * f)
  }

  /** As written, `/=` divides x, y and z but MULTIPLIES w by `f`. */
  function DivAssign4(v: Vector4, f: real): (r: Vector4)
    requires f != 0.0
    ensures forall i :: 0 <= i < 3 ==> At4(r, i) * f == At4(v, i)
    ensures r.w == v.w * f
  {
    Vector4(v.x / f, v.y / f, v.z / f, v.w * f)
  }

  /** As written, `+=` adds to x, y and z but MULTIPLIES w by `f`. */
  function AddAssign4(v: Vector4, f: real): (r: Vector4)
    ensures forall i :: 0 <= i < 3 ==> At4(r, i) - At4(v, i) == f
    ensures r.w == v.w * f
  {
    Vector4(v.x + f, v.y + f, v.z + f, v.w * f)
  }

  /** As written, `-=` subtracts from x, y and z but MULTIPLIES w by `f`. */
  function SubAssign4(v: Vector4, f: real): (r: Vector4)
    ensures forall i :: 0 <= i < 3 ==> At4(v, i) - At4(r, i) == f
    ensures r.w == v.w * f
  {
    Vector4(v.x - f, v.y - f, v.z - f, v.w * f)
  }

  /** The as-written `/=`, `+=` and `-=` leave `w` alone exactly when
      `f == 1` or `w == 0`; in particular `+= 0` and `-= 0` wipe out a
      non-zero `w`. */
  lemma Vector4KeepsWExactly(v: Vector4, f: real)
    ensures AddAssign4(v, f).w == v.w <==> (f == 1.0 || v.w == 0.0)
    ensures SubAssign4(v, f).w == v.w <==> (f == 1.0 || v.w == 0.0)
    ensures f != 0.0 ==> (DivAssign4(v, f).w == v.w <==> (f == 1.0 || v.w == 0.0))
  {
    assert AddAssign4(v, f).w == v.w * f;
    if v.w * f == v.w && v.w != 0.0 {
      calc {
        f - 1.0;
        (v.w * (f - 1.0)) / v.w;
        (v.w * f - v.w) / v.w;
        0.0;
      }
      assert f == 1.0;
    }
    assert v.w * f == v.w <==> (f == 1.0 || v.w == 0.0);
  }

  /** A concrete input on which the as-written `+= 2` then `-= 2` does not
      give back the vector: w goes 1, 2, 4. */
  lemma AddThenSubDoesNotRestore4()
    ensures SubAssign4(AddAssign4(Vector4(0.0, 0.0, 0.0, 1.0), 2.0), 2.0) == Vector4(0.0, 0.0, 0.0, 4.0)
    ensures SubAssign4(AddAssign4(Vector4(0.0, 0.0, 0.0, 1.0), 2.0), 2.0) != Vector4(0.0, 0.0, 0.0, 1.0)
  {
  }

  // ---------------------------------------------------------------------------
  // Vector4 compound operators, as evidently intended
  // ---------------------------------------------------------------------------

  function DivAssign4Corrected(v: Vector4, f: real): (r: Vector4)
    requires f != 0.0
    ensures forall i :: 0 <= i < 4 ==> At4(r, i) * f == At4(v, i)
  {
    Vector4(v.x / f, v.y / f, v.z / f, v.w / f)
  }

  function AddAssign4Corrected(v: Vector4, f: real): (r: Vector4)
    ensures forall i :: 0 <= i < 4 ==> At4(r, i) - At4(v, i) == f
  {
    Vector4(v.x + f, v.y + f, v.z + f, v.w + f)
  }

  function SubAssign4Corrected(v: Vector4, f: real): (r: Vector4)
    ensures forall i :: 0 <= i < 4 ==> At4(v, i) - At4(r, i) == f
  {
    Vector4(v.x - f, v.y - f, v.z - f, v.w - f)
  }

  /** With the corrected operators, `+= f; -= f` and `*= f; /= f` are
      identities on every Vector4, as they are for Vector2 and Vector3. */
  lemma CorrectedRestores4(v: Vector4, f: real)
    ensures SubAssign4Corrected(AddAssign4Corrected(v, f), f) == v
    ensures f != 0.0 ==> DivAssign4Corrected(MulAssign4(v, f), f) == v
  {
    if f != 0.0 {
      var p := MulAssign4(v, f);
      MulDivCancels(v.x, f, p.x);
      MulDivCancels(v.y, f, p.y);
      MulDivCancels(v.z, f, p.z);
      MulDivCancels(v.w, f, p.w);
    }
  }

  lemma MulDivCancels(x: real, f: real, y: real)
    requires f != 0.0 && y == x * f
    ensures y / f == x
  {
  }
}
