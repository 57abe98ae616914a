/** The fixed-size matrix value types of Matrix.h: `Matrix2`, `Matrix3` and
    `Matrix3x4`, with entries `aRC` for row R and column C, their default
    constructors and their `Identity()` factories. */
module Matrices {

  datatype Matrix2 = Matrix2(
    a00: real, a01: real,
    a10: real, a11: real)

  datatype Matrix3 = Matrix3(
    a00: real, a01: real, a02: real,
    a10: real, a11: real, a12: real,
    a20: real, a21: real, a22: real)

  datatype Matrix3x4 = Matrix3x4(
    a00: real, a01: real, a02: real, a03: real,
    a10: real, a11: real, a12: real, a13: real,
    a20: real, a21: real, a22: real, a23: real)

  // ---------------------------------------------------------------------------
  // Entry selection by (row, column)
  // ---------------------------------------------------------------------------

  function Entry2(m: Matrix2, row: nat, col: nat): real
    requires row < 2 && col < 2
  {
    match (row, col)
    case (0, 0) => m.a00
    case (0, _) => m.a01
    case (1, 0) => m.a10
    case (_, _) => m.a11
  }

  function Entry3(m: Matrix3, row: nat, col: nat): real
    requires row < 3 && col < 3
  {
    match (row, col)
    case (0, 0) => m.a00
    case (0, 1) => m.a01
    case (0, _) => m.a02
    case (1, 0) => m.a10
    case (1, 1) => m.a11
    case (1, _) => m.a12
    case (_, 0) => m.a20
    case (_, 1) => m.a21
    case (_, _) => m.a22
  }

  function Entry3x4(m: Matrix3x4, row: nat, col: nat): real
    requires row < 3 && col < 4
  {
    match (row, col)
    case (0, 0) => m.a00
    case (0, 1) => m.a01
    case (0, 2) => m.a02
    case (0, _) => m.a03
    case (1, 0) => m.a10
    case (1, 1) => m.a11
    case (1, 2) => m.a12
    case (1, _) => m.a13
    case (_, 0) => m.a20
    case (_, 1) => m.a21
    case (_, 2) => m.a22
    case (_, _) => m.a23
  }

  // ---------------------------------------------------------------------------
  // Default constructors
  // ---------------------------------------------------------------------------

  /** `Matrix2()` zeroes all four entries. */
  function Default2(): (r: Matrix2)
    ensures forall row, col :: 0 <= row < 2 && 0 <= col < 2 ==> Entry2(r, row, col) == 0.0
  {
    Matrix2(0.0, 0.0, 0.0, 0.0)
  }

  /** `Matrix3()` zeroes only a00, a01, a10 and a11; the other five members
      are left uninitialised, so they are parameters here. */
  function Default3(a02: real, a12: real, a20: real, a21: real, a22: real): (r: Matrix3)
    ensures forall row, col :: 0 <= row < 2 && 0 <= col < 2 ==> Entry3(r, row, col) == 0.0
  {
    Matrix3(
      0.0, 0.0, a02,
      0.0, 0.0, a12,
      a20, a21, a22)
  }

  /** Default construction can yield exactly the 3×3 matrices whose top-left
      2×2 block is zero: nothing is promised about the rest. */
  lemma Default3Yields(m: Matrix3)
    requires m.a00 == 0.0 && m.a01 == 0.0 && m.a10 == 0.0 && m.a11 == 0.0
    ensures exists a02, a12, a20, a21, a22 :: Default3(a02, a12, a20, a21, a22) == m
  {
    assert Default3(m.a02, m.a12, m.a20, m.a21, m.a22) == m;
  }

  /** `Matrix3x4()` zeroes only a00, a01, a10 and a11, like `Matrix3()`. */
  function Default3x4(a02: real, a03: real, a12: real, a13: real,
                      a20: real, a21: real, a22: real, a23: real): (r: Matrix3x4)
    ensures forall row, col :: 0 <= row < 2 && 0 <= col < 2 ==> Entry3x4(r, row, col) == 0.0
  {
    Matrix3x4(
      0.0, 0.0, a02, a03,
      0.0, 0.0, a12, a13,
      a20, a21, a22, a23)
  }

  lemma Default3x4Yields(m: Matrix3x4)
    requires m.a00 == 0.0 && m.a01 == 0.0 && m.a10 == 0.0 && m.a11 == 0.0
    ensures exists a02, a03, a12, a13, a20, a21, a22, a23 ::
      Default3x4(a02, a03, a12, a13, a20, a21, a22, a23) == m
  {
    assert Default3x4(m.a02, m.a03, m.a12, m.a13, m.a20, m.a21, m.a22, m.a23) == m;
  }

  // ---------------------------------------------------------------------------
  // Identity()
  // ---------------------------------------------------------------------------

  function Identity2(): (r: Matrix2)
    ensures forall row, col :: 0 <= row < 2 && 0 <= col < 2 ==>
      Entry2(r, row, col) == if row == col then 1.0 else 0.0
  {
    Matrix2(1.0, 0.0, 0.0, 1.0)
  }

  function Identity3(): (r: Matrix3)
    ensures forall row, col :: 0 <= row < 3 && 0 <= col < 3 ==>
      Entry3(r, row, col) == if row == col then 1.0 else 0.0
  {
    Matrix3(1.0, 0.0, 0.0, 0.0, 1.0, 0.0, 0.0, 0.0, 1.0)
  }

  /** Ones on the leading diagonal a00, a11, a22; the last column is zero. */
  function Identity3x4(): (r: Matrix3x4)
    ensures forall row, col :: 0 <= row < 3 && 0 <= col < 4 ==>
      Entry3x4(r, row, col) == if row == col then 1.0 else 0.0
  {
    Matrix3x4(1.0, 0.0, 0.0, 0.0, 0.0, 1.0, 0.0, 0.0, 0.0, 0.0, 1.0, 0.0)
  }
}
