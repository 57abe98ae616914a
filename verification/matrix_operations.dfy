/** The free functions of MatrixOperations.h: determinants, adjugate inverses,
    transposes, the cross-product matrix, entry-wise sums and differences,
    matrix products, the scalar-minus-matrix and scalar-over-matrix forms, and
    matrix–vector products (two of which append an implicit homogeneous 1). */
module MatrixOperations {
  import opened Vectors
  import opened VectorOperations
  import opened Matrices

  // ---------------------------------------------------------------------------
  // Helpers: constant matrices, entry-wise scaling, rows, inner products
  // ---------------------------------------------------------------------------

  function Constant2(f: real): Matrix2 {
    Matrix2(f, f, f, f)
  }

  function Constant3(f: real): Matrix3 {
    Matrix3(f, f, f, f, f, f, f, f, f)
  }

  function Constant3x4(f: real): Matrix3x4 {
    Matrix3x4(f, f, f, f, f, f, f, f, f, f, f, f)
  }

  function Zero3(): Matrix3 {
    Constant3(0.0)
  }

  function Zero3x4(): Matrix3x4 {
    Constant3x4(0.0)
  }

  /** One entry times a scalar, kept as a single term so that the entries
      of a scaled matrix can be matched against each other. */
  function Times(x: real, c: real): real {
    x * c
  }

  function ScaleEntries2(m: Matrix2, c: real): Matrix2 {
    Matrix2(Times(m.a00, c), Times(m.a01, c), Times(m.a10, c), Times(m.a11, c))
  }

  function ScaleEntries3(m: Matrix3, c: real): Matrix3 {
    Matrix3(
      Times(m.a00, c), Times(m.a01, c), Times(m.a02, c),
      Times(m.a10, c), Times(m.a11, c), Times(m.a12, c),
      Times(m.a20, c), Times(m.a21, c), Times(m.a22, c))
  }

  function Diagonal2(d: real): Matrix2 {
    Matrix2(d, 0.0, 0.0, d)
  }

  function Diagonal3(d: real): Matrix3 {
    Matrix3(d, 0.0, 0.0, 0.0, d, 0.0, 0.0, 0.0, d)
  }

  function Row3(m: Matrix3, i: nat): Vector3
    requires i < 3
  {
    Vector3(Entry3(m, i, 0), Entry3(m, i, 1), Entry3(m, i, 2))
  }

  function Row3x4(m: Matrix3x4, i: nat): Vector4
    requires i < 3
  {
    Vector4(Entry3x4(m, i, 0), Entry3x4(m, i, 1), Entry3x4(m, i, 2), Entry3x4(m, i, 3))
  }

  /** A row of one operand against a column of the other. */
  function Inner2(x0: real, x1: real, y0: real, y1: real): real {
    x0 * y0 + x1 * y1
  }

  function Inner3(x0: real, x1: real, x2: real, y0: real, y1: real, y2: real): real {
    x0 * y0 + x1 * y1 + x2 * y2
  }

  function Inner4(x0: real, x1: real, x2: real, x3: real, y0: real, y1: real, y2: real, y3: real): real {
    x0 * y0 + x1 * y1 + x2 * y2 + x3 * y3
  }

  /** A row against a point whose trailing homogeneous 1 is left implicit:
      the last entry of the row is added as it is. */
  function Affine2(a: real, b: real, c: real, x: real, y: real): (r: real)
    ensures r == Inner3(a, b, c, x, y, 1.0)
    ensures r == Inner2(a, b, x, y) + c
  {
    a * x + b * y + c
  }

  function Affine3(a: real, b: real, c: real, d: real, x: real, y: real, z: real): (r: real)
    ensures r == Inner4(a, b, c, d, x, y, z, 1.0)
    ensures r == Inner3(a, b, c, x, y, z) + d
  {
    a * x + b * y + c * z + d
  }

  /** A common factor of one side comes out of an inner product. */
  lemma InnerScale2(x0: real, x1: real, y0: real, y1: real, c: real)
    ensures Inner2(x0, x1, Times(y0, c), Times(y1, c)) == Times(Inner2(x0, x1, y0, y1), c)
    ensures Inner2(Times(x0, c), Times(x1, c), y0, y1) == Times(Inner2(x0, x1, y0, y1), c)
  {
  }

  lemma InnerScale3(x0: real, x1: real, x2: real, y0: real, y1: real, y2: real, c: real)
    ensures Inner3(x0, x1, x2, Times(y0, c), Times(y1, c), Times(y2, c)) == Times(Inner3(x0, x1, x2, y0, y1, y2), c)
    ensures Inner3(Times(x0, c), Times(x1, c), Times(x2, c), y0, y1, y2) == Times(Inner3(x0, x1, x2, y0, y1, y2), c)
  {
  }

  // ---------------------------------------------------------------------------
  // 2×2: determinant, inverse, transpose
  // ---------------------------------------------------------------------------

  /** The determinant of a triangular matrix is the product of its diagonal. */
  function Det2(m: Matrix2): (r: real)
    ensures m.a10 == 0.0 || m.a01 == 0.0 ==> r == m.a00 * m.a11
  {
    m.a00 * m.a11 - m.a01 * m.a10
  }

  /** The unscaled inverse: swap the diagonal, negate the off-diagonal. */
  function Adjugate2(m: Matrix2): Matrix2 {
    Matrix2(m.a11, -m.a01, -m.a10, m.a00)
  }

  lemma AdjugateProducts2(m: Matrix2)
    ensures Mul2(m, Adjugate2(m)) == Diagonal2(Det2(m))
    ensures Mul2(Adjugate2(m), m) == Diagonal2(Det2(m))
  {
  }

  /** Scaling either factor scales the product. */
  lemma MulScale2(a: Matrix2, b: Matrix2, c: real)
    ensures Mul2(a, ScaleEntries2(b, c)) == ScaleEntries2(Mul2(a, b), c)
    ensures Mul2(ScaleEntries2(a, c), b) == ScaleEntries2(Mul2(a, b), c)
  {
    InnerScale2(a.a00, a.a01, b.a00, b.a10, c);
    InnerScale2(a.a00, a.a01, b.a01, b.a11, c);
    InnerScale2(a.a10, a.a11, b.a00, b.a10, c);
    InnerScale2(a.a10, a.a11, b.a01, b.a11, c);
  }

  /** The adjugate scaled by the reciprocal of the determinant is a
      two-sided inverse. */
  lemma InverseFromAdjugate2(m: Matrix2, invdet: real)
    requires Times(Det2(m), invdet) == 1.0
    ensures Mul2(m, ScaleEntries2(Adjugate2(m), invdet)) == Identity2()
    ensures Mul2(ScaleEntries2(Adjugate2(m), invdet), m) == Identity2()
  {
    AdjugateProducts2(m);
    MulScale2(m, Adjugate2(m), invdet);
    MulScale2(Adjugate2(m), m, invdet);
  }

  /** `inverse(Matrix2)`: each entry of the adjugate times `1 / det`; a
      two-sided inverse. */
  function Inverse2(m: Matrix2): (r: Matrix2)
    requires Det2(m) != 0.0
    ensures Mul2(m, r) == Identity2() && Mul2(r, m) == Identity2()
  {
    var invdet := 1.0 / Det2(m);
    InverseFromAdjugate2(m, invdet);
    ScaleEntries2(Adjugate2(m), invdet)
  }

  function Transpose2(m: Matrix2): (r: Matrix2)
    ensures forall row, col :: 0 <= row < 2 && 0 <= col < 2 ==> Entry2(r, row, col) == Entry2(m, col, row)
  {
    Matrix2(m.a00, m.a10, m.a01, m.a11)
  }

  // ---------------------------------------------------------------------------
  // 3×3: determinant, cross-product matrix, inverse, transpose
  // ---------------------------------------------------------------------------

  /** `det(mat)`: cofactor expansion along the first row. It equals the
      six-term (Sarrus) formula and, on a triangular matrix, the product of
      the diagonal. */
  function Det3(m: Matrix3): (r: real)
    ensures r == m.a00 * m.a11 * m.a22 + m.a01 * m.a12 * m.a20 + m.a02 * m.a10 * m.a21
               - m.a02 * m.a11 * m.a20 - m.a01 * m.a10 * m.a22 - m.a00 * m.a12 * m.a21
    ensures (m.a10 == 0.0 && m.a20 == 0.0 && m.a21 == 0.0) ==> r == m.a00 * m.a11 * m.a22
  {
    m.a00 * (m.a11 * m.a22 - m.a21 * m.a12) -
    m.a01 * (m.a10 * m.a22 - m.a12 * m.a20) +
    m.a02 * (m.a10 * m.a21 - m.a11 * m.a20)
  }

  /** `getCrossMatrix(vec)`: the skew-symmetric matrix whose product with a
      vector is the cross product with `vec`. */
  function CrossMatrix(v: Vector3): (r: Matrix3)
    ensures forall w :: MatVec3(r, w) == Cross(v, w)
    ensures r.a00 == 0.0 && r.a11 == 0.0 && r.a22 == 0.0
    ensures Transpose3(r) == ScalarSub3(0.0, r)
  {
    Matrix3(
      0.0, -v.z, v.y,
      v.z, 0.0, -v.x,
      -v.y, v.x, 0.0)
  }

  /** The entries of the adjugate (the transposed matrix of cofactors), in
      the layout `inverse(Matrix3)` uses before scaling by `1 / det`. */
  function Adj00(m: Matrix3): real { m.a11 * m.a22 - m.a21 * m.a12 }
  function Adj01(m: Matrix3): real { m.a02 * m.a21 - m.a01 * m.a22 }
  function Adj02(m: Matrix3): real { m.a01 * m.a12 - m.a02 * m.a11 }
  function Adj10(m: Matrix3): real { m.a12 * m.a20 - m.a10 * m.a22 }
  function Adj11(m: Matrix3): real { m.a00 * m.a22 - m.a02 * m.a20 }
  function Adj12(m: Matrix3): real { m.a10 * m.a02 - m.a00 * m.a12 }
  function Adj20(m: Matrix3): real { m.a10 * m.a21 - m.a20 * m.a11 }
  function Adj21(m: Matrix3): real { m.a20 * m.a01 - m.a00 * m.a21 }
  function Adj22(m: Matrix3): real { m.a00 * m.a11 - m.a10 * m.a01 }

  function Adjugate3(m: Matrix3): Matrix3 {
    Matrix3(
      Adj00(m), Adj01(m), Adj02(m),
      Adj10(m), Adj11(m), Adj12(m),
      Adj20(m), Adj21(m), Adj22(m))
  }

  /** Laplace expansion, one column of the adjugate at a time: row `i` of `m`
      against column `j` of the adjugate is the determinant when `i == j`
      and zero otherwise. */
  lemma RowsAgainstAdjugateColumn0(m: Matrix3)
    ensures Inner3(m.a00, m.a01, m.a02, Adj00(m), Adj10(m), Adj20(m)) == Det3(m)
    ensures Inner3(m.a10, m.a11, m.a12, Adj00(m), Adj10(m), Adj20(m)) == 0.0
    ensures Inner3(m.a20, m.a21, m.a22, Adj00(m), Adj10(m), Adj20(m)) == 0.0
  {
  }

  lemma RowsAgainstAdjugateColumn1(m: Matrix3)
    ensures Inner3(m.a00, m.a01, m.a02, Adj01(m), Adj11(m), Adj21(m)) == 0.0
    ensures Inner3(m.a10, m.a11, m.a12, Adj01(m), Adj11(m), Adj21(m)) == Det3(m)
    ensures Inner3(m.a20, m.a21, m.a22, Adj01(m), Adj11(m), Adj21(m)) == 0.0
  {
  }

  lemma RowsAgainstAdjugateColumn2(m: Matrix3)
    ensures Inner3(m.a00, m.a01, m.a02, Adj02(m), Adj12(m), Adj22(m)) == 0.0
    ensures Inner3(m.a10, m.a11, m.a12, Adj02(m), Adj12(m), Adj22(m)) == 0.0
    ensures Inner3(m.a20, m.a21, m.a22, Adj02(m), Adj12(m), Adj22(m)) == Det3(m)
  {
  }

  /** The same expansion with the adjugate on the left: row `i` of the
      adjugate against column `j` of `m`. */
  lemma AdjugateRow0AgainstColumns(m: Matrix3)
    ensures Inner3(Adj00(m), Adj01(m), Adj02(m), m.a00, m.a10, m.a20) == Det3(m)
    ensures Inner3(Adj00(m), Adj01(m), Adj02(m), m.a01, m.a11, m.a21) == 0.0
    ensures Inner3(Adj00(m), Adj01(m), Adj02(m), m.a02, m.a12, m.a22) == 0.0
  {
  }

  lemma AdjugateRow1AgainstColumns(m: Matrix3)
    ensures Inner3(Adj10(m), Adj11(m), Adj12(m), m.a00, m.a10, m.a20) == 0.0
    ensures Inner3(Adj10(m), Adj11(m), Adj12(m), m.a01, m.a11, m.a21) == Det3(m)
    ensures Inner3(Adj10(m), Adj11(m), Adj12(m), m.a02, m.a12, m.a22) == 0.0
  {
  }

  lemma AdjugateRow2AgainstColumns(m: Matrix3)
    ensures Inner3(Adj20(m), Adj21(m), Adj22(m), m.a00, m.a10, m.a20) == 0.0
    ensures Inner3(Adj20(m), Adj21(m), Adj22(m), m.a01, m.a11, m.a21) == 0.0
    ensures Inner3(Adj20(m), Adj21(m), Adj22(m), m.a02, m.a12, m.a22) == Det3(m)
  {
  }

  /** `m · adj(m) = adj(m) · m = det(m) · I`. */
  lemma AdjugateProducts3(m: Matrix3)
    ensures Mul3(m, Adjugate3(m)) == Diagonal3(Det3(m))
    ensures Mul3(Adjugate3(m), m) == Diagonal3(Det3(m))
  {
    RowsAgainstAdjugateColumn0(m);
    RowsAgainstAdjugateColumn1(m);
    RowsAgainstAdjugateColumn2(m);
    AdjugateRow0AgainstColumns(m);
    AdjugateRow1AgainstColumns(m);
    AdjugateRow2AgainstColumns(m);
  }

  /** Scaling either factor scales the product. */
  lemma MulScale3(a: Matrix3, b: Matrix3, c: real)
    ensures Mul3(a, ScaleEntries3(b, c)) == ScaleEntries3(Mul3(a, b), c)
    ensures Mul3(ScaleEntries3(a, c), b) == ScaleEntries3(Mul3(a, b), c)
  {
    InnerScale3(a.a00, a.a01, a.a02, b.a00, b.a10, b.a20, c);
    InnerScale3(a.a00, a.a01, a.a02, b.a01, b.a11, b.a21, c);
    InnerScale3(a.a00, a.a01, a.a02, b.a02, b.a12, b.a22, c);
    InnerScale3(a.a10, a.a11, a.a12, b.a00, b.a10, b.a20, c);
    InnerScale3(a.a10, a.a11, a.a12, b.a01, b.a11, b.a21, c);
    InnerScale3(a.a10, a.a11, a.a12, b.a02, b.a12, b.a22, c);
    InnerScale3(a.a20, a.a21, a.a22, b.a00, b.a10, b.a20, c);
    InnerScale3(a.a20, a.a21, a.a22, b.a01, b.a11, b.a21, c);
    InnerScale3(a.a20, a.a21, a.a22, b.a02, b.a12, b.a22, c);
  }

  /** The adjugate scaled by the reciprocal of the determinant is a
      two-sided inverse. */
  lemma InverseFromAdjugate3(m: Matrix3, invdet: real)
    requires Times(Det3(m), invdet) == 1.0
    ensures Mul3(m, ScaleEntries3(Adjugate3(m), invdet)) == Identity3()
    ensures Mul3(ScaleEntries3(Adjugate3(m), invdet), m) == Identity3()
  {
    AdjugateProducts3(m);
    MulScale3(m, Adjugate3(m), invdet);
    MulScale3(Adjugate3(m), m, invdet);
  }

  /** `inverse(Matrix3)`: each entry of the adjugate times `1 / det`; a
      two-sided inverse. */
  function Inverse3(m: Matrix3): (r: Matrix3)
    requires Det3(m) != 0.0
    ensures Mul3(m, r) == Identity3() && Mul3(r, m) == Identity3()
  {
    var invdet := 1.0 / Det3(m);
    InverseFromAdjugate3(m, invdet);
    ScaleEntries3(Adjugate3(m), invdet)
  }

  function Transpose3(m: Matrix3): (r: Matrix3)
    ensures forall row, col :: 0 <= row < 3 && 0 <= col < 3 ==> Entry3(r, row, col) == Entry3(m, col, row)
  {
    Matrix3(
      m.a00, m.a10, m.a20,
      m.a01, m.a11, m.a21,
      m.a02, m.a12, m.a22)
  }

  /** Transposition keeps the determinant, for both square sizes. */
  lemma TransposeKeepsDet2(m: Matrix2)
    ensures Det2(Transpose2(m)) == Det2(m)
  {
  }

  lemma TransposeKeepsDet3(m: Matrix3)
    ensures Det3(Transpose3(m)) == Det3(m)
  {
  }

  lemma TransposeInvolution2(m: Matrix2)
    ensures Transpose2(Transpose2(m)) == m
  {
  }

  lemma TransposeInvolution3(m: Matrix3)
    ensures Transpose3(Transpose3(m)) == m
  {
  }

  // ---------------------------------------------------------------------------
  // Matrix2 arithmetic
  // ---------------------------------------------------------------------------

  /** `mat1 * mat2`: entry (row, col) is row `row` of `a` against column
      `col` of `b`. */
  function Mul2(a: Matrix2, b: Matrix2): (r: Matrix2)
    ensures forall row, col :: 0 <= row < 2 && 0 <= col < 2 ==>
      Entry2(r, row, col) == Entry2(a, row, 0) * Entry2(b, 0, col) + Entry2(a, row, 1) * Entry2(b, 1, col)
  {
    Matrix2(
      Inner2(a.a00, a.a01, b.a00, b.a10),
      Inner2(a.a00, a.a01, b.a01, b.a11),

      Inner2(a.a10, a.a11, b.a00, b.a10),
      Inner2(a.a10, a.a11, b.a01, b.a11))
  }

  /** The determinant is multiplicative. */
  lemma Det2Multiplicative(a: Matrix2, b: Matrix2)
    ensures Det2(Mul2(a, b)) == Det2(a) * Det2(b)
  {
  }

  function Add2(a: Matrix2, b: Matrix2): (r: Matrix2)
    ensures Sub2(r, b) == a
  {
    Matrix2(
      a.a00 + b.a00, a.a01 + b.a01,
      a.a10 + b.a10, a.a11 + b.a11)
  }

  /** The difference is the zero (default-constructed) matrix exactly when
      the operands are equal. */
  function Sub2(a: Matrix2, b: Matrix2): (r: Matrix2)
    ensures r == Default2() <==> a == b
  {
    Matrix2(
      a.a00 - b.a00, a.a01 - b.a01,
      a.a10 - b.a10, a.a11 - b.a11)
  }

  /** `f - mat`: adding `mat` back gives the constant-`f` matrix. */
  function ScalarSub2(f: real, m: Matrix2): (r: Matrix2)
    ensures Add2(r, m) == Constant2(f)
  {
    Matrix2(
      f - m.a00, f - m.a01,
      f - m.a10, f - m.a11)
  }

  /** `f / mat`: entry by entry, `f` over the entry. */
  function ScalarDiv2(f: real, m: Matrix2): (r: Matrix2)
    requires m.a00 != 0.0 && m.a01 != 0.0 && m.a10 != 0.0 && m.a11 != 0.0
    ensures forall row, col :: 0 <= row < 2 && 0 <= col < 2 ==> Entry2(r, row, col) * Entry2(m, row, col) == f
  {
    Matrix2(
      f / m.a00, f / m.a01,
      f / m.a10, f / m.a11)
  }

  // ---------------------------------------------------------------------------
  // Matrix3 arithmetic
  // ---------------------------------------------------------------------------

  /** `mat1 * mat2`: applying the product to a vector is applying `b` and
      then `a`. */
  function Mul3(a: Matrix3, b: Matrix3): (r: Matrix3)
    ensures forall v :: MatVec3(r, v) == MatVec3(a, MatVec3(b, v))
  {
    var r := Matrix3(
      Inner3(a.a00, a.a01, a.a02, b.a00, b.a10, b.a20),
      Inner3(a.a00, a.a01, a.a02, b.a01, b.a11, b.a21),
      Inner3(a.a00, a.a01, a.a02, b.a02, b.a12, b.a22),

      Inner3(a.a10, a.a11, a.a12, b.a00, b.a10, b.a20),
      Inner3(a.a10, a.a11, a.a12, b.a01, b.a11, b.a21),
      Inner3(a.a10, a.a11, a.a12, b.a02, b.a12, b.a22),

      Inner3(a.a20, a.a21, a.a22, b.a00, b.a10, b.a20),
      Inner3(a.a20, a.a21, a.a22, b.a01, b.a11, b.a21),
      Inner3(a.a20, a.a21, a.a22, b.a02, b.a12, b.a22));
    assert forall v :: MatVec3(r, v) == MatVec3(a, MatVec3(b, v)) by {
      forall v: Vector3 ensures MatVec3(r, v) == MatVec3(a, MatVec3(b, v)) {
        InnerAssociates(a.a00, a.a01, a.a02, b.a00, b.a01, b.a02, b.a10, b.a11, b.a12, b.a20, b.a21, b.a22, v.x, v.y, v.z);
        InnerAssociates(a.a10, a.a11, a.a12, b.a00, b.a01, b.a02, b.a10, b.a11, b.a12, b.a20, b.a21, b.a22, v.x, v.y, v.z);
        InnerAssociates(a.a20, a.a21, a.a22, b.a00, b.a01, b.a02, b.a10, b.a11, b.a12, b.a20, b.a21, b.a22, v.x, v.y, v.z);
      }
    }
    r
  }

  function Add3(a: Matrix3, b: Matrix3): (r: Matrix3)
    ensures Sub3(r, b) == a
  {
    Matrix3(
      a.a00 + b.a00, a.a01 + b.a01, a.a02 + b.a02,
      a.a10 + b.a10, a.a11 + b.a11, a.a12 + b.a12,
      a.a20 + b.a20, a.a21 + b.a21, a.a22 + b.a22)
  }

  function Sub3(a: Matrix3, b: Matrix3): (r: Matrix3)
    ensures r == Zero3() <==> a == b
  {
    Matrix3(
      a.a00 - b.a00, a.a01 - b.a01, a.a02 - b.a02,
      a.a10 - b.a10, a.a11 - b.a11, a.a12 - b.a12,
      a.a20 - b.a20, a.a21 - b.a21, a.a22 - b.a22)
  }

  function ScalarSub3(f: real, m: Matrix3): (r: Matrix3)
    ensures Add3(r, m) == Constant3(f)
  {
    Matrix3(
      f - m.a00, f - m.a01, f - m.a02,
      f - m.a10, f - m.a11, f - m.a12,
      f - m.a20, f - m.a21, f - m.a22)
  }

  function ScalarDiv3(f: real, m: Matrix3): (r: Matrix3)
    requires m.a00 != 0.0 && m.a01 != 0.0 && m.a02 != 0.0
    requires m.a10 != 0.0 && m.a11 != 0.0 && m.a12 != 0.0
    requires m.a20 != 0.0 && m.a21 != 0.0 && m.a22 != 0.0
    ensures forall row, col :: 0 <= row < 3 && 0 <= col < 3 ==> Entry3(r, row, col) * Entry3(m, row, col) == f
  {
    Matrix3(
      f / m.a00, f / m.a01, f / m.a02,
      f / m.a10, f / m.a11, f / m.a12,
      f / m.a20, f / m.a21, f / m.a22)
  }

  // ---------------------------------------------------------------------------
  // Matrix3x4 arithmetic
  // ---------------------------------------------------------------------------

  /** `Matrix3 * Matrix3x4`: projecting through the product is projecting
      through `b` and then applying `a`. */
  function Mul3x4(a: Matrix3, b: Matrix3x4): (r: Matrix3x4)
    ensures forall v :: MatVec3x4Homogeneous(r, v) == MatVec3(a, MatVec3x4Homogeneous(b, v))
  {
    var r := Matrix3x4(
      Inner3(a.a00, a.a01, a.a02, b.a00, b.a10, b.a20),
      Inner3(a.a00, a.a01, a.a02, b.a01, b.a11, b.a21),
      Inner3(a.a00, a.a01, a.a02, b.a02, b.a12, b.a22),
      Inner3(a.a00, a.a01, a.a02, b.a03, b.a13, b.a23),

      Inner3(a.a10, a.a11, a.a12, b.a00, b.a10, b.a20),
      Inner3(a.a10, a.a11, a.a12, b.a01, b.a11, b.a21),
      Inner3(a.a10, a.a11, a.a12, b.a02, b.a12, b.a22),
      Inner3(a.a10, a.a11, a.a12, b.a03, b.a13, b.a23),

      Inner3(a.a20, a.a21, a.a22, b.a00, b.a10, b.a20),
      Inner3(a.a20, a.a21, a.a22, b.a01, b.a11, b.a21),
      Inner3(a.a20, a.a21, a.a22, b.a02, b.a12, b.a22),
      Inner3(a.a20, a.a21, a.a22, b.a03, b.a13, b.a23));
    assert forall v :: MatVec3x4Homogeneous(r, v) == MatVec3(a, MatVec3x4Homogeneous(b, v)) by {
      forall v: Vector3 ensures MatVec3x4Homogeneous(r, v) == MatVec3(a, MatVec3x4Homogeneous(b, v)) {
        AffineAssociates(a.a00, a.a01, a.a02, b.a00, b.a01, b.a02, b.a03, b.a10, b.a11, b.a12, b.a13, b.a20, b.a21, b.a22, b.a23, v.x, v.y, v.z);
        AffineAssociates(a.a10, a.a11, a.a12, b.a00, b.a01, b.a02, b.a03, b.a10, b.a11, b.a12, b.a13, b.a20, b.a21, b.a22, b.a23, v.x, v.y, v.z);
        AffineAssociates(a.a20, a.a21, a.a22, b.a00, b.a01, b.a02, b.a03, b.a10, b.a11, b.a12, b.a13, b.a20, b.a21, b.a22, b.a23, v.x, v.y, v.z);
      }
    }
    r
  }

  function Add3x4(a: Matrix3x4, b: Matrix3x4): (r: Matrix3x4)
    ensures Sub3x4(r, b) == a
  {
    Matrix3x4(
      a.a00 + b.a00, a.a01 + b.a01, a.a02 + b.a02, a.a03 + b.a03,
      a.a10 + b.a10, a.a11 + b.a11, a.a12 + b.a12, a.a13 + b.a13,
      a.a20 + b.a20, a.a21 + b.a21, a.a22 + b.a22, a.a23 + b.a23)
  }

  function Sub3x4(a: Matrix3x4, b: Matrix3x4): (r: Matrix3x4)
    ensures r == Zero3x4() <==> a == b
  {
    Matrix3x4(
      a.a00 - b.a00, a.a01 - b.a01, a.a02 - b.a02, a.a03 - b.a03,
      a.a10 - b.a10, a.a11 - b.a11, a.a12 - b.a12, a.a13 - b.a13,
      a.a20 - b.a20, a.a21 - b.a21, a.a22 - b.a22, a.a23 - b.a23)
  }

  function ScalarSub3x4(f: real, m: Matrix3x4): (r: Matrix3x4)
    ensures Add3x4(r, m) == Constant3x4(f)
  {
    Matrix3x4(
      f - m.a00, f - m.a01, f - m.a02, f - m.a03,
      f - m.a10, f - m.a11, f - m.a12, f - m.a13,
      f - m.a20, f - m.a21, f - m.a22, f - m.a23)
  }

  function ScalarDiv3x4(f: real, m: Matrix3x4): (r: Matrix3x4)
    requires m.a00 != 0.0 && m.a01 != 0.0 && m.a02 != 0.0 && m.a03 != 0.0
    requires m.a10 != 0.0 && m.a11 != 0.0 && m.a12 != 0.0 && m.a13 != 0.0
    requires m.a20 != 0.0 && m.a21 != 0.0 && m.a22 != 0.0 && m.a23 != 0.0
    ensures forall row, col :: 0 <= row < 3 && 0 <= col < 4 ==> Entry3x4(r, row, col) * Entry3x4(m, row, col) == f
  {
    Matrix3x4(
      f / m.a00, f / m.a01, f / m.a02, f / m.a03,
      f / m.a10, f / m.a11, f / m.a12, f / m.a13,
      f / m.a20, f / m.a21, f / m.a22, f / m.a23)
  }

  /** Entry-wise `+` is commutative, for each fixed size. */
  lemma AddCommutative(a2: Matrix2, b2: Matrix2, a3: Matrix3, b3: Matrix3, a34: Matrix3x4, b34: Matrix3x4)
    ensures Add2(a2, b2) == Add2(b2, a2)
    ensures Add3(a3, b3) == Add3(b3, a3)
    ensures Add3x4(a34, b34) == Add3x4(b34, a34)
  {
  }

  /** The identity matrices are neutral for the products. */
  lemma IdentityNeutral2(m: Matrix2)
    ensures Mul2(Identity2(), m) == m && Mul2(m, Identity2()) == m
  {
  }

  lemma IdentityNeutral3(m: Matrix3, v: Vector3)
    ensures Mul3(Identity3(), m) == m && Mul3(m, Identity3()) == m
    ensures MatVec3(Identity3(), v) == v
  {
  }

  lemma IdentityNeutral3x4(m: Matrix3x4)
    ensures Mul3x4(Identity3(), m) == m
  {
  }

  // ---------------------------------------------------------------------------
  // Matrix–vector products
  // ---------------------------------------------------------------------------

  /** `Matrix3 * Vector3`: each component is a row dotted with the vector. */
  function MatVec3(m: Matrix3, v: Vector3): (r: Vector3)
    ensures r == Vector3(Dot3(Row3(m, 0), v), Dot3(Row3(m, 1), v), Dot3(Row3(m, 2), v))
  {
    Vector3(
      Inner3(m.a00, m.a01, m.a02, v.x, v.y, v.z),
      Inner3(m.a10, m.a11, m.a12, v.x, v.y, v.z),
      Inner3(m.a20, m.a21, m.a22, v.x, v.y, v.z))
  }

  /** Over plain reals: a row against the columns of a product equals the
      row's products against the rows of the right-hand factor. */
  lemma InnerAssociates(x0: real, x1: real, x2: real,
                        b00: real, b01: real, b02: real,
                        b10: real, b11: real, b12: real,
                        b20: real, b21: real, b22: real,
                        v0: real, v1: real, v2: real)
    ensures Inner3(Inner3(x0, x1, x2, b00, b10, b20), Inner3(x0, x1, x2, b01, b11, b21), Inner3(x0, x1, x2, b02, b12, b22), v0, v1, v2)
         == Inner3(x0, x1, x2, Inner3(b00, b01, b02, v0, v1, v2), Inner3(b10, b11, b12, v0, v1, v2), Inner3(b20, b21, b22, v0, v1, v2))
  {
  }

  /** `Matrix3 * Vector2`: the product with the homogeneous `(x, y, 1)`. */
  function MatVec3Homogeneous(m: Matrix3, v: Vector2): (r: Vector3)
    ensures r == MatVec3(m, Vector3(v.x, v.y, 1.0))
  {
    Vector3(
      Affine2(m.a00, m.a01, m.a02, v.x, v.y),
      Affine2(m.a10, m.a11, m.a12, v.x, v.y),
      Affine2(m.a20, m.a21, m.a22, v.x, v.y))
  }

  /** `Matrix3x4 * Vector4`: each component is a row dotted with the vector. */
  function MatVec3x4(m: Matrix3x4, v: Vector4): (r: Vector3)
    ensures r == Vector3(Dot4(Row3x4(m, 0), v), Dot4(Row3x4(m, 1), v), Dot4(Row3x4(m, 2), v))
  {
    Vector3(
      Inner4(m.a00, m.a01, m.a02, m.a03, v.x, v.y, v.z, v.w),
      Inner4(m.a10, m.a11, m.a12, m.a13, v.x, v.y, v.z, v.w),
      Inner4(m.a20, m.a21, m.a22, m.a23, v.x, v.y, v.z, v.w))
  }

  /** `Matrix3x4 * Vector3`: the product with the homogeneous `(x, y, z, 1)`. */
  function MatVec3x4Homogeneous(m: Matrix3x4, v: Vector3): (r: Vector3)
    ensures r == MatVec3x4(m, Vector4(v.x, v.y, v.z, 1.0))
  {
    Vector3(
      Affine3(m.a00, m.a01, m.a02, m.a03, v.x, v.y, v.z),
      Affine3(m.a10, m.a11, m.a12, m.a13, v.x, v.y, v.z),
      Affine3(m.a20, m.a21, m.a22, m.a23, v.x, v.y, v.z))
  }

  /** Over plain reals: a row against the columns of a 3×4 product, with an
      implicit trailing 1, equals the row against the rows of the right-hand
      factor applied to the point. */
  lemma AffineAssociates(x0: real, x1: real, x2: real,
                         b00: real, b01: real, b02: real, b03: real,
                         b10: real, b11: real, b12: real, b13: real,
                         b20: real, b21: real, b22: real, b23: real,
                         v0: real, v1: real, v2: real)
    ensures Affine3(Inner3(x0, x1, x2, b00, b10, b20), Inner3(x0, x1, x2, b01, b11, b21),
                    Inner3(x0, x1, x2, b02, b12, b22), Inner3(x0, x1, x2, b03, b13, b23), v0, v1, v2)
         == Inner3(x0, x1, x2, Affine3(b00, b01, b02, b03, v0, v1, v2),
                   Affine3(b10, b11, b12, b13, v0, v1, v2), Affine3(b20, b21, b22, b23, v0, v1, v2))
  {
    InnerAssociates(x0, x1, x2, b00, b01, b02, b10, b11, b12, b20, b21, b22, v0, v1, v2);
    InnerAddsRight(x0, x1, x2,
      Inner3(b00, b01, b02, v0, v1, v2), Inner3(b10, b11, b12, v0, v1, v2), Inner3(b20, b21, b22, v0, v1, v2),
      b03, b13, b23);
  }

  lemma InnerAddsRight(x0: real, x1: real, x2: real, p0: real, p1: real, p2: real, q0: real, q1: real, q2: real)
    ensures Inner3(x0, x1, x2, p0 + q0, p1 + q1, p2 + q2) == Inner3(x0, x1, x2, p0, p1, p2) + Inner3(x0, x1, x2, q0, q1, q2)
  {
  }
}
