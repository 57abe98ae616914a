/** The general container `Matrix<T, N, M>` of Matrix.h: `N * M` values in a
    flat array, where `operator()(x, y)` reads slot `y * N + x` (so `x` is the
    column, below `N`, and `y` the row, below `M`) and `operator[](idx)` reads
    slot `idx`. */
module GenericMatrix {
  import opened Matrices

  datatype Matrix = Matrix(n: nat, m: nat, v: seq<real>)

  /** The array holds exactly `N * M` values. */
  predicate WellFormed(a: Matrix) {
    |a.v| == a.n * a.m
  }

  /** The slot `operator()(x, y)` reads. */
  function Offset(n: nat, x: nat, y: nat): nat {
    y * n + x
  }

  lemma OffsetInRange(n: nat, m: nat, x: nat, y: nat)
    requires x < n && y < m
    ensures Offset(n, x, y) < n * m
  {
    calc {
      Offset(n, x, y);
      y * n + x;
    <  y * n + n;
    == (y + 1) * n;
    <= { MulMonotone(y + 1, m, n); }
       m * n;
    }
  }

  lemma MulMonotone(a: nat, b: nat, n: nat)
    requires a <= b
    ensures a * n <= b * n
  {
    assert b * n == a * n + (b - a) * n;
  }

  /** Distinct in-range coordinates read distinct slots. */
  lemma OffsetInjective(n: nat, x1: nat, y1: nat, x2: nat, y2: nat)
    requires x1 < n && x2 < n
    requires Offset(n, x1, y1) == Offset(n, x2, y2)
    ensures x1 == x2 && y1 == y2
  {
    if y1 < y2 {
      assert (y1 + 1) * n == y1 * n + n;
      MulMonotone(y1 + 1, y2, n);
    } else if y2 < y1 {
      assert (y2 + 1) * n == y2 * n + n;
      MulMonotone(y2 + 1, y1, n);
    }
  }

  /** Every slot below `N * M` is the offset of an in-range cell. */
  lemma SlotIsCell(n: nat, m: nat, idx: nat)
    requires idx < n * m
    ensures n > 0 && idx % n < n && idx / n < m && Offset(n, idx % n, idx / n) == idx
  {
    assert n != 0;
    var q, c := idx / n, idx % n;
    assert idx == q * n + c;
    if m <= q {
      MulMonotone(m, q, n);
    }
  }

  /** `operator[](idx)`: slot `idx` is the cell `operator()(idx % N, idx / N)`,
      which is in range, so every slot is a cell. */
  function Flat(a: Matrix, idx: nat): (r: real)
    requires WellFormed(a) && idx < a.n * a.m
    ensures idx % a.n < a.n && idx / a.n < a.m
    ensures r == At(a, idx % a.n, idx / a.n)
  {
    SlotIsCell(a.n, a.m, idx);
    a.v[idx]
  }

  /** `operator()(x, y)`: it agrees with `operator[]` at slot `y * N + x`,
      which is in range. */
  function At(a: Matrix, x: nat, y: nat): (r: real)
    requires WellFormed(a) && x < a.n && y < a.m
    ensures Offset(a.n, x, y) < a.n * a.m && r == a.v[Offset(a.n, x, y)]
  {
    OffsetInRange(a.n, a.m, x, y);
    a.v[Offset(a.n, x, y)]
  }

  /** The two accessors agree: `operator()(x, y)` is `operator[](y * N + x)`. */
  lemma AtIsFlat(a: Matrix, x: nat, y: nat)
    requires WellFormed(a) && x < a.n && y < a.m
    ensures Offset(a.n, x, y) < a.n * a.m && At(a, x, y) == Flat(a, Offset(a.n, x, y))
  {
    var k := Offset(a.n, x, y);
    OffsetInRange(a.n, a.m, x, y);
    SlotIsCell(a.n, a.m, k);
    OffsetInjective(a.n, x, y, k % a.n, k / a.n);
  }

  /** The value at (x, y) of an array of width `n`, zero out of range. */
  function Cell(v: seq<real>, n: nat, x: nat, y: nat): real {
    if Offset(n, x, y) < |v| then v[Offset(n, x, y)] else 0.0
  }

  function Min(a: nat, b: nat): nat {
    if a <= b then a else b
  }

  /** One on the diagonal `x == y < min(N, M)`, zero everywhere else. */
  ghost predicate IsIdentity(a: Matrix) {
    && WellFormed(a)
    && forall x: nat, y: nat :: x < a.n && y < a.m ==>
         At(a, x, y) == if x == y && x < Min(a.n, a.m) then 1.0 else 0.0
  }

  /** `Matrix::Identity()`: zero-fill the array, then write one at each
      `(i, i)` for `i < min(N, M)`. */
  method Identity(n: nat, m: nat) returns (a: Matrix)
    ensures a.n == n && a.m == m
    ensures IsIdentity(a)
  {
    var v := seq(n * m, _ => 0.0);
    var i := 0;
    while i < Min(n, m)
      invariant i <= Min(n, m)
      invariant |v| == n * m
      invariant forall x: nat, y: nat :: x < n && y < m ==>
        Cell(v, n, x, y) == if x == y && x < i then 1.0 else 0.0
    {
      OffsetInRange(n, m, i, i);
      var v' := v[Offset(n, i, i) := 1.0];
      forall x: nat, y: nat | x < n && y < m
        ensures Cell(v', n, x, y) == if x == y && x < i + 1 then 1.0 else 0.0
      {
        OffsetInRange(n, m, x, y);
        assert Cell(v, n, x, y) == if x == y && x < i then 1.0 else 0.0;
        if Offset(n, x, y) == Offset(n, i, i) {
          OffsetInjective(n, x, y, i, i);
        } else {
          assert v'[Offset(n, x, y)] == v[Offset(n, x, y)];
        }
      }
      v := v';
      i := i + 1;
    }
    a := Matrix(n, m, v);
    forall x: nat, y: nat | x < n && y < m
      ensures At(a, x, y) == if x == y && x < Min(n, m) then 1.0 else 0.0
    {
      OffsetInRange(n, m, x, y);
      assert Cell(v, n, x, y) == if x == y && x < i then 1.0 else 0.0;
    }
  }

  // ---------------------------------------------------------------------------
  // The fixed-size matrices laid out row-major, as `Matrix<T, cols, rows>`.
  // The library never converts between the two kinds of matrix: this
  // embedding is a device of the model, used only to compare the hand-written
  // `Identity()` of the fixed sizes with the generic one.
  // ---------------------------------------------------------------------------

  function FromMatrix2(a: Matrix2): (r: Matrix)
    ensures WellFormed(r)
  {
    Matrix(2, 2, [a.a00, a.a01, a.a10, a.a11])
  }

  function FromMatrix3(a: Matrix3): (r: Matrix)
    ensures WellFormed(r)
  {
    Matrix(3, 3, [a.a00, a.a01, a.a02, a.a10, a.a11, a.a12, a.a20, a.a21, a.a22])
  }

  function FromMatrix3x4(a: Matrix3x4): (r: Matrix)
    ensures WellFormed(r)
  {
    Matrix(4, 3, [a.a00, a.a01, a.a02, a.a03, a.a10, a.a11, a.a12, a.a13, a.a20, a.a21, a.a22, a.a23])
  }

  /** In the row-major layout `operator()(col, row)` selects entry a[row][col]. */
  lemma LayoutAgrees3(a: Matrix3, row: nat, col: nat)
    requires row < 3 && col < 3
    ensures At(FromMatrix3(a), col, row) == Entry3(a, row, col)
  {
    assert Offset(3, col, row) == 3 * row + col;
  }

  lemma LayoutAgrees3x4(b: Matrix3x4, row: nat, col: nat)
    requires row < 3 && col < 4
    ensures At(FromMatrix3x4(b), col, row) == Entry3x4(b, row, col)
  {
    assert Offset(4, col, row) == 4 * row + col;
  }

  /** The hand-written `Identity()` of Matrix2, Matrix3 and Matrix3x4 is the
      generic `Matrix<T, N, M>::Identity()` of the same shape. */
  lemma FixedIdentitiesAreGeneric()
    ensures IsIdentity(FromMatrix2(Identity2()))
    ensures IsIdentity(FromMatrix3(Identity3()))
    ensures IsIdentity(FromMatrix3x4(Identity3x4()))
  {
    var i2 := FromMatrix2(Identity2());
    forall x: nat, y: nat | x < 2 && y < 2
      ensures At(i2, x, y) == if x == y && x < Min(2, 2) then 1.0 else 0.0
    {
    }
    var i3 := FromMatrix3(Identity3());
    forall x: nat, y: nat | x < 3 && y < 3
      ensures At(i3, x, y) == if x == y && x < Min(3, 3) then 1.0 else 0.0
    {
    }
    var i34 := FromMatrix3x4(Identity3x4());
    forall x: nat, y: nat | x < 4 && y < 3
      ensures At(i34, x, y) == if x == y && x < Min(4, 3) then 1.0 else 0.0
    {
    }
  }
}
