/** Homography.h: the correspondence accumulator (two parallel sequences of
    2D points) and the per-axis Hartley normalisation of one point set. */
module Homography {
  import opened Vectors
  import opened VectorOperations
  import opened Matrices
  import opened MatrixOperations

  // ---------------------------------------------------------------------------
  // The correspondence accumulator
  // ---------------------------------------------------------------------------

  /** The `left` and `right` members: point `i` of `left` corresponds to
      point `i` of `right`. */
  datatype Correspondences = Correspondences(left: seq<Vector2>, right: seq<Vector2>)

  /** The two sequences always have the same length. */
  predicate Valid(h: Correspondences) {
    |h.left| == |h.right|
  }

  /** `getCorrespondenceCount()`: the length of `left`, which for a valid
      accumulator is the number of pairs. */
  function CorrespondenceCount(h: Correspondences): (n: nat)
    ensures Valid(h) ==> n == |h.right|
  {
    |h.left|
  }

  /** `Homography()`: no correspondences yet. */
  function New(): (h: Correspondences)
    ensures Valid(h) && CorrespondenceCount(h) == 0
  {
    Correspondences([], [])
  }

  /** `clear()`: empties both sequences, whatever they held. */
  function Clear(h: Correspondences): (r: Correspondences)
    ensures Valid(r) && CorrespondenceCount(r) == 0
    ensures r == New()
  {
    Correspondences([], [])
  }

  /** `addCorrespondence(l, r)`: appends `l` to `left` and `r` to `right`;
      the earlier pairs are untouched and the count goes up by one. */
  function AddCorrespondence(h: Correspondences, l: Vector2, r: Vector2): (h': Correspondences)
    ensures Valid(h) ==> Valid(h')
    ensures CorrespondenceCount(h') == CorrespondenceCount(h) + 1 && |h'.right| == |h.right| + 1
    ensures h'.left[..|h.left|] == h.left && h'.right[..|h.right|] == h.right
    ensures h'.left[|h.left|] == l && h'.right[|h.right|] == r
  {
    Correspondences(h.left + [l], h.right + [r])
  }

  /** A call on the accumulator. */
  datatype Op = ClearOp | AddOp(l: Vector2, r: Vector2)

  function Apply(h: Correspondences, op: Op): Correspondences {
    match op
    case ClearOp => Clear(h)
    case AddOp(l, r) => AddCorrespondence(h, l, r)
  }

  /** The accumulator after a sequence of calls, in order. */
  function Run(h: Correspondences, ops: seq<Op>): Correspondences
    decreases |ops|
  {
    if |ops| == 0 then h else Run(Apply(h, ops[0]), ops[1..])
  }

  /** The first and the second points of the added pairs, in order. */
  function AddedLefts(ops: seq<Op>): seq<Vector2>
    decreases |ops|
  {
    if |ops| == 0 then []
    else if ops[0].AddOp? then [ops[0].l] + AddedLefts(ops[1..])
    else AddedLefts(ops[1..])
  }

  function AddedRights(ops: seq<Op>): seq<Vector2>
    decreases |ops|
  {
    if |ops| == 0 then []
    else if ops[0].AddOp? then [ops[0].r] + AddedRights(ops[1..])
    else AddedRights(ops[1..])
  }

  predicate NoClear(ops: seq<Op>) {
    forall i :: 0 <= i < |ops| ==> ops[i].AddOp?
  }

  lemma NoClearTail(ops: seq<Op>)
    requires |ops| > 0 && NoClear(ops)
    ensures ops[0].AddOp? && NoClear(ops[1..])
  {
    forall i | 0 <= i < |ops[1..]| ensures ops[1..][i].AddOp? {
      assert ops[1..][i] == ops[i + 1];
    }
  }

  /** Every sequence of calls keeps the two sequences the same length. */
  lemma {:induction false} RunKeepsValid(h: Correspondences, ops: seq<Op>)
    requires Valid(h)
    ensures Valid(Run(h, ops))
    decreases |ops|
  {
    if |ops| > 0 {
      var h' := Apply(h, ops[0]);
      assert Valid(h');
      RunKeepsValid(h', ops[1..]);
    }
  }

  /** Without a `clear()`, the calls append exactly the added pairs. */
  lemma {:induction false} RunAppends(h: Correspondences, ops: seq<Op>)
    requires NoClear(ops)
    ensures Run(h, ops) == Correspondences(h.left + AddedLefts(ops), h.right + AddedRights(ops))
    decreases |ops|
  {
    if |ops| > 0 {
      NoClearTail(ops);
      var l, r, rest := ops[0].l, ops[0].r, ops[1..];
      var h' := Correspondences(h.left + [l], h.right + [r]);
      assert Run(h, ops) == Run(h', rest);
      RunAppends(h', rest);
      assert AddedLefts(ops) == [l] + AddedLefts(rest);
      assert AddedRights(ops) == [r] + AddedRights(rest);
      assert h.left + [l] + AddedLefts(rest) == h.left + ([l] + AddedLefts(rest));
      assert h.right + [r] + AddedRights(rest) == h.right + ([r] + AddedRights(rest));
    }
  }

  /** A `clear()` forgets everything before it: what follows acts on a fresh
      accumulator. */
  lemma {:induction false} ClearForgets(h: Correspondences, before: seq<Op>, after: seq<Op>)
    ensures Run(h, before + [ClearOp] + after) == Run(New(), after)
    decreases |before|
  {
    if |before| == 0 {
      assert before + [ClearOp] + after == [ClearOp] + after;
      assert ([ClearOp] + after)[1..] == after;
    } else {
      assert (before + [ClearOp] + after)[1..] == before[1..] + [ClearOp] + after;
      ClearForgets(Apply(h, before[0]), before[1..], after);
    }
  }

  /** The count after adding `k` pairs to a fresh accumulator is `k`. */
  lemma CountAfterAdds(ops: seq<Op>)
    requires NoClear(ops)
    ensures CorrespondenceCount(Run(New(), ops)) == |ops|
  {
    RunAppends(New(), ops);
    AddedLeftsLength(ops);
  }

  lemma {:induction false} AddedLeftsLength(ops: seq<Op>)
    requires NoClear(ops)
    ensures |AddedLefts(ops)| == |ops|
    decreases |ops|
  {
    if |ops| > 0 {
      NoClearTail(ops);
      AddedLeftsLength(ops[1..]);
    }
  }

  // ---------------------------------------------------------------------------
  // Hartley normalisation
  // ---------------------------------------------------------------------------

  /** The component-wise `+`, `-` and `*` of two Vector2 values that the
      normalisation uses; Vector.h and VectorOperations.h define only the
      vector–scalar forms. */
  function Plus(a: Vector2, b: Vector2): (r: Vector2)
    ensures r.x - b.x == a.x && r.y - b.y == a.y
  {
    Vector2(a.x + b.x, a.y + b.y)
  }

  function Minus(a: Vector2, b: Vector2): (r: Vector2)
    ensures Plus(r, b) == a
  {
    Vector2(a.x - b.x, a.y - b.y)
  }

  /** A vector times itself, component by component: never negative. */
  function Square(a: Vector2): (r: Vector2)
    ensures r.x >= 0.0 && r.y >= 0.0
  {
    Vector2(Times(a.x, a.x), Times(a.y, a.y))
  }

  /** `std::accumulate` from `(0, 0)`, first point first. */
  function Sum(ps: seq<Vector2>): Vector2
    decreases |ps|
  {
    if |ps| == 0 then Vector2(0.0, 0.0) else Plus(Sum(ps[..|ps| - 1]), ps[|ps| - 1])
  }

  /** Because `+` is associative, the accumulation may equally be taken from
      the front: the first point plus the sum of the rest. */
  lemma {:induction false} SumFromFront(ps: seq<Vector2>)
    requires |ps| > 0
    ensures Sum(ps) == Plus(ps[0], Sum(ps[1..]))
    decreases |ps|
  {
    if |ps| == 1 {
      assert ps[..0] == [] && ps[1..] == [];
    } else {
      var init := ps[..|ps| - 1];
      var rest := ps[1..];
      SumFromFront(init);
      assert init[0] == ps[0];
      assert rest[..|rest| - 1] == init[1..];
      assert rest[|rest| - 1] == ps[|ps| - 1];
      assert Sum(rest) == Plus(Sum(init[1..]), ps[|ps| - 1]);
    }
  }

  /** `sum / data.size()`: the count times the mean is the sum. */
  function Mean(data: seq<Vector2>): (m: Vector2)
    requires |data| > 0
    ensures Times(|data| as real, m.x) == Sum(data).x && Times(|data| as real, m.y) == Sum(data).y
  {
    Div2(Sum(data), |data| as real)
  }

  /** The `std::transform` step: each point minus the mean, so that adding
      the mean back gives the point. */
  function Deviations(data: seq<Vector2>, mean: Vector2): (d: seq<Vector2>)
    ensures |d| == |data|
    ensures forall i :: 0 <= i < |d| ==> Plus(d[i], mean) == data[i]
  {
    seq(|data|, i requires 0 <= i < |data| => Minus(data[i], mean))
  }

  /** `std::inner_product` of the deviations with themselves from `(0, 0)`:
      the per-axis sum of squares, never negative. */
  function SquareSum(ds: seq<Vector2>): (r: Vector2)
    ensures r.x >= 0.0 && r.y >= 0.0
    decreases |ds|
  {
    if |ds| == 0 then Vector2(0.0, 0.0) else Plus(SquareSum(ds[..|ds| - 1]), Square(ds[|ds| - 1]))
  }

  /** `sq_sum / data.size()` per axis: the squares of `stdev`. */
  function Variance(data: seq<Vector2>): (v: Vector2)
    requires |data| > 0
    ensures v.x >= 0.0 && v.y >= 0.0
  {
    var s := SquareSum(Deviations(data, Mean(data)));
    Vector2(s.x / (|data| as real), s.y / (|data| as real))
  }

  /** `s` is `sqrt(2) / sqrt(variance)`: positive, with `s² · variance = 2`.
      Such an `s` exists only for a positive variance; a zero variance is
      the division by zero of the source. */
  predicate IsAxisScale(variance: real, s: real) {
    s > 0.0 && s * s * variance == 2.0
  }

  /** `getHartleyNormalization(data, normalization)`: the identity with the
      scales on the diagonal and the scaled negated mean in the last column.
      Applied to the mean (with the implicit homogeneous 1), it gives the
      origin `(0, 0, 1)`. */
  function HartleyNormalization(data: seq<Vector2>, sx: real, sy: real): (n: Matrix3)
    requires |data| > 0
    requires IsAxisScale(Variance(data).x, sx) && IsAxisScale(Variance(data).y, sy)
    ensures n.a00 == sx && n.a11 == sy && n.a22 == 1.0
    ensures n.a01 == 0.0 && n.a10 == 0.0 && n.a20 == 0.0 && n.a21 == 0.0
    ensures n.a02 == Times(-Mean(data).x, sx) && n.a12 == Times(-Mean(data).y, sy)
    ensures MatVec3Homogeneous(n, Mean(data)) == Vector3(0.0, 0.0, 1.0)
  {
    var mean := Mean(data);
    var n := Identity3();
    var n := n.(a00 := sx, a11 := sy);
    var n := n.(a02 := Times(-mean.x, n.a00), a12 := Times(-mean.y, n.a11));
    ShiftThenScale(mean.x, mean.y, mean, sx, sy);
    n
  }

  /** Over plain reals: the rows of the normalisation applied to `(x, y, 1)`
      give the scaled deviations from `m` and the homogeneous 1. */
  lemma ShiftThenScale(x: real, y: real, m: Vector2, sx: real, sy: real)
    ensures Affine2(sx, 0.0, Times(-m.x, sx), x, y) == Times(x - m.x, sx)
    ensures Affine2(0.0, sy, Times(-m.y, sy), x, y) == Times(y - m.y, sy)
    ensures Affine2(0.0, 0.0, 1.0, x, y) == 1.0
  {
  }

  /** The points of `data` mapped through `n` with the implicit homogeneous
      1, keeping the first two coordinates. */
  function Transform(n: Matrix3, data: seq<Vector2>): (t: seq<Vector2>)
    ensures |t| == |data|
  {
    seq(|data|, i requires 0 <= i < |data| => var q := MatVec3Homogeneous(n, data[i]); Vector2(q.x, q.y))
  }

  /** Each point scaled per axis. */
  function ScaleEach(ds: seq<Vector2>, sx: real, sy: real): (r: seq<Vector2>)
    ensures |r| == |ds|
  {
    seq(|ds|, i requires 0 <= i < |ds| => Vector2(Times(ds[i].x, sx), Times(ds[i].y, sy)))
  }

  /** The third coordinate of every transformed point is 1, and the first
      two are the scaled deviations from the mean. */
  lemma TransformIsScaledDeviation(data: seq<Vector2>, sx: real, sy: real)
    requires |data| > 0
    requires IsAxisScale(Variance(data).x, sx) && IsAxisScale(Variance(data).y, sy)
    ensures forall i :: 0 <= i < |data| ==> MatVec3Homogeneous(HartleyNormalization(data, sx, sy), data[i]).z == 1.0
    ensures Transform(HartleyNormalization(data, sx, sy), data) == ScaleEach(Deviations(data, Mean(data)), sx, sy)
  {
    var n := HartleyNormalization(data, sx, sy);
    var m := Mean(data);
    var d := Deviations(data, m);
    var t := Transform(n, data);
    var s := ScaleEach(d, sx, sy);
    forall i | 0 <= i < |data|
      ensures MatVec3Homogeneous(n, data[i]).z == 1.0 && t[i] == s[i]
    {
      ShiftThenScale(data[i].x, data[i].y, m, sx, sy);
      assert d[i].x == data[i].x - m.x && d[i].y == data[i].y - m.y;
    }
  }

  lemma TimesDistributes(a: real, b: real, c: real)
    ensures Times(a, c) + Times(b, c) == Times(a + b, c)
  {
  }

  /** Scaling each point scales the sum. */
  lemma {:induction false} SumScaleEach(ds: seq<Vector2>, sx: real, sy: real)
    ensures Sum(ScaleEach(ds, sx, sy)) == Vector2(Times(Sum(ds).x, sx), Times(Sum(ds).y, sy))
    decreases |ds|
  {
    if |ds| > 0 {
      var k := |ds| - 1;
      var s := ScaleEach(ds, sx, sy);
      assert s[..k] == ScaleEach(ds[..k], sx, sy) by {
        assert forall i :: 0 <= i < k ==> s[..k][i] == s[i];
      }
      SumScaleEach(ds[..k], sx, sy);
      TimesDistributes(Sum(ds[..k]).x, ds[k].x, sx);
      TimesDistributes(Sum(ds[..k]).y, ds[k].y, sy);
    }
  }

  /** The deviations from any point `m` sum to the sum minus `count · m`. */
  lemma {:induction false} SumDeviations(data: seq<Vector2>, m: Vector2)
    ensures Sum(Deviations(data, m)).x + Times(|data| as real, m.x) == Sum(data).x
    ensures Sum(Deviations(data, m)).y + Times(|data| as real, m.y) == Sum(data).y
    decreases |data|
  {
    if |data| > 0 {
      var k := |data| - 1;
      var d := Deviations(data, m);
      assert d[..k] == Deviations(data[..k], m) by {
        assert forall i :: 0 <= i < k ==> d[..k][i] == d[i];
      }
      SumDeviations(data[..k], m);
      assert (k as real) + 1.0 == |data| as real;
      TimesSucc(k as real, m.x);
      TimesSucc(k as real, m.y);
      assert Sum(d) == Plus(Sum(d[..k]), d[k]);
      assert Sum(data) == Plus(Sum(data[..k]), data[k]);
      assert d[k] == Minus(data[k], m);
    }
  }

  lemma TimesSucc(k: real, m: real)
    ensures Times(k + 1.0, m) == Times(k, m) + m
  {
  }

  /** The normalised points have zero centroid, which is what the TODO on
      the translation entries of `getHartleyNormalization` asks about. */
  lemma NormalizedCentroidIsOrigin(data: seq<Vector2>, sx: real, sy: real)
    requires |data| > 0
    requires IsAxisScale(Variance(data).x, sx) && IsAxisScale(Variance(data).y, sy)
    ensures Sum(Transform(HartleyNormalization(data, sx, sy), data)) == Vector2(0.0, 0.0)
  {
    TransformIsScaledDeviation(data, sx, sy);
    ScaledDeviationsSumToZero(data, sx, sy);
  }

  /** However each axis is scaled, the scaled deviations from the mean sum
      to zero. */
  lemma ScaledDeviationsSumToZero(data: seq<Vector2>, sx: real, sy: real)
    requires |data| > 0
    ensures Sum(ScaleEach(Deviations(data, Mean(data)), sx, sy)) == Vector2(0.0, 0.0)
  {
    DeviationsSumToZero(data);
    SumScaleEach(Deviations(data, Mean(data)), sx, sy);
  }

  /** The deviations from the mean sum to zero. */
  lemma DeviationsSumToZero(data: seq<Vector2>)
    requires |data| > 0
    ensures Sum(Deviations(data, Mean(data))) == Vector2(0.0, 0.0)
  {
    SumDeviations(data, Mean(data));
  }

  lemma SquareOfTimes(x: real, s: real)
    ensures Times(Times(x, s), Times(x, s)) == Times(Times(x, x), Times(s, s))
  {
  }

  /** Scaling each point scales each square sum by the square of the
      scale. */
  lemma {:induction false} SquareSumScaleEach(ds: seq<Vector2>, sx: real, sy: real)
    ensures SquareSum(ScaleEach(ds, sx, sy)) == Vector2(Times(SquareSum(ds).x, Times(sx, sx)), Times(SquareSum(ds).y, Times(sy, sy)))
    decreases |ds|
  {
    if |ds| > 0 {
      var k := |ds| - 1;
      var s := ScaleEach(ds, sx, sy);
      assert s[..k] == ScaleEach(ds[..k], sx, sy) by {
        assert forall i :: 0 <= i < k ==> s[..k][i] == s[i];
      }
      SquareSumScaleEach(ds[..k], sx, sy);
      SquareOfTimes(ds[k].x, sx);
      SquareOfTimes(ds[k].y, sy);
      TimesDistributes(SquareSum(ds[..k]).x, Times(ds[k].x, ds[k].x), Times(sx, sx));
      TimesDistributes(SquareSum(ds[..k]).y, Times(ds[k].y, ds[k].y), Times(sy, sy));
    }
  }

  /** A point set whose sum is zero has mean zero. */
  lemma ZeroSumMean(t: seq<Vector2>)
    requires |t| > 0 && Sum(t) == Vector2(0.0, 0.0)
    ensures Mean(t) == Vector2(0.0, 0.0)
  {
    var m := Mean(t);
    TimesZero(|t| as real, m.x);
    TimesZero(|t| as real, m.y);
  }

  lemma TimesZero(n: real, x: real)
    requires n > 0.0 && Times(n, x) == 0.0
    ensures x == 0.0
  {
  }

  /** The deviations from the origin are the points themselves. */
  lemma DeviationsFromOrigin(t: seq<Vector2>)
    ensures Deviations(t, Vector2(0.0, 0.0)) == t
  {
    var m := Vector2(0.0, 0.0);
    var d := Deviations(t, m);
    forall i | 0 <= i < |t| ensures d[i] == t[i] {
      assert Plus(d[i], m) == t[i];
    }
  }

  /** With `v = q / n` and `s² · v = 2` on each axis, `(q · s²) / n = 2`. */
  lemma ScaledVariance(q: Vector2, n: real, v: Vector2, sx: real, sy: real)
    requires n > 0.0 && v == Vector2(q.x / n, q.y / n)
    requires IsAxisScale(v.x, sx) && IsAxisScale(v.y, sy)
    ensures Vector2(Times(q.x, Times(sx, sx)) / n, Times(q.y, Times(sy, sy)) / n) == Vector2(2.0, 2.0)
  {
    assert Times(q.x, Times(sx, sx)) == sx * sx * v.x * n;
    assert Times(q.y, Times(sy, sy)) == sy * sy * v.y * n;
  }

  /** The normalised points have variance 2 on each axis. With the centroid
      at the origin, their mean squared distance from it is therefore 4
      (2 per axis), not the 2 of the isotropic textbook normalisation. */
  lemma NormalizedVarianceIsTwo(data: seq<Vector2>, sx: real, sy: real)
    requires |data| > 0
    requires IsAxisScale(Variance(data).x, sx) && IsAxisScale(Variance(data).y, sy)
    ensures Variance(Transform(HartleyNormalization(data, sx, sy), data)) == Vector2(2.0, 2.0)
  {
    TransformIsScaledDeviation(data, sx, sy);
    VarianceOfScaledDeviations(data, sx, sy);
  }

  /** Scaling the deviations by `s` with `s² · variance = 2` on each axis
      gives variance 2. */
  lemma VarianceOfScaledDeviations(data: seq<Vector2>, sx: real, sy: real)
    requires |data| > 0
    requires IsAxisScale(Variance(data).x, sx) && IsAxisScale(Variance(data).y, sy)
    ensures Variance(ScaleEach(Deviations(data, Mean(data)), sx, sy)) == Vector2(2.0, 2.0)
  {
    ScaledDeviationsSumToZero(data, sx, sy);
    ZeroSumMean(ScaleEach(Deviations(data, Mean(data)), sx, sy));
    CentredScaledVariance(data, sx, sy);
  }

  /** The arithmetic step: once the scaled deviations are known to be
      centred, their variance is the data's square sum times `s²` over the
      count, which `IsAxisScale` makes 2. */
  lemma CentredScaledVariance(data: seq<Vector2>, sx: real, sy: real)
    requires |data| > 0
    requires IsAxisScale(Variance(data).x, sx) && IsAxisScale(Variance(data).y, sy)
    requires Mean(ScaleEach(Deviations(data, Mean(data)), sx, sy)) == Vector2(0.0, 0.0)
    ensures Variance(ScaleEach(Deviations(data, Mean(data)), sx, sy)) == Vector2(2.0, 2.0)
  {
    var n := |data| as real;
    var d := Deviations(data, Mean(data));
    var q := SquareSum(d);
    var t := ScaleEach(d, sx, sy);
    assert |t| == |data| && Mean(t) == Vector2(0.0, 0.0);
    DeviationsFromOrigin(t);
    SquareSumScaleEach(d, sx, sy);
    assert Variance(data) == Vector2(q.x / n, q.y / n);
    ScaledVariance(q, n, Variance(data), sx, sy);
    assert Variance(t) == Vector2(Times(q.x, Times(sx, sx)) / n, Times(q.y, Times(sy, sy)) / n);
  }
}
