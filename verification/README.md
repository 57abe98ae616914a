# Geometry: fixed-size linear algebra, camera matrices and Hartley normalisation

This project models, over idealised real arithmetic, the core of the
header-only C++ library `dry` (hallonterror/Geometry):

- **Vector.h** (module `Vectors`): the `Vector2/3/4` value types.
  - `operator[]` reads the fields in declaration order.
  - The compound scalar operators `*=`, `/=`, `+=` and `-=` are included.
  - The Vector4 `/=`, `+=` and `-=` multiply `w` by the scalar. They are modelled as written, with corrected versions beside them (see Findings).
- **VectorOperations.h** (module `VectorOperations`): `dot` and `cross`, plus the vector–scalar operators. `vec * f`, `vec / f`, `vec + f` and `vec - f` copy the vector and delegate to the compound operators; `f * vec` and `f + vec` forward to them; `f / vec` and `f - vec` are built component-wise (the ill-formed Vector2 and Vector4 forms are under Left out).
- **Matrix.h** (modules `Matrices` and `GenericMatrix`):
  - the fixed `Matrix2`, `Matrix3` and `Matrix3x4`, with their default constructors and `Identity()`;
  - the generic `Matrix<T, N, M>`, with its flat `y * N + x` layout, `operator()` and `operator[]`, and `Identity()`.
- **MatrixOperations.h** (module `MatrixOperations`):
  - determinants;
  - adjugate inverses;
  - transposes;
  - the cross-product matrix;
  - entry-wise `+` and `-`;
  - matrix products;
  - `f - M` and `f / M`;
  - the four matrix–vector products. Two of them append an implicit homogeneous 1.
- **Camera.h** (module `Camera`):
  - `getCameraMatrix(R, t) = [Rᵀ | -Rᵀ·t]`;
  - `getRotation` and `getPosition`, which take such a matrix apart again.
- **Homography.h** (module `Homography`):
  - the correspondence accumulator: two parallel point sequences with `clear`, `addCorrespondence` and `getCorrespondenceCount`;
  - the per-axis Hartley normalisation matrix built by `getHartleyNormalization`.

Modelling choices:

- Every C++ class is an immutable datatype, and every operation is a pure function.
  - A compound operator both updates its receiver and returns a copy of it. Here it returns the one updated value.
  - The accumulator's mutating members return the new accumulator. Sequences of calls are replayed by `Homography.Run`.
- Entries are Dafny `real`s. `float32`/`float64` rounding is not modelled.
- Entries that a C++ default constructor leaves uninitialised become parameters. `Matrix3()` and `Matrix3x4()` zero only `a00`, `a01`, `a10` and `a11`.
- The square roots of the Hartley normalisation become scale parameters. Each is tied to its axis by `Homography.IsAxisScale`: `s > 0` and `s² · variance = 2`, which is exactly `s = sqrt(2) / stdev`.

## Model

| member | source | states |
|---|---|---|
| Vectors.At2 | Vector.h:17-18 | `operator[](idx)` of a Vector2 is the field `idx` places after `x` in declaration order |
| Vectors.At3 | Vector.h:64-65 | `operator[](idx)` of a Vector3 is field `idx` of x, y, z |
| Vectors.At4 | Vector.h:116-117 | `operator[](idx)` of a Vector4 is field `idx` of x, y, z, w |
| Vectors.IndexingDeterminesVector3 | Vector.h:64-65 | two Vector3 values that agree at every index are equal |
| Vectors.MulAssign2 | Vector.h:20-26 | `*= f` multiplies every component by `f` |
| Vectors.DivAssign2 | Vector.h:27-33 | `/= f` divides every component: each result component times `f` is the original |
| Vectors.AddAssign2 | Vector.h:34-40 | `+= f` raises every component by exactly `f` |
| Vectors.SubAssign2 | Vector.h:41-47 | `-= f` lowers every component by exactly `f` |
| Vectors.AddThenSubRestores2 | Vector.h:34-47 | `+= f` then `-= f` gives back the Vector2 |
| Vectors.MulThenDivRestores2 | Vector.h:20-33 | for `f ≠ 0`, `*= f` then `/= f` gives back the Vector2 |
| Vectors.MulAssign3 | Vector.h:67-74 | `*= f` multiplies every component by `f` |
| Vectors.DivAssign3 | Vector.h:75-82 | `/= f` divides every component by `f` |
| Vectors.AddAssign3 | Vector.h:83-90 | `+= f` raises every component by exactly `f` |
| Vectors.SubAssign3 | Vector.h:91-98 | `-= f` lowers every component by exactly `f` |
| Vectors.AddThenSubRestores3 | Vector.h:83-98 | `+= f` then `-= f` gives back the Vector3 |
| Vectors.MulThenDivRestores3 | Vector.h:67-82 | for `f ≠ 0`, `*= f` then `/= f` gives back the Vector3 |
| Vectors.MulAssign4 | Vector.h:119-127 | `*= f` multiplies all four components, `w` included |
| Vectors.DivAssign4 | Vector.h:128-136 | as written: x, y, z are divided by `f`, but `w` is multiplied by `f` |
| Vectors.AddAssign4 | Vector.h:137-145 | as written: x, y, z rise by `f`, but `w` is multiplied by `f` |
| Vectors.SubAssign4 | Vector.h:146-154 | as written: x, y, z fall by `f`, but `w` is multiplied by `f` |
| Vectors.Vector4KeepsWExactly | Vector.h:128-154 | the as-written `+=` and `-=` (for every `f`, so `+= 0` wipes out a non-zero `w`) and `/=` (for `f ≠ 0`) leave `w` unchanged if and only if `f = 1` or `w = 0` |
| Vectors.AddThenSubDoesNotRestore4 | Vector.h:137-154 | for `(0, 0, 0, 1)`, `+= 2` then `-= 2` gives `(0, 0, 0, 4)`, not the input |
| Vectors.DivAssign4Corrected | Vector.h:128-136 | the intended `/=`: every component, `w` included, is divided by `f` |
| Vectors.AddAssign4Corrected | Vector.h:137-145 | the intended `+=`: every component rises by `f` |
| Vectors.SubAssign4Corrected | Vector.h:146-154 | the intended `-=`: every component falls by `f` |
| Vectors.CorrectedRestores4 | Vector.h:119-154 | with the corrected operators, `+= f; -= f` and (for `f ≠ 0`) `*= f; /= f` are identities on every Vector4 |
| VectorOperations.Dot2 | VectorOperations.h:51-55 | the dot product of a Vector2 with itself is never negative |
| VectorOperations.Dot3 | VectorOperations.h:56-60 | the dot product of a Vector3 with itself is never negative |
| VectorOperations.Dot4 | VectorOperations.h:61-65 | the dot product of a Vector4 with itself is never negative |
| VectorOperations.DotIsSumOverIndices | VectorOperations.h:51-65 | `dot` is the sum over indices of the products of `operator[]` components, for 2, 3 and 4 |
| VectorOperations.DotSymmetric | VectorOperations.h:51-65 | `dot(a, b) = dot(b, a)` for 2-, 3- and 4-vectors |
| VectorOperations.Cross | VectorOperations.h:67-74 | `cross(a, b)` is orthogonal to both `a` and `b` |
| VectorOperations.CrossAnticommutative | VectorOperations.h:67-74 | `cross(a, b) = -cross(b, a)` |
| VectorOperations.CrossSelfIsZero | VectorOperations.h:67-74 | `cross(a, a)` is the zero vector |
| VectorOperations.Scale2 | VectorOperations.h:76-80 | `vec * f` scales the squared length by `f²` |
| VectorOperations.ScaleLeft2 | VectorOperations.h:81-84 | `f * vec` multiplies each component by `f` |
| VectorOperations.Div2 | VectorOperations.h:85-89 | `vec / f` is undone by `* f` |
| VectorOperations.Add2 | VectorOperations.h:94-98 | `vec + f` is undone by `- f` |
| VectorOperations.AddLeft2 | VectorOperations.h:99-102 | `f + vec` adds `f` to each component |
| VectorOperations.Sub2 | VectorOperations.h:103-107 | `vec - f` lowers each component by `f` |
| VectorOperations.Scale3 | VectorOperations.h:113-117 | `vec * f` scales the squared length by `f²` and stays parallel to `vec` (zero cross product) |
| VectorOperations.ScaleLeft3 | VectorOperations.h:118-121 | `f * vec` multiplies each component by `f` |
| VectorOperations.Div3 | VectorOperations.h:122-126 | `vec / f` is undone by `* f` |
| VectorOperations.DivLeft3 | VectorOperations.h:127-130 | `f / vec`: each component times the matching component of `vec` gives `f` |
| VectorOperations.Add3 | VectorOperations.h:131-135 | `vec + f` is undone by `- f` |
| VectorOperations.AddLeft3 | VectorOperations.h:136-139 | `f + vec` adds `f` to each component |
| VectorOperations.Sub3 | VectorOperations.h:140-144 | `vec - f` lowers each component by `f` |
| VectorOperations.SubLeft3 | VectorOperations.h:145-148 | `f - vec` is the negation of `vec - f` |
| VectorOperations.Scale4 | VectorOperations.h:150-154 | `vec * f` scales the squared length by `f²` |
| VectorOperations.ScaleLeft4 | VectorOperations.h:155-158 | `f * vec` multiplies each component by `f` |
| VectorOperations.Div4 | VectorOperations.h:159-163 | `vec / f` inherits the as-written `/=`: x, y, z divided, `w` multiplied by `f` |
| VectorOperations.Add4 | VectorOperations.h:168-172 | `vec + f` inherits the as-written `+=`: x, y, z raised, `w` multiplied by `f` |
| VectorOperations.AddLeft4 | VectorOperations.h:173-176 | `f + vec` is `vec + f`, so x, y, z rise by `f` |
| VectorOperations.Sub4 | VectorOperations.h:177-181 | `vec - f` inherits the as-written `-=`: x, y, z lowered, `w` multiplied by `f` |
| VectorOperations.SubLeft4 | VectorOperations.h:182-185 | `f - vec` is component-wise `f - component`, the negation of the corrected `vec - f` |
| VectorOperations.ScalarProductCommutes | VectorOperations.h:76-158 | `vec * f = f * vec` for Vector2, Vector3 and Vector4 |
| VectorOperations.AddThenSubScalar | VectorOperations.h:94-144 | `(vec + f) - f = vec` for Vector2 and Vector3 |
| Matrices.Default2 | Matrix.h:34 | `Matrix2()` zeroes all four entries |
| Matrices.Default3 | Matrix.h:48 | `Matrix3()` zeroes the top-left 2×2 block |
| Matrices.Default3Yields | Matrix.h:48 | every 3×3 matrix with a zero top-left 2×2 block can come out of `Matrix3()`; nothing else is promised |
| Matrices.Default3x4 | Matrix.h:66 | `Matrix3x4()` zeroes the top-left 2×2 block |
| Matrices.Default3x4Yields | Matrix.h:66 | every 3×4 matrix with a zero top-left 2×2 block can come out of `Matrix3x4()` |
| Matrices.Identity2 | Matrix.h:42 | `Matrix2::Identity()` has ones exactly on the diagonal |
| Matrices.Identity3 | Matrix.h:60 | `Matrix3::Identity()` has ones exactly on the diagonal |
| Matrices.Identity3x4 | Matrix.h:78 | `Matrix3x4::Identity()` has ones exactly at a00, a11, a22 |
| GenericMatrix.OffsetInRange | Matrix.h:12-18 | for `x < N` and `y < M`, the slot `y * N + x` lies inside the `N * M` array |
| GenericMatrix.OffsetInjective | Matrix.h:12-13 | distinct in-range `(x, y)` read distinct slots |
| GenericMatrix.Flat | Matrix.h:15-16 | `operator[](idx)` reads the cell in column `idx % N` of row `idx / N`, which is in range, so every slot is a cell |
| GenericMatrix.At | Matrix.h:12-13 | `operator()(x, y)` reads slot `y * N + x`, which lies inside the `N * M` array |
| GenericMatrix.AtIsFlat | Matrix.h:12-16 | `operator()(x, y) = operator[](y * N + x)`: with `GenericMatrix.Flat`, the two accessors agree in both directions |
| GenericMatrix.Identity | Matrix.h:20-26 | `Matrix::Identity()` is 1 at `(x, x)` for `x < min(N, M)` and 0 everywhere else |
| GenericMatrix.LayoutAgrees3 | Matrix.h:12-13 | a Matrix3 laid out row-major as `Matrix<T, 3, 3>` has `operator()(col, row)` = entry (row, col) |
| GenericMatrix.LayoutAgrees3x4 | Matrix.h:12-13 | a Matrix3x4 laid out row-major as `Matrix<T, 4, 3>` has `operator()(col, row)` = entry (row, col) |
| GenericMatrix.FixedIdentitiesAreGeneric | Matrix.h:20-78 | the hand-written identities of Matrix2, Matrix3 and Matrix3x4 are the generic identity of the same shape |
| MatrixOperations.Det2 | MatrixOperations.h:11-14 | the determinant of a triangular 2×2 matrix is the product of its diagonal |
| MatrixOperations.AdjugateProducts2 | MatrixOperations.h:16-25 | `M · adj(M) = adj(M) · M = det(M) · I` for 2×2 |
| MatrixOperations.MulScale2 | MatrixOperations.h:146-153 | scaling either factor of a 2×2 product scales the product |
| MatrixOperations.InverseFromAdjugate2 | MatrixOperations.h:16-25 | the adjugate times the reciprocal of the determinant is a two-sided inverse |
| MatrixOperations.Inverse2 | MatrixOperations.h:16-25 | for `det(M) ≠ 0`, `M · inverse(M) = inverse(M) · M = Identity` |
| MatrixOperations.Transpose2 | MatrixOperations.h:27-31 | entry (row, col) of the transpose is entry (col, row) |
| MatrixOperations.Det3 | MatrixOperations.h:41-48 | `det(mat)`, the first-row cofactor expansion, equals the six-term (Sarrus) formula and, on a triangular matrix, the diagonal product |
| MatrixOperations.CrossMatrix | MatrixOperations.h:50-57 | `getCrossMatrix(v) · w = cross(v, w)` for every `w`; zero diagonal; the transpose is the negation |
| MatrixOperations.RowsAgainstAdjugateColumn0 | MatrixOperations.h:76-92 | rows of `M` against column 0 of the adjugate give `det(M), 0, 0` |
| MatrixOperations.RowsAgainstAdjugateColumn1 | MatrixOperations.h:76-92 | rows of `M` against column 1 of the adjugate give `0, det(M), 0` |
| MatrixOperations.RowsAgainstAdjugateColumn2 | MatrixOperations.h:76-92 | rows of `M` against column 2 of the adjugate give `0, 0, det(M)` |
| MatrixOperations.AdjugateRow0AgainstColumns | MatrixOperations.h:76-92 | row 0 of the adjugate against the columns of `M` gives `det(M), 0, 0` |
| MatrixOperations.AdjugateRow1AgainstColumns | MatrixOperations.h:76-92 | row 1 of the adjugate against the columns of `M` gives `0, det(M), 0` |
| MatrixOperations.AdjugateRow2AgainstColumns | MatrixOperations.h:76-92 | row 2 of the adjugate against the columns of `M` gives `0, 0, det(M)` |
| MatrixOperations.AdjugateProducts3 | MatrixOperations.h:76-92 | `M · adj(M) = adj(M) · M = det(M) · I` for 3×3 |
| MatrixOperations.MulScale3 | MatrixOperations.h:210-224 | scaling either factor of a 3×3 product scales the product |
| MatrixOperations.InverseFromAdjugate3 | MatrixOperations.h:76-92 | the adjugate times the reciprocal of the determinant is a two-sided inverse |
| MatrixOperations.Inverse3 | MatrixOperations.h:76-92 | for `det(M) ≠ 0`, `M · inverse(M) = inverse(M) · M = Identity` |
| MatrixOperations.Transpose3 | MatrixOperations.h:94-101 | entry (row, col) of the transpose is entry (col, row) |
| MatrixOperations.TransposeKeepsDet2 | MatrixOperations.h:11-31 | `det(transpose(M)) = det(M)` for 2×2 |
| MatrixOperations.TransposeKeepsDet3 | MatrixOperations.h:41-101 | `det(transpose(M)) = det(M)` for 3×3 |
| MatrixOperations.TransposeInvolution2 | MatrixOperations.h:27-31 | transposing a 2×2 matrix twice gives it back |
| MatrixOperations.TransposeInvolution3 | MatrixOperations.h:94-101 | transposing a 3×3 matrix twice gives it back |
| MatrixOperations.Mul2 | MatrixOperations.h:145-153 | entry (row, col) of `A · B` is row `row` of `A` against column `col` of `B`, read through the entry selector `Entry2` (the fields `aRC`) |
| MatrixOperations.Det2Multiplicative | MatrixOperations.h:146-153 | `det(A · B) = det(A) · det(B)` for 2×2 |
| MatrixOperations.Add2 | MatrixOperations.h:154-159 | the 2×2 sum is undone by subtracting the second operand |
| MatrixOperations.Sub2 | MatrixOperations.h:160-165 | `A - B` is the zero matrix if and only if `A = B` |
| MatrixOperations.ScalarSub2 | MatrixOperations.h:138-143 | `(f - M) + M` is the constant-`f` matrix |
| MatrixOperations.ScalarDiv2 | MatrixOperations.h:118-123 | each entry of `f / M` times the matching entry of `M` gives `f` |
| MatrixOperations.Add3 | MatrixOperations.h:225-231 | the 3×3 sum is undone by subtracting the second operand |
| MatrixOperations.Sub3 | MatrixOperations.h:232-238 | `A - B` is the zero matrix if and only if `A = B` |
| MatrixOperations.ScalarSub3 | MatrixOperations.h:202-208 | `(f - M) + M` is the constant-`f` matrix |
| MatrixOperations.ScalarDiv3 | MatrixOperations.h:181-187 | each entry of `f / M` times the matching entry of `M` gives `f` |
| MatrixOperations.Add3x4 | MatrixOperations.h:301-307 | the 3×4 sum is undone by subtracting the second operand |
| MatrixOperations.Sub3x4 | MatrixOperations.h:308-314 | `A - B` is the zero matrix if and only if `A = B` |
| MatrixOperations.ScalarSub3x4 | MatrixOperations.h:275-281 | `(f - M) + M` is the constant-`f` matrix |
| MatrixOperations.ScalarDiv3x4 | MatrixOperations.h:254-260 | each entry of `f / M` times the matching entry of `M` gives `f` |
| MatrixOperations.AddCommutative | MatrixOperations.h:154-314 | matrix `+` is commutative for Matrix2, Matrix3 and Matrix3x4 |
| MatrixOperations.IdentityNeutral2 | MatrixOperations.h:145-153 | `Identity · M = M · Identity = M` for 2×2 |
| MatrixOperations.IdentityNeutral3 | MatrixOperations.h:210-224 | `Identity · M = M · Identity = M`, and `Identity · v = v` |
| MatrixOperations.IdentityNeutral3x4 | MatrixOperations.h:283-300 | `Identity3 · C = C` for a 3×4 `C` |
| MatrixOperations.MatVec3 | MatrixOperations.h:326-332 | each component of `M · v` is a row of `M` dotted with `v` |
| MatrixOperations.Mul3 | MatrixOperations.h:210-224 | `(A · B) · v = A · (B · v)` for every Vector3 `v`: the product is the composition of the two maps |
| MatrixOperations.MatVec3Homogeneous | MatrixOperations.h:317-324 | `M · Vector2(x, y) = M · Vector3(x, y, 1)` |
| MatrixOperations.MatVec3x4 | MatrixOperations.h:341-347 | each component of `C · v` is a row of `C` dotted with the Vector4 |
| MatrixOperations.MatVec3x4Homogeneous | MatrixOperations.h:333-340 | `C · Vector3(x, y, z) = C · Vector4(x, y, z, 1)` |
| MatrixOperations.Mul3x4 | MatrixOperations.h:283-300 | `(K · C) · v = K · (C · v)` for a 3×3 `K`, a 3×4 `C`, every Vector3 `v` and the homogeneous product |
| Camera.GetRotation | Camera.h:8-15 | `getRotation(C)` is the matrix whose transpose is the left 3×3 block of `C` |
| Camera.Neg3 | Camera.h:19-22 | the negation written out in `getPosition` is the vector's own `*= -1` |
| Camera.GetPosition | Camera.h:16-23 | `getPosition(C) = -(getRotation(C) · last column of C)` |
| Camera.GetCameraMatrix | Camera.h:24-31 | `getCameraMatrix(R, t)` has left block `Rᵀ` and last column `-Rᵀ·t` |
| Camera.RotationRoundTrip | Camera.h:8-31 | `getRotation(getCameraMatrix(R, t)) = R` for every `R` and `t` |
| Camera.CentreMapsToZero | Camera.h:24-31 | `getCameraMatrix(R, t) · t` (implicit 1) is the zero vector |
| Camera.HomogeneousSplits | MatrixOperations.h:333-340 | the homogeneous product is the left block applied to the point plus the last column |
| Camera.PositionRoundTrip | Camera.h:16-31 | `getPosition(getCameraMatrix(R, t)) = (R · Rᵀ) · t`, which is `t` whenever `R · Rᵀ = I` |
| Camera.CameraMatrixRoundTrip | Camera.h:8-31 | if the left block `L` has `L · Lᵀ = I`, then `getCameraMatrix(getRotation(C), getPosition(C)) = C` |
| Camera.PositionIsCentre | Camera.h:16-31 | for such a `C`, `C · getPosition(C)` (implicit 1) is zero |
| Camera.IdentityCamera | Camera.h:8-23 | the identity camera has the identity rotation and position zero |
| Homography.CorrespondenceCount | Homography.h:28 | `getCorrespondenceCount()` is the number of pairs when both sequences have the same length |
| Homography.New | Homography.h:15 | a new accumulator is valid and holds no pairs |
| Homography.Clear | Homography.h:17-20 | after `clear()`, whatever came before, both sequences are empty and the count is 0 |
| Homography.AddCorrespondence | Homography.h:22-27 | `addCorrespondence(l, r)` appends `l` and `r`, keeps the earlier pairs, raises the count by 1 and preserves validity |
| Homography.RunKeepsValid | Homography.h:15-28 | every sequence of `clear`/`addCorrespondence` calls keeps `left` and `right` the same length |
| Homography.RunAppends | Homography.h:22-27 | without `clear()`, the calls append exactly the added pairs, in order |
| Homography.ClearForgets | Homography.h:17-20 | a `clear()` makes what follows act as on a new accumulator |
| Homography.CountAfterAdds | Homography.h:22-28 | `k` additions to a new accumulator give count `k` |
| Homography.Plus | Homography.h:39 | the component-wise sum of two points, undone by subtracting the second |
| Homography.Minus | Homography.h:44 | the component-wise difference `p - mean`, undone by adding the mean back |
| Homography.SumFromFront | Homography.h:39 | `Homography.Sum`, the left fold `std::accumulate` from `(0, 0)`, equals the first point plus the sum of the rest |
| Homography.Square | Homography.h:45 | the per-axis square of a deviation is never negative |
| Homography.Mean | Homography.h:39-40 | for non-empty data, the count times the mean is the component-wise sum |
| Homography.Deviations | Homography.h:43-44 | one deviation per point; each deviation plus the mean is the point |
| Homography.SquareSum | Homography.h:45 | the per-axis sum of squared deviations is never negative |
| Homography.Variance | Homography.h:45-46 | the per-axis variance (the square of `stdev`) is never negative |
| Homography.HartleyNormalization | Homography.h:36-54 | the matrix has `a00 = sx`, `a11 = sy`, `a02 = -mean.x·sx`, `a12 = -mean.y·sy`, `a22 = 1`, zeros elsewhere, and maps the mean to `(0, 0, 1)` |
| Homography.ShiftThenScale | Homography.h:49-53 | the rows of the normalisation applied to `(x, y, 1)` give `(x - m.x)·sx`, `(y - m.y)·sy` and 1 |
| Homography.TransformIsScaledDeviation | Homography.h:36-54 | every normalised point has homogeneous 1 and is its deviation from the mean scaled per axis |
| Homography.SumDeviations | Homography.h:39-44 | the deviations from any `m` sum to the sum minus `count · m` |
| Homography.DeviationsSumToZero | Homography.h:39-44 | the deviations from the mean sum to zero |
| Homography.ScaledDeviationsSumToZero | Homography.h:39-53 | whatever the per-axis scales, the scaled deviations from the mean sum to zero |
| Homography.NormalizedCentroidIsOrigin | Homography.h:36-54 | the normalised points sum to zero: the centroid goes to the origin, as the comment at line 52 asks |
| Homography.ZeroSumMean | Homography.h:39-40 | a non-empty point set whose sum is zero has mean zero |
| Homography.DeviationsFromOrigin | Homography.h:43-44 | deviations from the origin are the points themselves |
| Homography.VarianceOfScaledDeviations | Homography.h:45-53 | the deviations from the mean, scaled per axis by `s` with `s² · variance = 2`, have variance 2 on each axis |
| Homography.NormalizedVarianceIsTwo | Homography.h:36-54 | the normalised points have variance 2 on each axis |

## Left out

- `Homography::estimate` (Homography.h:30-33): its body is empty and it never returns a value. There is no DLT or SVD to model.
- Square roots:
  - In the Hartley normalisation (Homography.h:46, 50-51), the scales are parameters `sx` and `sy` tied to the variances by `Homography.IsAxisScale`.
  - A zero variance is the source's division by zero. Here it leaves `IsAxisScale` unsatisfiable, so it becomes a precondition.
- Per-axis scaling: the entries and properties of the normalisation follow the code, which scales each axis separately so that each axis gets variance 2. With the centroid at the origin, the mean squared distance from it is then 4 (root mean square distance 2). The isotropic textbook normalisation (section 4.4.4 of Hartley and Zisserman, Multiple View Geometry) instead uses one scale for both axes, chosen so that the average distance from the origin is `sqrt(2)`; a common variant makes the root mean square distance `sqrt(2)`.
- Vector–vector `+`, `-` and `*` (Homography.h:39, 44, 45):
  - Only vector–scalar forms exist in VectorOperations.h, so the normalisation does not compile as written.
  - The model uses the evident component-wise meaning (`Homography.Plus`, `Homography.Minus`, `Homography.Square`).
  - `std::accumulate` and `std::inner_product` are left folds from `(0, 0)` (`Homography.Sum`, `Homography.SquareSum`).
- The trigonometric rotation builders `getRotation(angle)` and `getRotationEuler` (MatrixOperations.h:33-39, 59-74): sine and cosine are floating-point numerics.
- `normalize`, `normalized`, `norm` and `norm2` (VectorOperations.h:7-49; Vector.h:49-50, 100-101, 156-157):
  - `normalize`, `normalized` and `norm` need square roots;
  - the `norm` and `norm2` bodies use an undeclared `vec`, so they do not compile.
- The matrix–scalar `*`, `/`, `+` and `-` that delegate to compound members (MatrixOperations.h:104-117, 124-137, 167-180, 188-200, 240-253, 261-274): `Matrix2`, `Matrix3` and `Matrix3x4` define no `*=`, `/=`, `+=` or `-=`, so these do not compile once instantiated. The directly built `f - M` and `f / M` are modelled.
- `f / Vector2`, `f - Vector2` and `f / Vector4` (VectorOperations.h:90-93, 108-111, 164-167): they construct a `Vector3` from the wrong number of arguments, so they do not compile.
- Vec.h, Point.h and Types.h are not part of this model. They hold typedefs, plain coordinate containers and a duplicate square-root normalisation.
- Floating point:
  - `float32`/`float64` rounding is not modelled.
  - When `det = 0`, `1.0 / det` gives infinities and NaNs (MatrixOperations.h:19, 79). This case is excluded by the `det ≠ 0` precondition of the inverses.
- Division by zero elsewhere: for floating-point `T` the source divides anyway and yields infinities or NaNs; for integer `T` it is undefined behaviour. Real division has no such values, so these members exclude the zero divisor by a precondition:
  - `Vectors.DivAssign2`, `Vectors.DivAssign3`, `Vectors.DivAssign4` and `Vectors.DivAssign4Corrected` (`f ≠ 0`);
  - `VectorOperations.Div2`, `VectorOperations.Div3` and `VectorOperations.Div4` (`f ≠ 0`);
  - `VectorOperations.DivLeft3` and `MatrixOperations.ScalarDiv2`, `MatrixOperations.ScalarDiv3` and `MatrixOperations.ScalarDiv3x4` (no zero component or entry);
  - `Homography.Mean`, `Homography.Variance` and `Homography.HartleyNormalization` (non-empty data: Homography.h:40 divides by `data.size()`).
- `std::memset` (Matrix.h:22) is modelled as a zero fill. The pointer-arithmetic `operator[]` of the vectors (`*(&x + idx)`, Vector.h:17-18, 64-65, 116-117) is modelled as field selection. Out-of-range indices, here and in `Matrix::operator[]` (Matrix.h:15-16), are excluded by preconditions.
- Uninitialised members:
  - `Vector2()`, `Vector3()` and `Vector4()` (Vector.h:11, 57, 108) leave every field uninitialised, so they have no model of their own.
  - `Matrix3()` and `Matrix3x4()` leave their other entries uninitialised, so those entries are parameters.
- VectorOperations.Div4, VectorOperations.Add4, VectorOperations.AddLeft4 and VectorOperations.Sub4 deliberately keep the as-written `w *= f` of the compound operators they delegate or forward to. The camera, matrix–vector and Hartley members use no Vector4 compound operator, so the bug does not reach them.

## Findings

| source | as written | input that shows it | evidently intended | confidence | as-written member | corrected member |
|---|---|---|---|---|---|---|
| Vector.h:134 | Vector4 `/=` does `w *= f` | `(0, 0, 0, 1) /= 2` gives `w = 2`, not `0.5` | `w /= f`, like x, y and z | high, not executed | Vectors.Vector4KeepsWExactly | Vectors.CorrectedRestores4 |
| Vector.h:143 | Vector4 `+=` does `w *= f` | `(0, 0, 0, 1) += 2` then `-= 2` gives `(0, 0, 0, 4)` | `w += f` | high, not executed | Vectors.AddThenSubDoesNotRestore4 | Vectors.CorrectedRestores4 |
| Vector.h:152 | Vector4 `-=` does `w *= f` | `(0, 0, 0, 1) -= 2` gives `w = 2`, not `-1` | `w -= f` | high, not executed | Vectors.Vector4KeepsWExactly | Vectors.CorrectedRestores4 |
