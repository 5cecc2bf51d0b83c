/**
 * Dense real matrices as sequences of rows, and the few tensor operations the
 * updaters and the training loop use. Floating-point tensors are modelled with
 * exact `real` arithmetic.
 */
module Matrices {

  type Vector = seq<real>
  type Matrix = seq<seq<real>>

  /** `m` has `rows` rows of `cols` entries each. */
  predicate IsMatrix(m: Matrix, rows: nat, cols: nat)
  {
    |m| == rows && forall i :: 0 <= i < rows ==> |m[i]| == cols
  }

  /** The number of columns of a matrix that has at least one row (0 otherwise). */
  function Cols(m: Matrix): nat
  {
    if |m| == 0 then 0 else |m[0]|
  }

  /** `torch.zeros(n)` */
  function Zeros(n: nat): (v: Vector)
    ensures |v| == n && forall j {:trigger v[j]} :: 0 <= j < n ==> v[j] == 0.0
  {
    seq(n, _ => 0.0)
  }

  /** `torch.zeros(rows, cols)` */
  function Zero(rows: nat, cols: nat): (z: Matrix)
    ensures IsMatrix(z, rows, cols)
    ensures forall i, j :: 0 <= i < rows && 0 <= j < cols ==> z[i][j] == 0.0
  {
    seq(rows, _ => Zeros(cols))
  }

  /** `torch.eye(n)` */
  function Identity(n: nat): (e: Matrix)
    ensures IsMatrix(e, n, n)
    ensures forall i, j :: 0 <= i < n && 0 <= j < n ==> e[i][j] == if i == j then 1.0 else 0.0
  {
    seq(n, i => seq(n, j => if i == j then 1.0 else 0.0))
  }

  /** Sum of the entries, added from the first to the last. */
  function Sum(a: Vector): real
    decreases |a|
  {
    if |a| == 0 then 0.0 else Sum(a[..|a| - 1]) + a[|a| - 1]
  }

  /** Entrywise product. */
  function Products(a: Vector, b: Vector): (r: Vector)
    requires |a| == |b|
    ensures |r| == |a| && forall j {:trigger r[j]} :: 0 <= j < |a| ==> r[j] == a[j] * b[j]
  {
    seq(|a|, j requires 0 <= j < |a| => a[j] * b[j])
  }

  /** Inner product. */
  function Dot(a: Vector, b: Vector): real
    requires |a| == |b|
  {
    Sum(Products(a, b))
  }

  /** Sum of squares; the Euclidean norm is its square root. */
  function SumSq(a: Vector): real
  {
    Dot(a, a)
  }

  function VecSub(a: Vector, b: Vector): (r: Vector)
    requires |a| == |b|
    ensures |r| == |a| && forall j {:trigger r[j]} :: 0 <= j < |a| ==> r[j] == a[j] - b[j]
  {
    seq(|a|, j requires 0 <= j < |a| => a[j] - b[j])
  }

  /** `m @ x` */
  function MatVec(m: Matrix, x: Vector): (r: Vector)
    requires forall i :: 0 <= i < |m| ==> |m[i]| == |x|
    ensures |r| == |m| && forall i {:trigger r[i]} :: 0 <= i < |m| ==> r[i] == Dot(m[i], x)
  {
    seq(|m|, i requires 0 <= i < |m| => Dot(m[i], x))
  }

  /** `torch.ger(a, b)`, the outer product. */
  function Outer(a: Vector, b: Vector): (r: Matrix)
    ensures IsMatrix(r, |a|, |b|)
    ensures forall i, j {:trigger r[i][j]} :: 0 <= i < |a| && 0 <= j < |b| ==> r[i][j] == a[i] * b[j]
  {
    seq(|a|, i requires 0 <= i < |a| => seq(|b|, j requires 0 <= j < |b| => a[i] * b[j]))
  }

  function MatAdd(a: Matrix, b: Matrix, rows: nat, cols: nat): (r: Matrix)
    requires IsMatrix(a, rows, cols) && IsMatrix(b, rows, cols)
    ensures IsMatrix(r, rows, cols)
    ensures forall i, j {:trigger r[i][j]} :: 0 <= i < rows && 0 <= j < cols ==> r[i][j] == a[i][j] + b[i][j]
  {
    seq(rows, i requires 0 <= i < rows => seq(cols, j requires 0 <= j < cols => a[i][j] + b[i][j]))
  }

  function MatSub(a: Matrix, b: Matrix, rows: nat, cols: nat): (r: Matrix)
    requires IsMatrix(a, rows, cols) && IsMatrix(b, rows, cols)
    ensures IsMatrix(r, rows, cols)
    ensures forall i, j {:trigger r[i][j]} :: 0 <= i < rows && 0 <= j < cols ==> r[i][j] == a[i][j] - b[i][j]
  {
    seq(rows, i requires 0 <= i < rows => seq(cols, j requires 0 <= j < cols => a[i][j] - b[i][j]))
  }

  function MatScale(c: real, a: Matrix, rows: nat, cols: nat): (r: Matrix)
    requires IsMatrix(a, rows, cols)
    ensures IsMatrix(r, rows, cols)
    ensures forall i, j {:trigger r[i][j]} :: 0 <= i < rows && 0 <= j < cols ==> r[i][j] == c * a[i][j]
  {
    seq(rows, i requires 0 <= i < rows => seq(cols, j requires 0 <= j < cols => c * a[i][j]))
  }

  /** Column `j` of a matrix with `cols` columns. */
  function Column(b: Matrix, j: nat): (c: Vector)
    requires forall k :: 0 <= k < |b| ==> j < |b[k]|
    ensures |c| == |b| && forall k {:trigger c[k]} :: 0 <= k < |b| ==> c[k] == b[k][j]
  {
    seq(|b|, k requires 0 <= k < |b| => b[k][j])
  }

  /** `a @ b` for an `n`-by-`inner` matrix `a` and an `inner`-by-`cols` matrix `b`. */
  function MatMul(a: Matrix, b: Matrix, inner: nat, cols: nat): (r: Matrix)
    requires IsMatrix(a, |a|, inner) && IsMatrix(b, inner, cols)
    ensures IsMatrix(r, |a|, cols)
    ensures forall i, j {:trigger r[i][j]} :: 0 <= i < |a| && 0 <= j < cols ==> r[i][j] == Dot(a[i], Column(b, j))
  {
    seq(|a|, i requires 0 <= i < |a| => seq(cols, j requires 0 <= j < cols => Dot(a[i], Column(b, j))))
  }

  /** `m.t()` for a matrix with `cols` columns (explicit, since a matrix without rows does not carry its width). */
  function Transposed(m: Matrix, cols: nat): (t: Matrix)
    requires IsMatrix(m, |m|, cols)
    ensures IsMatrix(t, cols, |m|)
    ensures forall j, i {:trigger t[j][i]} :: 0 <= j < cols && 0 <= i < |m| ==> t[j][i] == m[i][j]
  {
    seq(cols, j requires 0 <= j < cols => seq(|m|, i requires 0 <= i < |m| => m[i][j]))
  }

  /** All entries of a matrix, row after row (the vector whose norm is the Frobenius norm). */
  function Flatten(m: Matrix): (v: Vector)
  {
    if |m| == 0 then [] else Flatten(m[..|m| - 1]) + m[|m| - 1]
  }

  /**
   * The numerical routines of the tensor library that this model does not
   * define: `torch.inverse`, `torch.pinverse` (given the column count of its
   * argument) and `torch.norm`.
   */
  datatype Numerics = Numerics(inverse: Matrix -> Matrix, pinv: (Matrix, nat) -> Matrix, norm: Vector -> real)

  /** The inverse of a square matrix is square of the same size. */
  ghost predicate InverseShaped(inverse: Matrix -> Matrix)
  {
    forall a {:trigger inverse(a)} :: IsMatrix(a, |a|, |a|) ==> IsMatrix(inverse(a), |a|, |a|)
  }

  /** The pseudo-inverse of a `d`-by-`n` matrix is `n`-by-`d`. */
  ghost predicate PinvShaped(pinv: (Matrix, nat) -> Matrix)
  {
    forall x, n: nat {:trigger pinv(x, n)} :: IsMatrix(x, |x|, n) ==> IsMatrix(pinv(x, n), n, |x|)
  }

  /**
   * `norm` is the Euclidean norm: non-negative, zero exactly on vectors whose
   * sum of squares is zero, and its square is the sum of squares.
   */
  ghost predicate IsNorm(norm: Vector -> real)
  {
    forall v :: norm(v) >= 0.0 && (norm(v) == 0.0 <==> SumSq(v) == 0.0) && norm(v) * norm(v) == SumSq(v)
  }

  /**
   * The solves return matrices of the shapes the tensor library gives them.
   * (That `norm` is a norm is stated separately, by `IsNorm`, where it is needed.)
   */
  ghost predicate Conforms(lib: Numerics)
  {
    InverseShaped(lib.inverse) && PinvShaped(lib.pinv)
  }

  // ----- lemmas -----

  lemma {:induction false} SumNonNegative(p: Vector)
    requires forall j :: 0 <= j < |p| ==> p[j] >= 0.0
    ensures Sum(p) >= 0.0
  {
    if |p| > 0 {
      SumNonNegative(p[..|p| - 1]);
    }
  }

  lemma SumSqNonNegative(a: Vector)
    ensures SumSq(a) >= 0.0
  {
    SumNonNegative(Products(a, a));
  }

  lemma {:induction false} SumZero(p: Vector)
    requires forall j :: 0 <= j < |p| ==> p[j] == 0.0
    ensures Sum(p) == 0.0
  {
    if |p| > 0 {
      SumZero(p[..|p| - 1]);
    }
  }

  /** Dot with the zero vector on the left is zero. */
  lemma DotZeroLeft(a: Vector, b: Vector)
    requires |a| == |b|
    requires forall j :: 0 <= j < |a| ==> a[j] == 0.0
    ensures Dot(a, b) == 0.0
  {
    SumZero(Products(a, b));
  }
}
