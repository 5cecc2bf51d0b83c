/**
 * The two online memory updaters of `src/updaters.py`: the damped delta rule,
 * a pure function of the memory and one sample, and the Omega rule, which
 * keeps the most recent samples in two bounded FIFO buffers and recomputes the
 * memory from them by a ridge or pseudo-inverse least-squares solve.
 */
module Updaters {
  import opened Results
  import opened Matrices

  // ---------------------------------------------------------------------------
  // Delta rule
  // ---------------------------------------------------------------------------

  /** The delta updater only reads its two hyperparameters, so it is a value. */
  datatype DeltaUpdater = DeltaUpdater(lr: real, reg: real)
  {
    /**
     * One gradient step on the squared error of `memory @ x` against `y`,
     * damped by `reg` times the memory: `memory - lr * (outer(memory @ x - y, x) + reg * memory)`.
     */
    function Update(memory: Matrix, x: Vector, y: Vector): (r: Matrix)
      requires IsMatrix(memory, |y|, |x|)
      ensures IsMatrix(r, |y|, |x|)
    {
      seq(|y|, i requires 0 <= i < |y| =>
        var error := Dot(memory[i], x) - y[i];
        seq(|x|, j requires 0 <= j < |x| => memory[i][j] - lr * (error * x[j] + reg * memory[i][j])))
    }
  }

  /** Entry `(i, j)` of a step, written out. */
  lemma UpdateEntry(u: DeltaUpdater, memory: Matrix, x: Vector, y: Vector, i: nat, j: nat)
    requires IsMatrix(memory, |y|, |x|) && i < |y| && j < |x|
    ensures u.Update(memory, x, y)[i][j]
         == memory[i][j] - u.lr * ((Dot(memory[i], x) - y[i]) * x[j] + u.reg * memory[i][j])
  {
  }

  /**
   * The step is the tensor expression of the source, evaluated operation by
   * operation: the entrywise definition above computes the same matrix.
   */
  lemma UpdateMatrixForm(u: DeltaUpdater, memory: Matrix, x: Vector, y: Vector)
    requires IsMatrix(memory, |y|, |x|)
    ensures var rows, cols := |y|, |x|;
            var error := VecSub(MatVec(memory, x), y);
            var grad := MatAdd(Outer(error, x), MatScale(u.reg, memory, rows, cols), rows, cols);
            u.Update(memory, x, y) == MatSub(memory, MatScale(u.lr, grad, rows, cols), rows, cols)
  {
    var rows, cols := |y|, |x|;
    var error := VecSub(MatVec(memory, x), y);
    var grad := MatAdd(Outer(error, x), MatScale(u.reg, memory, rows, cols), rows, cols);
    var m := MatSub(memory, MatScale(u.lr, grad, rows, cols), rows, cols);
    var r := u.Update(memory, x, y);
    forall i | 0 <= i < rows
      ensures r[i] == m[i]
    {
      forall j | 0 <= j < cols
        ensures r[i][j] == m[i][j]
      {
        UpdateEntry(u, memory, x, y, i, j);
      }
    }
  }

  /**
   * A step leaves the memory unchanged when the learning rate is zero, or when
   * there is no damping and the memory already recalls `y` from `x` exactly.
   */
  lemma UpdateFixedPoint(u: DeltaUpdater, memory: Matrix, x: Vector, y: Vector)
    requires IsMatrix(memory, |y|, |x|)
    requires u.lr == 0.0 || (u.reg == 0.0 && MatVec(memory, x) == y)
    ensures u.Update(memory, x, y) == memory
  {
    var r := u.Update(memory, x, y);
    forall i | 0 <= i < |y|
      ensures r[i] == memory[i]
    {
      if u.lr != 0.0 {
        assert Dot(memory[i], x) == y[i] by {
          assert MatVec(memory, x)[i] == y[i];
        }
      }
      forall j | 0 <= j < |x|
        ensures r[i][j] == memory[i][j]
      {
        UpdateEntry(u, memory, x, y, i, j);
      }
    }
  }

  /** A zero 2x2 memory, `lr = 0.1`, `reg = 0`, key `[1, 0]`, value `[2, 0]`. */
  lemma UpdateExample()
    ensures DeltaUpdater(0.1, 0.0).Update(Zero(2, 2), [1.0, 0.0], [2.0, 0.0]) == [[0.2, 0.0], [0.0, 0.0]]
  {
    var r := DeltaUpdater(0.1, 0.0).Update(Zero(2, 2), [1.0, 0.0], [2.0, 0.0]);
    DotZeroLeft(Zero(2, 2)[0], [1.0, 0.0]);
    DotZeroLeft(Zero(2, 2)[1], [1.0, 0.0]);
    assert r[0] == [0.2, 0.0];
    assert r[1] == [0.0, 0.0];
  }

  // ---------------------------------------------------------------------------
  // Omega rule: bounded sample window
  // ---------------------------------------------------------------------------

  /** The last `n` elements of `h` (all of `h` if it is shorter), in their order. */
  function LastN<T>(h: seq<T>, n: nat): (r: seq<T>)
    ensures |r| == if |h| <= n then |h| else n
  {
    if |h| <= n then h else h[|h| - n..]
  }

  /**
   * `append` on a `deque(maxlen=maxlen)`: the new element goes to the right
   * end, and when the deque is full the leftmost (oldest) element is evicted.
   */
  function DequeAppend<T>(buf: seq<T>, x: T, maxlen: nat): (r: seq<T>)
    requires |buf| <= maxlen
    ensures |r| == if |buf| < maxlen then |buf| + 1 else maxlen
    ensures maxlen > 0 ==> r[|r| - 1] == x
  {
    if |buf| < maxlen then buf + [x]
    else if maxlen == 0 then []
    else buf[1..] + [x]
  }

  /** Appending to a window over a history gives the window over the longer history. */
  lemma WindowAppend<T>(h: seq<T>, x: T, w: nat)
    ensures DequeAppend(LastN(h, w), x, w) == LastN(h + [x], w)
  {
  }

  /** Once `s` fills the window, what came before `s` no longer shows in it. */
  lemma WindowForgets<T>(h: seq<T>, s: seq<T>, w: nat)
    requires |s| >= w
    ensures LastN(h + s, w) == LastN(s, w)
  {
    assert (h + s)[|h + s| - w..] == s[|s| - w..];
  }

  // ---------------------------------------------------------------------------
  // Omega rule: least-squares solve
  // ---------------------------------------------------------------------------

  datatype SolveError =
    | EmptyWindow    // `torch.stack` of an empty list
    | ShapeMismatch  // `torch.stack` of vectors of different lengths

  /** All vectors have the length of the first. */
  predicate Uniform(vs: seq<Vector>)
  {
    forall j :: 0 <= j < |vs| ==> |vs[j]| == |vs[0]|
  }

  /** `torch.stack(vs, dim=1)`: sample `j` becomes column `j`. */
  function Stack(vs: seq<Vector>): (m: Matrix)
    requires |vs| > 0 && Uniform(vs)
    ensures IsMatrix(m, |vs[0]|, |vs|)
    ensures forall i, j {:trigger m[i][j]} :: 0 <= i < |vs[0]| && 0 <= j < |vs| ==> m[i][j] == vs[j][i]
  {
    seq(|vs[0]|, i requires 0 <= i < |vs[0]| => seq(|vs|, j requires 0 <= j < |vs| => vs[j][i]))
  }

  /**
   * Stacking the samples as columns is transposing the list of samples read
   * as a matrix with one sample per row.
   */
  lemma StackIsTransposed(vs: seq<Vector>)
    requires |vs| > 0 && Uniform(vs)
    ensures IsMatrix(vs, |vs|, |vs[0]|)
    ensures Stack(vs) == Transposed(vs, |vs[0]|)
  {
    var s, t := Stack(vs), Transposed(vs, |vs[0]|);
    forall i | 0 <= i < |vs[0]|
      ensures s[i] == t[i]
    {
    }
  }

  /**
   * The memory the Omega rule computes from its buffers: with `X` the stacked
   * keys (dim x N) and `Y` the stacked values (mem_size x N), it is
   * `Y X^T (X X^T + reg I)^-1` when `reg > 0` and `Y pinv(X)` otherwise.
   * The incoming memory plays no part.
   */
  function OmegaSolve(bufferX: seq<Vector>, bufferY: seq<Vector>, reg: real, lib: Numerics): (r: Result<Matrix, SolveError>)
    requires |bufferX| == |bufferY|
    requires Conforms(lib)
    ensures r == Err(EmptyWindow) <==> bufferX == []
    ensures r == Err(ShapeMismatch) <==> bufferX != [] && !(Uniform(bufferX) && Uniform(bufferY))
    ensures r.Ok? ==> IsMatrix(r.value, |bufferY[0]|, |bufferX[0]|)
  {
    if |bufferX| == 0 then Err(EmptyWindow)
    else if !Uniform(bufferX) || !Uniform(bufferY) then Err(ShapeMismatch)
    else
      var n, d := |bufferX|, |bufferX[0]|;
      var x := Stack(bufferX);
      var y := Stack(bufferY);
      var xT := Transposed(x, n);
      if reg > 0.0 then
        var gram := MatAdd(MatMul(x, xT, n, d), MatScale(reg, Identity(d), d, d), d, d);
        Ok(MatMul(MatMul(y, xT, n, d), lib.inverse(gram), d, d))
      else
        Ok(MatMul(y, lib.pinv(x, n), n, d))
  }

  /**
   * Two histories that end in the same `window` samples give the same result,
   * whatever came before them.
   */
  lemma OmegaForgets(hx: seq<Vector>, hy: seq<Vector>, gx: seq<Vector>, gy: seq<Vector>,
                     sx: seq<Vector>, sy: seq<Vector>, window: nat, reg: real, lib: Numerics)
    requires |sx| == |sy| >= window
    requires Conforms(lib)
    ensures OmegaSolve(LastN(hx + sx, window), LastN(hy + sy, window), reg, lib)
         == OmegaSolve(LastN(gx + sx, window), LastN(gy + sy, window), reg, lib)
  {
    WindowForgets(hx, sx, window);
    WindowForgets(hy, sy, window);
    WindowForgets(gx, sx, window);
    WindowForgets(gy, sy, window);
  }

  /**
   * The Omega updater: two `deque(maxlen=window)` buffers that every update
   * appends to in place. The ghost histories record every sample seen, so that
   * the invariant can say which samples the buffers hold.
   */
  class OmegaUpdater {
    const window: nat
    const reg: real
    const lib: Numerics
    var bufferX: seq<Vector>
    var bufferY: seq<Vector>
    ghost var keysSeen: seq<Vector>
    ghost var valuesSeen: seq<Vector>

    /** The buffers hold exactly the last `window` keys and values, oldest first. */
    ghost predicate Valid()
      reads this
    {
      && |keysSeen| == |valuesSeen|
      && bufferX == LastN(keysSeen, window)
      && bufferY == LastN(valuesSeen, window)
    }

    constructor (window: nat, reg: real, lib: Numerics)
      ensures Valid()
      ensures this.window == window && this.reg == reg && this.lib == lib
      ensures keysSeen == [] && valuesSeen == []
      ensures bufferX == [] && bufferY == []
    {
      this.window := window;
      this.reg := reg;
      this.lib := lib;
      bufferX := [];
      bufferY := [];
      keysSeen := [];
      valuesSeen := [];
    }

    /**
     * Appends the sample to both buffers, then solves for a fresh memory from
     * the buffers alone; `memory` is not read.
     */
    method Update(memory: Matrix, x: Vector, y: Vector) returns (r: Result<Matrix, SolveError>)
      requires Valid() && Conforms(lib)
      modifies this
      ensures Valid()
      ensures keysSeen == old(keysSeen) + [x] && valuesSeen == old(valuesSeen) + [y]
      ensures bufferX == DequeAppend(old(bufferX), x, window)
      ensures bufferY == DequeAppend(old(bufferY), y, window)
      ensures r == OmegaSolve(bufferX, bufferY, reg, lib)
    {
      WindowAppend(keysSeen, x, window);
      WindowAppend(valuesSeen, y, window);
      bufferX := DequeAppend(bufferX, x, window);
      bufferY := DequeAppend(bufferY, y, window);
      keysSeen := keysSeen + [x];
      valuesSeen := valuesSeen + [y];
      r := OmegaSolve(bufferX, bufferY, reg, lib);
    }
  }

  /** The buffers have equal length, never exceed the window, and fill up to it. */
  lemma BufferLengths(u: OmegaUpdater)
    requires u.Valid()
    ensures |u.bufferX| == |u.bufferY| <= u.window
    ensures |u.bufferX| == if |u.keysSeen| <= u.window then |u.keysSeen| else u.window
  {
  }
}
