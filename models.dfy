/**
 * The batch delta-rule memory of `src/models/delta_updater.py`: a square
 * memory tensor that `update` changes in place, one (key, value) pair after
 * the other, each pair seeing the memory the previous ones left behind.
 */
module Models {
  import opened Matrices
  import Updaters

  /** A key and the value to store under it. */
  type Pair = (Vector, Vector)

  /** `memory` is a matrix, every key is as long as its rows and every value as long as its columns. */
  predicate Fits(memory: Matrix, pairs: seq<Pair>)
  {
    && IsMatrix(memory, |memory|, Cols(memory))
    && forall t :: 0 <= t < |pairs| ==> |pairs[t].0| == Cols(memory) && |pairs[t].1| == |memory|
  }

  /** One pair: `memory += lr * outer(v - memory @ k, k)`. */
  function PairStep(memory: Matrix, k: Vector, v: Vector, lr: real): (r: Matrix)
    requires IsMatrix(memory, |v|, |k|)
    ensures IsMatrix(r, |v|, |k|)
  {
    var error := VecSub(v, MatVec(memory, k));
    seq(|v|, i requires 0 <= i < |v| =>
      seq(|k|, j requires 0 <= j < |k| => memory[i][j] + lr * error[i] * k[j]))
  }

  /** Entry `(i, j)` grows by `lr` times the error of row `i` times `k[j]`. */
  lemma PairEntry(memory: Matrix, k: Vector, v: Vector, lr: real, i: nat, j: nat)
    requires IsMatrix(memory, |v|, |k|) && i < |v| && j < |k|
    ensures PairStep(memory, k, v, lr)[i][j] == memory[i][j] + lr * (v[i] - Dot(memory[i], k)) * k[j]
  {
  }

  /**
   * One pair step is the step of the single-sample delta updater with the
   * same learning rate and no regularisation: adding `lr * (v - pred)`
   * is subtracting `lr * (pred - v)`.
   */
  lemma PairStepIsDelta(memory: Matrix, k: Vector, v: Vector, lr: real)
    requires IsMatrix(memory, |v|, |k|)
    ensures PairStep(memory, k, v, lr) == Updaters.DeltaUpdater(lr, 0.0).Update(memory, k, v)
  {
    var u := Updaters.DeltaUpdater(lr, 0.0);
    var p, q := PairStep(memory, k, v, lr), u.Update(memory, k, v);
    forall i | 0 <= i < |v|
      ensures p[i] == q[i]
    {
      forall j | 0 <= j < |k|
        ensures p[i][j] == q[i][j]
      {
        var e := Dot(memory[i], k) - v[i];
        PairEntry(memory, k, v, lr, i, j);
        Updaters.UpdateEntry(u, memory, k, v, i, j);
        assert lr * (v[i] - Dot(memory[i], k)) * k[j] == -(lr * (e * k[j] + 0.0 * memory[i][j]));
      }
    }
  }

  /** A pair the memory already recalls exactly (`memory @ k == v`) leaves it unchanged. */
  lemma PairFixedPoint(memory: Matrix, k: Vector, v: Vector, lr: real)
    requires IsMatrix(memory, |v|, |k|) && MatVec(memory, k) == v
    ensures PairStep(memory, k, v, lr) == memory
  {
    var p := PairStep(memory, k, v, lr);
    forall i | 0 <= i < |v|
      ensures p[i] == memory[i]
    {
      forall j | 0 <= j < |k|
        ensures p[i][j] == memory[i][j]
      {
        PairEntry(memory, k, v, lr, i, j);
        assert v[i] - Dot(memory[i], k) == 0.0;
      }
    }
  }

  /** The memory after the pairs, in order: a left fold of `PairStep`. */
  function Recall(memory: Matrix, pairs: seq<Pair>, lr: real): (r: Matrix)
    requires Fits(memory, pairs)
    ensures IsMatrix(r, |memory|, Cols(memory)) && Fits(r, pairs)
    decreases |pairs|
  {
    if |pairs| == 0 then memory
    else
      var last := pairs[|pairs| - 1];
      var prev := Recall(memory, pairs[..|pairs| - 1], lr);
      var next := PairStep(prev, last.0, last.1, lr);
      assert |memory| > 0 ==> Cols(next) == Cols(memory);
      next
  }

  /** The pairs of `a + b` act as those of `a`, then those of `b`. */
  lemma {:induction false} RecallAppend(memory: Matrix, a: seq<Pair>, b: seq<Pair>, lr: real)
    requires Fits(memory, a + b)
    ensures Fits(memory, a) && Fits(Recall(memory, a, lr), b)
    ensures Recall(memory, a + b, lr) == Recall(Recall(memory, a, lr), b, lr)
    decreases |b|
  {
    assert forall t :: 0 <= t < |a| ==> a[t] == (a + b)[t];
    assert forall t :: 0 <= t < |b| ==> b[t] == (a + b)[|a| + t];
    if |b| > 0 {
      var b' := b[..|b| - 1];
      assert (a + b)[..|a + b| - 1] == a + b';
      RecallAppend(memory, a, b', lr);
    } else {
      assert a + b == a;
    }
  }

  /** Pairs the memory already recalls exactly all leave it unchanged. */
  lemma {:induction false} RecallFixedPoint(memory: Matrix, pairs: seq<Pair>, lr: real)
    requires Fits(memory, pairs)
    requires forall t :: 0 <= t < |pairs| ==> MatVec(memory, pairs[t].0) == pairs[t].1
    ensures Recall(memory, pairs, lr) == memory
    decreases |pairs|
  {
    if |pairs| > 0 {
      var last := pairs[|pairs| - 1];
      RecallFixedPoint(memory, pairs[..|pairs| - 1], lr);
      PairFixedPoint(memory, last.0, last.1, lr);
    }
  }

  /**
   * `DeltaUpdater` of `src/models/delta_updater.py`. The memory tensor is
   * created once and only ever changed in place; `mem_size` is stored but
   * plays no part.
   */
  class DeltaUpdater {
    const memSize: nat
    const dim: nat
    const lr: real
    const memory: array2<real>

    /** The memory is `dim` by `dim`. */
    ghost predicate Valid()
      reads this
    {
      memory.Length0 == dim && memory.Length1 == dim
    }

    /** The memory tensor as a matrix. */
    function Contents(): (m: Matrix)
      reads this, memory
      ensures IsMatrix(m, memory.Length0, memory.Length1)
      ensures forall i, j {:trigger m[i][j]} :: 0 <= i < memory.Length0 && 0 <= j < memory.Length1 ==> m[i][j] == memory[i, j]
    {
      seq(memory.Length0, i requires 0 <= i < memory.Length0 reads memory =>
        seq(memory.Length1, j requires 0 <= j < memory.Length1 reads memory => memory[i, j]))
    }

    /** A `dim` by `dim` zero memory. */
    constructor (memSize: nat, dim: nat, lr: real)
      ensures Valid() && fresh(memory)
      ensures this.memSize == memSize && this.dim == dim && this.lr == lr
      ensures Contents() == Zero(dim, dim)
    {
      this.memSize := memSize;
      this.dim := dim;
      this.lr := lr;
      memory := new real[dim, dim]((i, j) => 0.0);
      new;
      forall i | 0 <= i < dim
        ensures Contents()[i] == Zero(dim, dim)[i]
      {
      }
    }

    /**
     * Stores the pairs in order and returns the memory tensor itself (not a
     * copy); no pairs leave it as it was.
     */
    method Update(kvPairs: seq<Pair>) returns (r: array2<real>)
      requires Valid() && Fits(Contents(), kvPairs)
      modifies memory
      ensures Valid() && r == memory
      ensures Contents() == Recall(old(Contents()), kvPairs, lr)
      ensures kvPairs == [] ==> Contents() == old(Contents())
    {
      if |kvPairs| == 0 {
        return memory;
      }
      ghost var start := Contents();
      for t := 0 to |kvPairs|
        invariant Contents() == Recall(start, kvPairs[..t], lr)
      {
        var (k, v) := kvPairs[t];
        Learn(k, v);
        assert kvPairs[..t + 1][..t] == kvPairs[..t];
      }
      assert kvPairs[..|kvPairs|] == kvPairs;
      r := memory;
    }

    /** One pair, in place: `memory += lr * outer(v - memory @ k, k)`. */
    method Learn(k: Vector, v: Vector)
      requires Valid() && |k| == dim && |v| == dim
      modifies memory
      ensures Contents() == PairStep(old(Contents()), k, v, lr)
    {
      ghost var before := Contents();
      var error := VecSub(v, MatVec(Contents(), k));
      for i := 0 to dim
        invariant forall a, b {:trigger memory[a, b]} :: 0 <= a < dim && 0 <= b < dim ==>
          memory[a, b] == if a < i then before[a][b] + lr * error[a] * k[b] else before[a][b]
      {
        AddToRow(i, lr * error[i], k);
      }
      ghost var after := PairStep(before, k, v, lr);
      forall a | 0 <= a < dim
        ensures Contents()[a] == after[a]
      {
        forall b | 0 <= b < dim
          ensures Contents()[a][b] == after[a][b]
        {
          PairEntry(before, k, v, lr, a, b);
        }
      }
    }

    /** Row `i` gains `c * k`, in place; the other rows stay. */
    method AddToRow(i: nat, c: real, k: Vector)
      requires Valid() && i < dim && |k| == dim
      modifies memory
      ensures forall a, b :: 0 <= a < dim && 0 <= b < dim ==>
        memory[a, b] == if a == i then old(memory[a, b]) + c * k[b] else old(memory[a, b])
    {
      for j := 0 to dim
        invariant forall a, b :: 0 <= a < dim && 0 <= b < dim ==>
          memory[a, b] == if a == i && b < j then old(memory[a, b]) + c * k[b] else old(memory[a, b])
      {
        memory[i, j] := memory[i, j] + c * k[j];
      }
    }
  }
}
