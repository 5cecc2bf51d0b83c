/**
 * The training loop of `src/train.py`: it picks an updater by name, starts
 * from a zero memory, and for every sample in order scores the prediction of
 * the current memory, then replaces the memory with the updater's result. The
 * per-step errors and cosine similarities are summed and divided into means.
 *
 * The synthetic samples are parameters (their generator is random), and the
 * tensor library's inverse, pseudo-inverse and norm are the fields of `lib`.
 */
module Train {
  import opened Results
  import opened Matrices
  import opened Updaters
  import Models

  datatype Kind = Delta | Omega

  /** The arguments of `train_model` except `seed`, which only seeds the sample generator. */
  datatype Config = Config(memSize: nat, dim: nat, window: int, steps: nat, lr: real, reg: real, updaterType: string)

  /** `(mse_mean, cos_mean, mem_norm_change)`; the update time is not modelled. */
  datatype Metrics = Metrics(mseMean: real, cosMean: real, memNorm: real)

  datatype TrainError =
    | UnknownUpdater           // ValueError("Unknown updater type")
    | NegativeWindow           // ValueError from deque(maxlen=window)
    | UpdateFailed(e: SolveError)  // torch.stack failing inside the Omega update
    | NoSteps                  // ZeroDivisionError in total_mse / steps

  /** The updater names `train_model` accepts. */
  function ParseKind(name: string): (k: Option<Kind>)
    ensures k == Some(Delta) <==> name == "Delta"
    ensures k == Some(Omega) <==> name == "Omega"
    ensures k == None <==> name != "Delta" && name != "Omega"
  {
    if name == "Delta" then Some(Delta) else if name == "Omega" then Some(Omega) else None
  }

  /**
   * The inputs of a run: `steps` generated keys of length `dim` and as many
   * values of length `mem_size`, a memory with at least one row, and a tensor
   * library whose solves have the right shapes.
   */
  ghost predicate Inputs(cfg: Config, keys: seq<Vector>, values: seq<Vector>, lib: Numerics)
  {
    && |keys| == |values| == cfg.steps
    && (forall t :: 0 <= t < |keys| ==> |keys[t]| == cfg.dim)
    && (forall t :: 0 <= t < |values| ==> |values[t]| == cfg.memSize)
    && cfg.memSize > 0
    && Conforms(lib)
  }

  /** `((y_pred - y) ** 2).mean()` */
  function Mse(pred: Vector, y: Vector): real
    requires |pred| == |y| > 0
  {
    SumSq(VecSub(pred, y)) / (|y| as real)
  }

  /** Cosine similarity, defined as 0 when either vector has norm 0. */
  function Cosine(pred: Vector, y: Vector, norm: Vector -> real): real
    requires |pred| == |y|
  {
    var np, ny := norm(pred), norm(y);
    if np > 0.0 && ny > 0.0 then
      PositiveProduct(np, ny);
      Dot(pred, y) / (np * ny)
    else 0.0
  }

  lemma PositiveProduct(a: real, b: real)
    requires a > 0.0 && b > 0.0
    ensures a * b > 0.0
  {
  }

  /** The updater may run `i` steps: an Omega window must hold at least one sample. */
  predicate CanStep(kind: Kind, cfg: Config, i: nat)
  {
    kind == Omega && i > 0 ==> cfg.window >= 1
  }

  /**
   * The memory `updater.update` returns at step `i` (the sample `i` being the
   * newest one seen): the delta rule steps from `memory`, the Omega rule solves
   * over the window of the first `i + 1` samples and ignores `memory`.
   */
  function NextMemory(kind: Kind, cfg: Config, keys: seq<Vector>, values: seq<Vector>, lib: Numerics,
                      memory: Matrix, i: nat): (m: Matrix)
    requires Inputs(cfg, keys, values, lib) && i < cfg.steps && CanStep(kind, cfg, i + 1)
    requires IsMatrix(memory, cfg.memSize, cfg.dim)
    ensures IsMatrix(m, cfg.memSize, cfg.dim)
  {
    match kind
    case Delta =>
      DeltaUpdater(cfg.lr, cfg.reg).Update(memory, keys[i], values[i])
    case Omega =>
      var w := cfg.window as nat;
      var bufX := LastN(keys[..i + 1], w);
      var bufY := LastN(values[..i + 1], w);
      assert Uniform(bufX) && bufX[0] == keys[i + 1 - |bufX|];
      assert Uniform(bufY) && bufY[0] == values[i + 1 - |bufY|];
      OmegaSolve(bufX, bufY, cfg.reg, lib).value
  }

  /** The loop variables `memory`, `total_mse` and `total_cos` of `train_model`. */
  datatype Progress = Progress(memory: Matrix, totalMse: real, totalCos: real)

  /**
   * The loop variables after sample `i` from those before it: the sample is
   * scored against the prediction of the memory before its own update, and
   * only then given to the updater.
   */
  function Advance(kind: Kind, cfg: Config, keys: seq<Vector>, values: seq<Vector>, lib: Numerics,
                   state: Progress, i: nat): (p: Progress)
    requires Inputs(cfg, keys, values, lib) && i < cfg.steps && CanStep(kind, cfg, i + 1)
    requires IsMatrix(state.memory, cfg.memSize, cfg.dim)
    ensures IsMatrix(p.memory, cfg.memSize, cfg.dim)
    ensures p.totalMse >= state.totalMse
  {
    var yPred := MatVec(state.memory, keys[i]);
    MseNonNegative(yPred, values[i]);
    Progress(NextMemory(kind, cfg, keys, values, lib, state.memory, i),
             state.totalMse + Mse(yPred, values[i]),
             state.totalCos + Cosine(yPred, values[i], lib.norm))
  }

  /**
   * The loop variables after the first `i` samples, from the zero memory. The
   * summed error never goes negative.
   */
  function Run(kind: Kind, cfg: Config, keys: seq<Vector>, values: seq<Vector>, lib: Numerics, i: nat): (p: Progress)
    requires Inputs(cfg, keys, values, lib) && i <= cfg.steps && CanStep(kind, cfg, i)
    ensures IsMatrix(p.memory, cfg.memSize, cfg.dim)
    ensures p.totalMse >= 0.0
    decreases i
  {
    if i == 0 then Progress(Zero(cfg.memSize, cfg.dim), 0.0, 0.0)
    else Advance(kind, cfg, keys, values, lib, Run(kind, cfg, keys, values, lib, i - 1), i - 1)
  }

  /** One more sample advances the loop variables by one step. */
  lemma RunNext(kind: Kind, cfg: Config, keys: seq<Vector>, values: seq<Vector>, lib: Numerics, i: nat)
    requires Inputs(cfg, keys, values, lib) && i < cfg.steps && CanStep(kind, cfg, i + 1)
    ensures Run(kind, cfg, keys, values, lib, i + 1)
         == Advance(kind, cfg, keys, values, lib, Run(kind, cfg, keys, values, lib, i), i)
  {
  }

  /** The update of step `i` reads only the first `i + 1` samples. */
  lemma NextMemoryPrefix(kind: Kind, cfg: Config, keys: seq<Vector>, values: seq<Vector>,
                         keys': seq<Vector>, values': seq<Vector>, lib: Numerics, memory: Matrix, i: nat)
    requires Inputs(cfg, keys, values, lib) && Inputs(cfg, keys', values', lib)
    requires i < cfg.steps && CanStep(kind, cfg, i + 1) && IsMatrix(memory, cfg.memSize, cfg.dim)
    requires keys[..i + 1] == keys'[..i + 1] && values[..i + 1] == values'[..i + 1]
    ensures NextMemory(kind, cfg, keys, values, lib, memory, i) == NextMemory(kind, cfg, keys', values', lib, memory, i)
  {
    assert keys[i] == keys[..i + 1][i] && keys'[i] == keys'[..i + 1][i];
    assert values[i] == values[..i + 1][i] && values'[i] == values'[..i + 1][i];
  }

  /** One iteration on sample `i` reads only the first `i + 1` samples. */
  lemma AdvancePrefix(kind: Kind, cfg: Config, keys: seq<Vector>, values: seq<Vector>,
                      keys': seq<Vector>, values': seq<Vector>, lib: Numerics, state: Progress, i: nat)
    requires Inputs(cfg, keys, values, lib) && Inputs(cfg, keys', values', lib)
    requires i < cfg.steps && CanStep(kind, cfg, i + 1) && IsMatrix(state.memory, cfg.memSize, cfg.dim)
    requires keys[..i + 1] == keys'[..i + 1] && values[..i + 1] == values'[..i + 1]
    ensures Advance(kind, cfg, keys, values, lib, state, i) == Advance(kind, cfg, keys', values', lib, state, i)
  {
    NextMemoryPrefix(kind, cfg, keys, values, keys', values', lib, state.memory, i);
    assert keys[i] == keys[..i + 1][i] && keys'[i] == keys'[..i + 1][i];
    assert values[i] == values[..i + 1][i] && values'[i] == values'[..i + 1][i];
  }

  /**
   * The samples are processed in index order and nothing later is looked
   * at early: the loop variables after `i` steps depend only on the first `i`
   * keys and values.
   */
  lemma {:induction false} RunPrefix(kind: Kind, cfg: Config, keys: seq<Vector>, values: seq<Vector>,
                                     keys': seq<Vector>, values': seq<Vector>, lib: Numerics, i: nat)
    requires Inputs(cfg, keys, values, lib) && Inputs(cfg, keys', values', lib)
    requires i <= cfg.steps && CanStep(kind, cfg, i)
    requires keys[..i] == keys'[..i] && values[..i] == values'[..i]
    ensures Run(kind, cfg, keys, values, lib, i) == Run(kind, cfg, keys', values', lib, i)
    decreases i
  {
    if i > 0 {
      assert keys[..i - 1] == keys[..i][..i - 1] && keys'[..i - 1] == keys'[..i][..i - 1];
      assert values[..i - 1] == values[..i][..i - 1] && values'[..i - 1] == values'[..i][..i - 1];
      RunPrefix(kind, cfg, keys, values, keys', values', lib, i - 1);
      var prev := Run(kind, cfg, keys, values, lib, i - 1);
      AdvancePrefix(kind, cfg, keys, values, keys', values', lib, prev, i - 1);
      RunNext(kind, cfg, keys, values, lib, i - 1);
      RunNext(kind, cfg, keys', values', lib, i - 1);
    }
  }

  /**
   * What `train_model` returns or raises, stated by cases: an unknown updater
   * name and a negative window fail first; an Omega window of size 0 makes the
   * first update fail; no steps at all make the final division fail.
   */
  function Train(cfg: Config, keys: seq<Vector>, values: seq<Vector>, lib: Numerics): (r: Result<Metrics, TrainError>)
    requires Inputs(cfg, keys, values, lib)
    ensures r.Ok? <==> ParseKind(cfg.updaterType).Some? && cfg.steps > 0
                       && (ParseKind(cfg.updaterType) == Some(Omega) ==> cfg.window >= 1)
    ensures ParseKind(cfg.updaterType) == None ==> r == Err(UnknownUpdater)
    ensures r.Ok? ==> r.value.mseMean >= 0.0
  {
    match ParseKind(cfg.updaterType)
    case None => Err(UnknownUpdater)
    case Some(kind) =>
      if kind == Omega && cfg.window < 0 then Err(NegativeWindow)
      else if kind == Omega && cfg.window == 0 && cfg.steps > 0 then Err(UpdateFailed(EmptyWindow))
      else if cfg.steps == 0 then Err(NoSteps)
      else
        var n := cfg.steps;
        var last := Run(kind, cfg, keys, values, lib, n);
        MeanNonNegative(last.totalMse, n);
        Ok(Metrics(last.totalMse / (n as real), last.totalCos / (n as real), lib.norm(Flatten(last.memory))))
  }

  // ---------------------------------------------------------------------------
  // Properties of the scores
  // ---------------------------------------------------------------------------

  /** Each per-step error is a mean of squares. */
  lemma MseNonNegative(pred: Vector, y: Vector)
    requires |pred| == |y| > 0
    ensures Mse(pred, y) >= 0.0
  {
    SumSqNonNegative(VecSub(pred, y));
  }

  lemma MeanNonNegative(total: real, n: nat)
    requires total >= 0.0 && n > 0
    ensures total / (n as real) >= 0.0
  {
  }

  /** Under a true norm, the zero vector has norm 0. */
  lemma NormOfZero(v: Vector, norm: Vector -> real)
    requires IsNorm(norm) && forall j :: 0 <= j < |v| ==> v[j] == 0.0
    ensures norm(v) == 0.0
  {
    DotZeroLeft(v, v);
  }

  /** The guard: when the prediction or the target is the zero vector, the cosine term is 0. */
  lemma CosineZeroGuard(pred: Vector, y: Vector, norm: Vector -> real)
    requires |pred| == |y| && IsNorm(norm)
    requires (forall j :: 0 <= j < |pred| ==> pred[j] == 0.0) || (forall j :: 0 <= j < |y| ==> y[j] == 0.0)
    ensures Cosine(pred, y, norm) == 0.0
  {
    if forall j :: 0 <= j < |pred| ==> pred[j] == 0.0 {
      NormOfZero(pred, norm);
    } else {
      NormOfZero(y, norm);
    }
  }

  /** The zero memory predicts the zero vector. */
  lemma ZeroPredicts(rows: nat, x: Vector)
    ensures var yPred := MatVec(Zero(rows, |x|), x);
            forall r :: 0 <= r < rows ==> yPred[r] == 0.0
  {
    var zero := Zero(rows, |x|);
    forall r | 0 <= r < rows
      ensures MatVec(zero, x)[r] == 0.0
    {
      DotZeroLeft(zero[r], x);
    }
  }

  /** Scored against the zero vector, the error is the mean of the squared targets. */
  lemma MseOfZero(pred: Vector, y: Vector)
    requires |pred| == |y| > 0 && forall j :: 0 <= j < |pred| ==> pred[j] == 0.0
    ensures Mse(pred, y) == SumSq(y) / (|y| as real)
  {
    var d := VecSub(pred, y);
    forall j | 0 <= j < |y|
      ensures Products(d, d)[j] == Products(y, y)[j]
    {
      assert d[j] == -y[j];
    }
    assert Products(d, d) == Products(y, y);
  }

  /**
   * The first sample meets the zero memory: its prediction is the zero vector,
   * so its cosine term is 0 and its error is the mean of the squared targets.
   */
  lemma FirstStep(kind: Kind, cfg: Config, keys: seq<Vector>, values: seq<Vector>, lib: Numerics)
    requires Inputs(cfg, keys, values, lib) && cfg.steps > 0 && CanStep(kind, cfg, 1) && IsNorm(lib.norm)
    ensures Run(kind, cfg, keys, values, lib, 1).totalMse == SumSq(values[0]) / (cfg.memSize as real)
    ensures Run(kind, cfg, keys, values, lib, 1).totalCos == 0.0
  {
    var yPred := MatVec(Zero(cfg.memSize, cfg.dim), keys[0]);
    ZeroPredicts(cfg.memSize, keys[0]);
    MseOfZero(yPred, values[0]);
    CosineZeroGuard(yPred, values[0], lib.norm);
    RunNext(kind, cfg, keys, values, lib, 0);
  }

  // ---------------------------------------------------------------------------
  // The delta rule of the loop against the batch updater of `src/models`
  // ---------------------------------------------------------------------------

  /** The samples of the first `i` steps, as (key, value) pairs. */
  function Samples(keys: seq<Vector>, values: seq<Vector>, i: nat): (ps: seq<Models.Pair>)
    requires i <= |keys| == |values|
    ensures |ps| == i && forall t {:trigger ps[t]} :: 0 <= t < i ==> ps[t] == (keys[t], values[t])
  {
    seq(i, t requires 0 <= t < i => (keys[t], values[t]))
  }

  /**
   * Without regularisation, the memory the loop's delta updater has built
   * after `i` steps is the memory the batch updater builds from the same `i`
   * samples, starting from zeros, in one call.
   */
  lemma {:induction false} DeltaRunIsRecall(cfg: Config, keys: seq<Vector>, values: seq<Vector>, lib: Numerics, i: nat)
    requires Inputs(cfg, keys, values, lib) && cfg.reg == 0.0 && i <= cfg.steps
    ensures Models.Fits(Zero(cfg.memSize, cfg.dim), Samples(keys, values, i))
    ensures Run(Delta, cfg, keys, values, lib, i).memory
         == Models.Recall(Zero(cfg.memSize, cfg.dim), Samples(keys, values, i), cfg.lr)
    decreases i
  {
    var zero := Zero(cfg.memSize, cfg.dim);
    assert Cols(zero) == cfg.dim;
    if i > 0 {
      DeltaRunIsRecall(cfg, keys, values, lib, i - 1);
      RunNext(Delta, cfg, keys, values, lib, i - 1);
      var prev := Run(Delta, cfg, keys, values, lib, i - 1).memory;
      Models.PairStepIsDelta(prev, keys[i - 1], values[i - 1], cfg.lr);
      assert Samples(keys, values, i)[..i - 1] == Samples(keys, values, i - 1);
    }
  }

  // ---------------------------------------------------------------------------
  // The updater object and one step of the loop
  // ---------------------------------------------------------------------------

  /** The updater object `train_model` builds: either rule answers `update(memory, x, y)`. */
  datatype Updater = DeltaRule(delta: DeltaUpdater) | OmegaRule(omega: OmegaUpdater)

  /** The objects an update may change. */
  function Footprint(u: Updater): set<object>
  {
    if u.OmegaRule? then {u.omega} else {}
  }

  /** `u` is the updater built for `kind` and `cfg` after it has seen the first `i` samples. */
  ghost predicate Tracks(u: Updater, kind: Kind, cfg: Config, keys: seq<Vector>, values: seq<Vector>, lib: Numerics, i: nat)
    reads Footprint(u)
    requires i <= |keys| && i <= |values|
  {
    match u
    case DeltaRule(d) => kind == Delta && d == DeltaUpdater(cfg.lr, cfg.reg)
    case OmegaRule(o) =>
      && kind == Omega && o.Valid()
      && o.window == cfg.window && o.reg == cfg.reg && o.lib == lib
      && o.keysSeen == keys[..i] && o.valuesSeen == values[..i]
  }

  lemma PrefixStep<T>(s: seq<T>, i: nat)
    requires i < |s|
    ensures s[..i + 1] == s[..i] + [s[i]]
  {
  }

  /**
   * The Omega update of step `i` sees the window over the first `i + 1`
   * samples: it fails when the window has size 0 and yields the next memory otherwise.
   */
  lemma OmegaStep(cfg: Config, keys: seq<Vector>, values: seq<Vector>, lib: Numerics, i: nat,
                  memory: Matrix, bufferX: seq<Vector>, bufferY: seq<Vector>)
    requires Inputs(cfg, keys, values, lib) && IsMatrix(memory, cfg.memSize, cfg.dim)
    requires i < cfg.steps && cfg.window >= 0
    requires bufferX == LastN(keys[..i + 1], cfg.window as nat)
    requires bufferY == LastN(values[..i + 1], cfg.window as nat)
    ensures OmegaSolve(bufferX, bufferY, cfg.reg, lib)
         == if cfg.window == 0 then Err(EmptyWindow)
            else Ok(NextMemory(Omega, cfg, keys, values, lib, memory, i))
  {
  }

  /**
   * `updater.update(memory, x, y)` for sample `i`: the delta rule yields the
   * next memory; the Omega rule records the sample in its window and fails
   * exactly when the window has size 0.
   */
  method UpdateMemory(u: Updater, memory: Matrix, x: Vector, y: Vector,
                      ghost kind: Kind, ghost cfg: Config, ghost keys: seq<Vector>, ghost values: seq<Vector>,
                      ghost lib: Numerics, ghost i: nat)
    returns (r: Result<Matrix, SolveError>)
    requires Inputs(cfg, keys, values, lib) && IsMatrix(memory, cfg.memSize, cfg.dim)
    requires i < cfg.steps && x == keys[i] && y == values[i]
    requires Tracks(u, kind, cfg, keys, values, lib, i)
    modifies Footprint(u)
    ensures Tracks(u, kind, cfg, keys, values, lib, i + 1)
    ensures r == if kind == Omega && cfg.window == 0 then Err(EmptyWindow)
                 else Ok(NextMemory(kind, cfg, keys, values, lib, memory, i))
  {
    match u
    case DeltaRule(d) =>
      r := Ok(d.Update(memory, x, y));
    case OmegaRule(o) =>
      r := o.Update(memory, x, y);
      PrefixStep(keys, i);
      PrefixStep(values, i);
      OmegaStep(cfg, keys, values, lib, i, memory, o.bufferX, o.bufferY);
  }

  /**
   * One iteration of the loop of `train_model` on sample `i`: score the
   * prediction of the current memory, add the scores to the sums, then update
   * the memory.
   */
  method TrainStep(u: Updater, state: Progress,
                   ghost kind: Kind, cfg: Config, keys: seq<Vector>, values: seq<Vector>, lib: Numerics, i: nat)
    returns (r: Result<Progress, SolveError>)
    requires Inputs(cfg, keys, values, lib) && i < cfg.steps && IsMatrix(state.memory, cfg.memSize, cfg.dim)
    requires Tracks(u, kind, cfg, keys, values, lib, i)
    modifies Footprint(u)
    ensures Tracks(u, kind, cfg, keys, values, lib, i + 1)
    ensures r == if kind == Omega && cfg.window == 0 then Err(EmptyWindow)
                 else Ok(Advance(kind, cfg, keys, values, lib, state, i))
  {
    var x, y := keys[i], values[i];
    var yPred := MatVec(state.memory, x);
    var mse := Mse(yPred, y);
    var cos := Cosine(yPred, y, lib.norm);
    var result := UpdateMemory(u, state.memory, x, y, kind, cfg, keys, values, lib, i);
    if result.Err? {
      return Err(result.error);
    }
    r := Ok(Progress(result.value, state.totalMse + mse, state.totalCos + cos));
  }

  /**
   * The loop of `train_model` over all samples, from the zero memory: it
   * returns the final loop variables, or the error of the first update that
   * failed.
   */
  method RunSteps(u: Updater, ghost kind: Kind, cfg: Config, keys: seq<Vector>, values: seq<Vector>, lib: Numerics)
    returns (r: Result<Progress, SolveError>)
    requires Inputs(cfg, keys, values, lib) && Tracks(u, kind, cfg, keys, values, lib, 0)
    modifies Footprint(u)
    ensures r == if kind == Omega && cfg.window == 0 && cfg.steps > 0 then Err(EmptyWindow)
                 else Ok(Run(kind, cfg, keys, values, lib, cfg.steps))
  {
    var state := Progress(Zero(cfg.memSize, cfg.dim), 0.0, 0.0);
    for i := 0 to cfg.steps
      invariant Tracks(u, kind, cfg, keys, values, lib, i) && CanStep(kind, cfg, i)
      invariant state == Run(kind, cfg, keys, values, lib, i)
    {
      var step := TrainStep(u, state, kind, cfg, keys, values, lib, i);
      if step.Err? {
        return Err(step.error);
      }
      RunNext(kind, cfg, keys, values, lib, i);
      state := step.value;
    }
    r := Ok(state);
  }

  /**
   * `train_model`: build the updater named by `cfg`, run the loop, and divide
   * the sums by the number of steps.
   */
  method TrainModel(cfg: Config, keys: seq<Vector>, values: seq<Vector>, lib: Numerics)
    returns (r: Result<Metrics, TrainError>)
    requires Inputs(cfg, keys, values, lib)
    ensures r == Train(cfg, keys, values, lib)
  {
    var kind := ParseKind(cfg.updaterType);
    var updater;
    match kind {
      case None =>
        return Err(UnknownUpdater);
      case Some(Delta) =>
        updater := DeltaRule(DeltaUpdater(cfg.lr, cfg.reg));
      case Some(Omega) =>
        if cfg.window < 0 {
          return Err(NegativeWindow);
        }
        var o := new OmegaUpdater(cfg.window as nat, cfg.reg, lib);
        updater := OmegaRule(o);
    }
    var run := RunSteps(updater, kind.value, cfg, keys, values, lib);
    if run.Err? {
      return Err(UpdateFailed(run.error));
    }
    var last := run.value;
    if cfg.steps == 0 {
      return Err(NoSteps);
    }
    var n := cfg.steps as real;
    r := Ok(Metrics(last.totalMse / n, last.totalCos / n, lib.norm(Flatten(last.memory))));
  }
}
