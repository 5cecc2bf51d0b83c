# Associative-memory updaters, modelled in Dafny

This project models the core of a small research harness. The harness compares two online rules for updating an associative memory: a matrix that maps key vectors to value vectors. The modelled parts are:

- **The delta rule** (`src/updaters.py`, `DeltaUpdater.update`): one damped gradient step on the squared error of the memory's prediction, `memory - lr * (outer(memory @ x - y, x) + reg * memory)`. The updater only reads its two hyperparameters, so it is a Dafny datatype with a pure member function.
- **The Omega rule** (`src/updaters.py`, `OmegaUpdater`): a class with two `deque(maxlen=window)` buffers that every update appends to in place, evicting the oldest sample when full. Each update stacks the buffers into `X` (dim x N) and `Y` (mem_size x N). It then computes `Y X^T (X X^T + reg I)^-1` when `reg > 0` and `Y pinv(X)` otherwise. The incoming memory is never read.
- **The training loop** (`src/train.py`, `train_model`), an imperative method. It picks the updater by name and starts from a `mem_size x dim` zero memory. For every sample in order it:
  - scores the prediction of the current memory (squared error and a guarded cosine similarity);
  - adds the scores to running sums;
  - replaces the memory with the updater's result.

  At the end it divides the sums into means and takes the norm of the final memory.
- **The batch delta updater** (`src/models/delta_updater.py`): a class whose `dim x dim` memory tensor (an `array2<real>`) is updated in place by nested loops, pair after pair, with `memory += lr * outer(v - memory @ k, k)`.

Matrices are sequences of rows of `real`s (module `Matrices`). The tensor library's `inverse`, `pinverse` and `norm` are not defined. They are the fields of a `Numerics` value passed in as a parameter. The predicate `Conforms` says the solves return matrices of the right shapes, and `IsNorm` says `norm` is the Euclidean norm (non-negative, zero exactly on zero vectors, squaring to the sum of squares). Each method is proved against a function that specifies it:
- `Train.TrainModel` against `Train.Train`;
- `Train.RunSteps` against `Train.Run`;
- `Models.DeltaUpdater.Update` against `Models.Recall`.

The properties are proved about those functions.

Three behaviours of the code are worth stating, because a reader might expect otherwise:
- An Omega update with a window of 0 raises: `deque(maxlen=0)` keeps nothing and `torch.stack([])` raises. The model returns `EmptyWindow`, and `train_model` fails at its first step.
- The delta rule has no shape check (tensor broadcasting decides what mismatched shapes do), so the model requires matching shapes.
- `lr` is never checked: any learning rate, including a non-positive one, is accepted by the code and by the model.

## Model

| member | source | states |
|---|---|---|
| Updaters.DeltaUpdater.Update | src/updaters.py:18-23 | The step returns a matrix with the memory's shape (rows = `|y|`, columns = `|x|`). |
| Updaters.UpdateMatrixForm | src/updaters.py:18-23 | The step equals the tensor expression evaluated operation by operation: `memory - lr * (outer(memory @ x - y, x) + reg * memory)`. |
| Updaters.UpdateFixedPoint | src/updaters.py:19-23 | With `lr = 0`, or with `reg = 0` and `memory @ x == y`, the memory comes back unchanged. |
| Updaters.UpdateExample | src/updaters.py:18-23 | A 2x2 zero memory with `lr = 0.1`, `reg = 0`, `x = [1, 0]`, `y = [2, 0]` becomes `[[0.2, 0], [0, 0]]`. |
| Updaters.LastN | src/updaters.py:31-32 | The window over a history of length `n` holds `min(n, window)` samples. |
| Updaters.DequeAppend | src/updaters.py:42-43 | Appending to a bounded deque adds one element up to `maxlen`, then stays at `maxlen`; the new element is at the right end. |
| Updaters.WindowAppend | src/updaters.py:42-43 | Appending a sample to the window of a history gives the window of the longer history: the oldest sample is evicted first. |
| Updaters.WindowForgets | src/updaters.py:31-32 | Once the last `window` samples are fixed, the samples before them do not show in the window. |
| Updaters.Stack | src/updaters.py:45-46 | `torch.stack(buffer, dim=1)` is `len x N` with entry `(i, j)` equal to entry `i` of sample `j`. |
| Updaters.StackIsTransposed | src/updaters.py:45-46 | Stacking the samples on `dim=1` is the transpose of the list of samples read as a matrix with one sample per row. |
| Updaters.OmegaSolve | src/updaters.py:45-56 | The solve fails with `EmptyWindow` exactly when the buffers are empty. It fails with `ShapeMismatch` exactly when a buffer holds vectors of different lengths. Otherwise it yields a `mem_size x dim` memory. |
| Updaters.OmegaForgets | src/updaters.py:45-57 | Two histories that end in the same `window` samples give the same result, whatever came before. |
| Updaters.OmegaUpdater.constructor | src/updaters.py:27-32 | A new updater has empty buffers, has seen no samples, and keeps `window` and `reg`. |
| Updaters.OmegaUpdater.Update | src/updaters.py:34-57 | The buffers become `DequeAppend` of the old ones, and still hold exactly the last `window` samples seen. The result is the solve over the new buffers and does not depend on `memory`. |
| Updaters.BufferLengths | src/updaters.py:31-43 | The two buffers always have equal length, never exceed `window`, and after `n` updates hold `min(n, window)` samples. |
| Train.ParseKind | src/train.py:17-22 | Only the names `"Delta"` and `"Omega"` are accepted, each selecting its rule; every other name is rejected. |
| Train.NextMemory | src/train.py:43 | The memory the updater returns at step `i` keeps the `mem_size x dim` shape. |
| Train.Advance | src/train.py:28-43 | One loop iteration keeps the memory's shape and never decreases `total_mse`. |
| Train.Run | src/train.py:15-45 | After any number of steps from the zero memory, the memory is `mem_size x dim` and `total_mse >= 0`. |
| Train.NextMemoryPrefix | src/train.py:43 | The update of step `i` reads only the first `i + 1` samples: inputs that agree on them give the same memory. |
| Train.AdvancePrefix | src/train.py:28-43 | One iteration on sample `i` reads only the first `i + 1` samples. |
| Train.RunPrefix | src/train.py:27-43 | The samples are processed in index order: the loop variables after `i` steps are the same for any two inputs that agree on their first `i` keys and values. |
| Train.Train | src/train.py:6-51 | `train_model` succeeds exactly when the updater name is known, `steps > 0`, and an Omega window holds at least one sample. An unknown name gives `UnknownUpdater`. On success `mse_mean >= 0`. |
| Train.MseNonNegative | src/train.py:33 | Each per-step squared error is a mean of squares and so non-negative. |
| Train.NormOfZero | src/train.py:35 | The norm of the zero vector is 0. |
| Train.CosineZeroGuard | src/train.py:35-38 | The cosine term is exactly 0 when the prediction or the target is the zero vector. |
| Train.ZeroPredicts | src/train.py:15-31 | The zero memory predicts the zero vector for any key. |
| Train.MseOfZero | src/train.py:33 | Scored against a zero prediction, the error is the mean of the squared targets. |
| Train.FirstStep | src/train.py:15-40 | After the first sample, `total_mse` is the mean of `y[j]^2` of the first value and `total_cos` is 0. |
| Train.DeltaRunIsRecall | src/train.py:15-43 | With `reg = 0`, the loop's memory after `i` delta steps is the fold of the batch updater's pair step (`Models.Recall`) over the same `i` samples, starting from the `mem_size x dim` zero matrix. This is the class's memory when `mem_size = dim`. |
| Train.OmegaStep | src/train.py:43 | The Omega update at step `i` solves over the window of the first `i + 1` samples. It fails with `EmptyWindow` exactly when the window size is 0. |
| Train.UpdateMemory | src/train.py:43 | `updater.update` yields the next memory of the chosen rule, or `EmptyWindow` for an Omega window of 0. The Omega updater then has seen exactly the first `i + 1` samples. |
| Train.TrainStep | src/train.py:28-43 | One iteration scores the pre-update prediction, adds the scores and replaces the memory. Its result is `Advance` of the state, or the failure of the update. |
| Train.RunSteps | src/train.py:23-45 | The loop over all `steps` samples ends in the state `Run(steps)`, or fails on the first update of an Omega window of 0. |
| Train.TrainModel | src/train.py:6-51 | The method returns exactly what `Train` specifies, for every configuration and input. |
| Models.PairStep | src/models/delta_updater.py:25-28 | One pair step keeps the memory's shape. |
| Models.PairStepIsDelta | src/models/delta_updater.py:26-28 | One pair step equals `DeltaUpdater.update` of `src/updaters.py` with the same `lr` and `reg = 0`. |
| Models.PairFixedPoint | src/models/delta_updater.py:25-28 | A pair the memory already recalls exactly (`memory @ k == v`) leaves the memory unchanged. |
| Models.Recall | src/models/delta_updater.py:23-28 | After any number of pairs, the memory keeps its shape. |
| Models.RecallAppend | src/models/delta_updater.py:23-28 | Storing `a + b` has the effect of storing `a`, then `b`: the update is a left fold. |
| Models.RecallFixedPoint | src/models/delta_updater.py:23-28 | Pairs that the memory already recalls exactly all leave it unchanged. |
| Models.DeltaUpdater.constructor | src/models/delta_updater.py:4-13 | The memory is a fresh `dim x dim` zero tensor, and `mem_size`, `dim` and `lr` are stored. |
| Models.DeltaUpdater.Update | src/models/delta_updater.py:15-29 | The memory becomes the fold of the pair step over the pairs, each pair seeing the memory the earlier ones left. It stays `dim x dim`, the tensor itself is returned, and no pairs leave it unchanged. |
| Models.DeltaUpdater.Learn | src/models/delta_updater.py:25-28 | The in-place update of one pair leaves exactly the pair step of the previous contents. |
| Models.DeltaUpdater.AddToRow | src/models/delta_updater.py:28 | Row `i` gains `c * k` in place and every other entry stays. |

## Left out

- Wall-clock timing of the update (`src/train.py:42-45`) is not modelled, and `update_time` is not part of the modelled result.
- Sample generation (`src/data.py`, `src/datasets/synthetic_dataset.py`) and `torch.manual_seed` are not modelled. The keys and values are parameters of `train_model`.
- `torch.inverse`, `torch.pinverse` and `torch.norm` are parameters with only their shapes (`Conforms`) or norm laws (`IsNorm`) assumed. No property of the solved memory beyond its shape is claimed, in particular not that `reg = 0` with `dim` independent keys reconstructs the values exactly.
- `src/models/omega_updater.py` (a wrapper around `torch.linalg.lstsq`) and the attention reconstruction and metrics of `src/eval.py` are not part of this model.
- Floating-point rounding, NaN and infinity are not modelled: arithmetic is exact over `real`. In particular, `mem_size = 0` (a mean over an empty vector, NaN in the source) is excluded by requiring `mem_size > 0`.
- Train.Train: the cosine mean is not claimed to lie in `[-1, 1]`, because that needs the Cauchy-Schwarz inequality and the square root inside `norm`.
- Tensor broadcasting and runtime shape errors of the delta rules are not modelled: keys, values and memory are required to have matching lengths.
- A non-integer or non-numeric `window` is not modelled; `window` is an integer, and a negative one fails as `deque` does with `ValueError`.
- The experiment drivers, CSV output and plotting scripts are I/O and orchestration and are not part of this model.
