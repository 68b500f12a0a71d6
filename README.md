# Optimizers and softmax cross-entropy loss of a BP/DFA training engine

This project models two parts of a small neural-network training engine that compares
backpropagation (BP) with direct feedback alignment (DFA). Both parts are stated over Dafny's
`real`, and the model proves their properties.

- **Parameter-update optimizers** (`network/optimizer.py`). `GDOptimizer` applies
  `W -= lr·dW` and `b -= lr·db` in place to a layer. `GDMomentumOptimizer` keeps the velocity
  pair `(v_dW, v_db)` in the layer's key-value parameter store under the key `"mv"`. It creates
  that pair as zeros on first use, sets `v = mu·v - lr·grad`, adds `v` to `W` and `b` in place,
  and stores `v` back. Both optimizers have `decay_learning_rate(f)`, which does `lr *= f`.
  The layer class is not part of this model. Only the part the optimizers touch is modelled, as
  `Optimizer.Layer`: `const` array fields `W` (`array2<real>`) and `b` (`array<real>`), and a map
  `params` reached through `HasParam`, `GetParam` and `SetParam`.
- **Softmax cross-entropy loss** (`network/loss.py`). `calculate(x, y)` takes an N×C logit
  matrix and N labels. It returns the mean of `-log p[i, y_i]` over the softmax probabilities
  `p`. It also returns the gradient: `delta = p`, then `delta[i, y_i] -= 1`, then `delta /= n`,
  all in place. The softmax and the scalar loss are functions over `seq<seq<real>>`. The
  gradient is built in a fresh `array2<real>` by loops.

numpy's `exp` and `log` appear as parameters `exp, log: real -> real`. The model uses only two
facts about them: `IsPositive(exp)` (every `exp(t) > 0`) and `NonPositiveOnUnit(log)` (`log(p) <= 0`
for `0 < p <= 1`). Every result holds for any pair of functions with those properties.

Layout: `tensors.dfy` (module `Tensors`: vectors and matrices as values, the view `Rows` of a
2-D array, sums and their lemmas), `optimizer.dfy` (module `Optimizer`), `loss.dfy` (module
`Loss`).

Where the design description and the code disagree, the model follows the code:
- The design says two zero-gradient momentum updates leave `W` and `b` unchanged. In the code
  that holds only while the stored velocity is zero. With a non-zero velocity `v`, a
  zero-gradient update still adds `mu·v` to `W`. The model proves the general rule
  (`ZeroGradientScalesVelocity`, `ZeroGradientVelocityIsGeometric`). It proves "unchanged" only
  from a layer with no stored velocity (`RestIsFixedPoint`, `ZeroGradientUpdates`).
- The design calls the decay factor "a shrinking factor ≤ 1". The code accepts any factor, and so
  does the model.

## Model

| member | source | states |
|---|---|---|
| `Optimizer.GDOptimizer.constructor` | network/optimizer.py:15-16 | the learning rate is the one given (default 0.001) |
| `Optimizer.GDOptimizer.Update` | network/optimizer.py:18-23 | every `W[i,j]` becomes `old W[i,j] - lr·old dW[i,j]` and every `b[j]` becomes `old b[j] - lr·old db[j]`, as the value-level step `GDStep`/`GDStepVec`; the gradients may alias the layer's arrays; only `W` and `b` change; the same layer is returned |
| `Optimizer.GDOptimizer.DecayLearningRate` | network/optimizer.py:25-26 | `lr` becomes `old lr · factor`; nothing else changes |
| `Optimizer.GDMomentumOptimizer.constructor` | network/optimizer.py:30-32 | `lr` and `mu` are the ones given (defaults 0.001 and 0.9) |
| `Optimizer.GDMomentumOptimizer.Update` | network/optimizer.py:34-49 | the stored `"mv"` entry becomes `NextVelocity(mu, lr, prior, dW, db)`, where prior is the stored pair or zeros on first use; `W` and `b` become old values plus the new velocities element-wise; every other key of the store is unchanged and `"mv"` is present afterwards with the shapes of `W` and `b`; `lr` and `mu` do not change; the same layer is returned |
| `Optimizer.GDMomentumOptimizer.DecayLearningRate` | network/optimizer.py:51-52 | `lr` becomes `old lr · factor`; `mu` does not change |
| `Optimizer.Layer.SetParam` | network/optimizer.py:37 | `set_param(key, value)` maps `key` to `value` and leaves every other key as it was |
| `Optimizer.AddInPlace` | network/optimizer.py:44 | `W += v` in place: each entry becomes its old value plus the matching entry of `v` |
| `Optimizer.AddVecInPlace` | network/optimizer.py:45 | `b += v` in place: each entry becomes its old value plus the matching entry of `v` |
| `Optimizer.DecayedIsGeometric` | network/optimizer.py:25-26 | k successive decays by `f` give `lr0 · f^k` |
| `Optimizer.DecayGDRepeatedly` | network/optimizer.py:25-26 | k calls of `GDOptimizer.DecayLearningRate(f)` leave `lr = old lr · f^k` |
| `Optimizer.DecayMomentumRepeatedly` | network/optimizer.py:51-52 | k calls of `GDMomentumOptimizer.DecayLearningRate(f)` leave `lr = old lr · f^k` and `mu` unchanged |
| `Optimizer.GDZeroGradientIsIdentity` | network/optimizer.py:20-21 | a gradient-descent step with all-zero `dW` and `db` returns `W` and `b` unchanged |
| `Optimizer.MomentumFromRestIsGD` | network/optimizer.py:36-45 | starting from the zero velocities created on first use, `W + v_dW` and `b + v_db` equal the plain gradient-descent step, and the new velocities have the gradients' shapes |
| `Optimizer.ZeroGradientScalesVelocity` | network/optimizer.py:41-42 | with zero gradients the new velocity is exactly `mu` times the old one |
| `Optimizer.ZeroGradientVelocityIsGeometric` | network/optimizer.py:39-47 | after k zero-gradient updates the stored velocity is `mu^k` times the initial one |
| `Optimizer.RestIsFixedPoint` | network/optimizer.py:36-45 | zero velocities with zero gradients stay zero, and adding them leaves `W` and `b` unchanged |
| `Optimizer.ZeroGradientUpdates` | network/optimizer.py:34-49 | from a layer with no `"mv"` entry, k zero-gradient momentum updates leave `W` and `b` unchanged and, if k > 0, store zero velocities under `"mv"` |
| `Loss.ExpsPositive` | network/loss.py:20 | every entry of `np.exp(row)` is positive, and so is the row sum |
| `Loss.SoftmaxRowSumsToOne` | network/loss.py:20-21 | each row of `probs = exp / rowsum(exp)` sums to 1 |
| `Loss.SoftmaxInUnitInterval` | network/loss.py:20-21 | every entry of `probs` lies in (0, 1] |
| `Loss.CrossEntropyNonNegative` | network/loss.py:22-23 | the loss, the mean over the batch of `-log probs[i][y[i]]`, is non-negative |
| `Loss.GradientRowSumsToZero` | network/loss.py:21-26 | each row of the gradient `(probs[i][j] - [j == y[i]]) / n` sums to 0 |
| `Loss.GradientSigns` | network/loss.py:21-26 | the gradient is ≤ 0 at the label's column and > 0 at every other column |
| `Loss.Calculate` | network/loss.py:10-27 | for n ≥ 1 and labels in [0, C), returns the mean negative log-probability and an N×C array distinct from `x` with `delta[i,j] = (probs[i][j] - [j == y[i]]) / n`; each row of `delta` sums to 0, and the loss is ≥ 0 when `log` is non-positive on (0, 1]; `x` is only read, so the same `(x, y)` always gives the same result |
| `Loss.GradientArray` | network/loss.py:24-26 | the in-place sequence `delta = probs`, `delta[range(n), y] -= 1`, `delta /= n` produces a fresh array equal to the closed-form gradient |
| `Loss.SubtractAtLabels` | network/loss.py:25 | `delta[range(n), y] -= 1` lowers exactly one entry per row, the label's, by 1, and leaves the others |
| `Loss.DivideInPlace` | network/loss.py:26 | `delta /= n` divides every entry by `n` |

## Left out

- The abstract base classes `Optimizer` (network/optimizer.py:6-11) and `Loss` (network/loss.py:4-6) have `pass` bodies and no behaviour. The two optimizers are modelled as separate classes, and `SoftmaxCrossEntropyLoss.calculate`, which keeps no state, as the method `Loss.Calculate`.
- The layer class (network/layer.py) is not part of this model: its forward and backward passes, its activation, and the DFA feedback matrix. The model has only `W`, `b` and the parameter store. In the model the store holds velocity pairs only. The source's store accepts values of any type.
- Model.train, the BP and DFA backward passes, L2 regularization, decay scheduling by epoch, validation, timing and console output are not part of this model. Their source is not part of it either.
- Floating point is not modelled. There is no rounding, no overflow of `np.exp` for large logits, and no NaN. `exp` and `log` are abstract parameters with the two properties above. No stabilisation by the row maximum is modelled, because the source does none.
- The clamping and the debug print at network/loss.py:13-18 are commented out. They are dead code.
- Optimizer.GDOptimizer.Update: requires `dW` and `db` to have the shapes of `W` and `b`. For other shapes numpy would broadcast or raise an error.
- Optimizer.GDMomentumOptimizer.Update: requires the same gradient shapes, and requires that a stored `"mv"` pair already has the shapes of `W` and `b`. Only this optimizer writes that key, and the update keeps the condition true.
- Loss.Calculate: requires n ≥ 1. With an empty batch numpy makes the loss NaN (0/0), which has no counterpart in `real`. The design treats an invalid batch size as a configuration error caught before training.
- Loss.Calculate: requires every label to be in [0, C). numpy would also accept negative labels down to -C, counting them from the last column, and would raise an IndexError for labels beyond that. The design declares labels to be in [0, C).
