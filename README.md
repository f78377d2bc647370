# NeuralNetwork layers and losses in Dafny

This project models the numeric core of the header-only C++ library
`lollerfirst/NeuralNetwork`. The core has three parts:

- the **Dense layer** (`include/dense.hpp`). It holds a flattened
  `DIM1*DIM2` weight buffer and a `DIM2` bias buffer. `apply` is the affine
  map `out[i] = bias[i] + Σ_j in[j]*W[i*DIM1+j]`. `update` first computes
  the upstream gradient from the weights as they are on entry. It then
  decrements every weight and every bias in place.
- the **Activation layer** (`include/activation.hpp`). It applies RELU,
  SOFTMAX or SIGMOID and caches the result of its last forward pass in
  `output`. Its backward pass reads that cache.
- the **loss functions** (`include/loss.hpp`). `calculate_loss` computes the
  mean squared, mean absolute and cross-entropy losses.
  `calculate_gradient_vector` computes their per-element gradients.

The files follow the source file by file:

- `dense.dfy` (module `DenseLayer`) and `activation.dfy` (module
  `ActivationLayer`) are imperative. Each layer is a `class` whose fields
  are `array<real>`. The forward and backward passes are methods with
  loops. Each method is proved against a specification function of the
  inputs and the old state (`Affine`, `UpstreamGradient`, `StepWeights`,
  `StepBias`, `Forward`, `Backward`). Lemmas about those functions state
  what the layer promises.
- `loss.dfy` (module `LossFunctions`) is pure. The `std::accumulate` folds
  are recursive functions, taken in index order. The gradients are
  sequence comprehensions.

Every value is a Dafny `real`. The exponential and the natural logarithm
are parameters of the forward pass and of the cross-entropy loss. The
exponential is typed `real -> Positive`. Nothing else is required of
either function.

The model reproduces two features of the code that differ from textbook
backpropagation:

- `update` reads the weights at `i*DIM2 + j` (include/dense.hpp:66), while
  `apply` lays them out at `i*DIM1 + j`. Textbook backpropagation would
  compute `Wᵀg` in `apply`'s layout, that is `Σ_j g[j]*W[j*DIM1 + i]`. The
  model follows the code.
  `UpstreamGradientIsTransposeForVectors` proves that the two readings agree
  when one dimension is 1. `UpstreamGradientDiffersFromTransposeWhenSquare`
  gives a 2 × 2 layer on which they differ.
- textbook backpropagation would use the layer's input in the weight step.
  The code uses the freshly computed upstream gradient
  (include/dense.hpp:73), and the model keeps it.

## Model

| member | source | states |
|---|---|---|
| DenseLayer.CellInRange | include/dense.hpp:45-50 | every index `row*width + col` with `row < rows` and `col < width` lies in `[0, rows*width)`, and a whole row starting at `row*width` fits in the buffer |
| DenseLayer.RowsFit | include/dense.hpp:63-66 | for each of the `rows` rows, the `width` reads starting at `row*width` stay inside the `width*rows` buffer. `update` reads `i*DIM2 + j` and `apply` reads `i*DIM1 + j` |
| DenseLayer.CellInjective | include/dense.hpp:71-74 | two `(row, col)` pairs with `col < width` that give the same index are equal, so no weight is written twice |
| DenseLayer.CellSurjective | include/dense.hpp:71-74 | every index `k < rows*width` is `(k / width)*width + k % width` for a pair inside the bounds, so no weight is skipped |
| DenseLayer.CellBijection | include/dense.hpp:71-74 | the pairs `(j, i)` with `j < DIM2` and `i < DIM1` map into the `DIM1*DIM2` weights without collisions |
| DenseLayer.OffsetIsProduct | include/dense.hpp:50 | the row offset counted one row at a time equals `row*width` |
| DenseLayer.StepWeightsAt | include/dense.hpp:71-75 | after the weight step, the weight at `j*DIM1 + i` is its old value minus `lr*g[j]*g_in[i]`, for every `i < DIM1` and `j < DIM2` |
| DenseLayer.RowDotAdditive | include/dense.hpp:49-50 | the inner accumulation is additive in the input vector |
| DenseLayer.AffineAdditive | include/dense.hpp:45-51 | `apply` is affine: `apply(x + y) + b = apply(x) + apply(y)` elementwise |
| DenseLayer.RowDotOfZero | include/dense.hpp:49-50 | the inner accumulation of a zero input is 0 |
| DenseLayer.AffineOfZeroIsBias | include/dense.hpp:45-51 | `apply` of the zero vector returns the bias vector |
| DenseLayer.RowDotIsColumnDotForSingleInput | include/dense.hpp:63-68 | with `DIM1 = 1`, the read at `i*DIM2 + j` equals the column read at `j*DIM1 + i` |
| DenseLayer.UpstreamGradientIsTransposeForVectors | include/dense.hpp:63-68 | when `DIM1 = 1` or `DIM2 = 1`, the upstream gradient equals the transposed product `Wᵀg` in `apply`'s layout |
| DenseLayer.UpstreamGradientDiffersFromTransposeWhenSquare | include/dense.hpp:63-68 | with `W = [1, 2, 3, 4]` and `g = [1, 0]` the layer returns `[1, 3]`, while element 1 of `Wᵀg` is 2 |
| DenseLayer.Dense.constructor | include/dense.hpp:18-24 | a layer built from exactly `DIM1*DIM2` weights and `DIM2` biases stores them in order in two fresh, distinct buffers |
| DenseLayer.Dense.Apply | include/dense.hpp:41-54 | returns `DIM2` values, each equal to `bias[i] + Σ_{j<DIM1} in[j]*W[i*DIM1+j]`. It has no `modifies` clause, so weights and biases are unchanged |
| DenseLayer.Dense.Update | include/dense.hpp:57-83 | returns `DIM1` values, each equal to `Σ_{j<DIM2} g[j]*W_old[i*DIM2+j]` over the weights on entry. The new weights are `StepWeights` of the old weights with that upstream gradient. The new biases are `bias_old[i] - lr*g[i]` |
| DenseLayer.Dense.ComputeUpstream | include/dense.hpp:62-68 | the first loop nest computes the upstream gradient from the current weights and changes nothing |
| DenseLayer.Dense.UpdateWeights | include/dense.hpp:70-75 | the second loop nest leaves the weights equal to `StepWeights` of their entry values |
| DenseLayer.Dense.StepColumn | include/dense.hpp:72-74 | one pass of the inner loop decrements the weights at `j*DIM1 + i` for every `j` and leaves the other columns alone |
| DenseLayer.Dense.UpdateBias | include/dense.hpp:77-80 | the third loop leaves `bias[i] = bias_old[i] - lr*g[i]` |
| ActivationLayer.ReluOf | include/activation.hpp:36-39 | each RELU output is `x` or 0, and it is at least both 0 and `x` |
| ActivationLayer.RunningMax | include/activation.hpp:44-47 | the running `std::max` from `in[0]` returns the maximum of the input |
| ActivationLayer.MaxPrefixIsMaximum | include/activation.hpp:44-47 | the running maximum is at least every element seen, and equals one of them |
| ActivationLayer.ShiftedIsNonPositive | include/activation.hpp:48-51 | every shifted value `in[i] - max_val` is at most 0, and at least one is exactly 0 |
| ActivationLayer.SumPositive | include/activation.hpp:53-58 | the sum of exponentials over a non-empty input is positive, so the SOFTMAX division is defined |
| ActivationLayer.SumOfQuotients | include/activation.hpp:61-64 | dividing each term by the sum divides the total by the sum |
| ActivationLayer.SoftmaxSumsToOne | include/activation.hpp:41-65 | the SOFTMAX outputs add up to 1 for every positive exponential |
| ActivationLayer.SigmoidInUnitInterval | include/activation.hpp:69-72 | every SIGMOID output `exp(x) / (1 + exp(x))` lies strictly between 0 and 1 |
| ActivationLayer.ReluGradAfterRelu | include/activation.hpp:83-89 | after a RELU forward pass, the backward pass passes `g[i]` exactly where `x[i] > 0` and gives 0 elsewhere |
| ActivationLayer.ReluGradBlockedByZeroCache | include/activation.hpp:83-89 | wherever the cache is 0 the RELU gradient is 0, so a zero-filled cache blocks the whole gradient |
| ActivationLayer.LogisticGradDamps | include/activation.hpp:90-96 | for a cache in `[0, 1]`, `out = g*y*(1-y)` never points against `g` and never exceeds a quarter of it: `0 ≤ out*g ≤ g²/4` |
| ActivationLayer.LogisticFactorOfSigmoid | include/activation.hpp:94 | for `y = e/(1+e)`, the factor `y*(1-y)` equals `e/(1+e)²`, the derivative of the sigmoid |
| ActivationLayer.Activation.constructor | include/activation.hpp:23 | the cache has `DIM` entries, all 0 |
| ActivationLayer.Activation.Apply | include/activation.hpp:30-76 | returns the mode's forward transform of the input, and the cache equals the returned vector afterwards |
| ActivationLayer.Activation.ApplyRelu | include/activation.hpp:34-40 | the RELU branch returns `max(0, in[i])` and caches it |
| ActivationLayer.Activation.ApplySoftmax | include/activation.hpp:41-65 | the SOFTMAX branch returns `exp(in[i] - max) / Σ_k exp(in[k] - max)` and caches it |
| ActivationLayer.Activation.Shift | include/activation.hpp:48-51 | the second SOFTMAX loop holds `in[i] - max_val` in a fresh buffer |
| ActivationLayer.Activation.ShiftAndExponentiate | include/activation.hpp:48-58 | the second and third SOFTMAX loops leave `exp(in[i] - max)` in the buffer and their sum in `sum` |
| ActivationLayer.Activation.ApplySigmoid | include/activation.hpp:66-73 | the SIGMOID branch returns `exp(in[i]) / (1 + exp(in[i]))` and caches it |
| ActivationLayer.Activation.Update | include/activation.hpp:78-99 | returns the RELU mask or `g*(y*(1-y))` of the cache. It has no `modifies` clause, so the cache is unchanged |
| LossFunctions.Sign | include/loss.hpp:47-50 | `sign` is in `{-1, 0, 1}`, is 0 exactly at 0, and is positive exactly for positive arguments |
| LossFunctions.SignTimesIsAbs | include/loss.hpp:47-50 | `sign(x)*x = |x|` |
| LossFunctions.SquaredSum | include/loss.hpp:82-88 | the fold of `(x - y)²` is never negative |
| LossFunctions.AbsSum | include/loss.hpp:97-103 | the fold of `|x - y|` is never negative |
| LossFunctions.MeanSquaredLoss | include/loss.hpp:78-91 | the mean squared loss is never negative |
| LossFunctions.MeanAbsoluteLoss | include/loss.hpp:93-106 | the mean absolute loss is never negative |
| LossFunctions.CalculateLoss | include/loss.hpp:73-124 | the loss needs equal-length vectors, and the two mean losses are never negative |
| LossFunctions.SquaredSumZeroIff | include/loss.hpp:82-88 | the squared fold is 0 exactly when the vectors agree on the prefix |
| LossFunctions.MeanSquaredLossZeroIff | include/loss.hpp:78-91 | the mean squared loss is 0 if and only if `x = y` |
| LossFunctions.AbsSumZeroIff | include/loss.hpp:97-103 | the absolute fold is 0 exactly when the vectors agree on the prefix |
| LossFunctions.MeanAbsoluteLossZeroIff | include/loss.hpp:93-106 | the mean absolute loss is 0 if and only if `x = y` |
| LossFunctions.GradientAt | include/loss.hpp:29-66 | the corrected gradient has `n` elements, and element `k` is the gradient of the pair `(x_k, y_k)` |
| LossFunctions.SquaredSumMove | include/loss.hpp:82-88 | moving `x_k` by `t` changes the squared fold by `2t(x_k - y_k) + t²` |
| LossFunctions.MeanSquaredGradientIsDerivative | include/loss.hpp:30-39 | moving `x_k` by `t` changes the mean squared loss by `t*g_k + t²/n`: `(2/n)(x_k - y_k)` is its exact derivative |
| LossFunctions.MeanSquaredGradientZeroIff | include/loss.hpp:30-39 | the mean squared gradient is all zeros if and only if `x = y` |
| LossFunctions.AbsSumMove | include/loss.hpp:97-103 | moving `x_k` by `t` changes the absolute fold by `|d + t| - |d|` |
| LossFunctions.AbsMoveOnOneSide | include/loss.hpp:47-53 | while `d` and `d + t` are on the same side of 0, `|d + t| - |d| = t*sign(d)` |
| LossFunctions.AbsSumMoveAway | include/loss.hpp:97-103 | while `x_k` stays on one side of `y_k`, the absolute fold moves by `t*sign(x_k - y_k)` |
| LossFunctions.MeanAbsoluteLossMoveAway | include/loss.hpp:93-106 | under the same condition, the mean absolute loss moves by `t*sign(x_k - y_k)/n` |
| LossFunctions.MeanAbsoluteGradientIsDerivative | include/loss.hpp:42-56 | away from the kink, `(1/n)*sign(x_k - y_k)` is the exact derivative of the mean absolute loss |
| LossFunctions.MeanAbsoluteGradientSign | include/loss.hpp:42-56 | each mean absolute gradient element has the sign of `x_k - y_k`, and its magnitude is `1/n` or 0 |
| LossFunctions.CrossEntropyGradientRecoversTarget | include/loss.hpp:58-67 | `x_k*g_k = -y_k`, so the gradient is never positive for a positive output and a non-negative target |
| LossFunctions.CrossSumOfBinaryTargets | include/loss.hpp:113-119 | for 0/1 targets, each term of the cross-entropy fold keeps only the logarithm of the true class |
| LossFunctions.CrossEntropyOfBinaryTargets | include/loss.hpp:109-122 | for 0/1 targets, the cross-entropy loss is minus the mean log-probability of the true class |
| LossFunctions.GradientAsWrittenIsEmpty | include/loss.hpp:25-70 | as written, the gradient is empty for every input. The corrected gradient has `n` elements, so the two differ on every non-empty input |
| LossFunctions.GradientAsWrittenOnTestVectors | include/loss.hpp:25-70 | on the loss test vectors the mean squared loss is 0.0775 and the mean absolute loss 0.225. The as-written gradients are empty, while the corrected ones are `[0.05, -0.25, 0.1, -0.05]` and `[0, -2, 0, -10/9]` |
| DenseLayer.DenseScenario | include/dense.hpp:41-83 | a 2-input, 1-output layer with weights `[1, 1]` and bias `[0]` maps `[1, 2]` to `[3]`. Then gradient `[1]` at rate 0.1 returns the upstream gradient `[1, 1]` and leaves weights `[0.9, 0.9]` and bias `[-0.1]` |
| ActivationLayer.ActivationScenario | include/activation.hpp:66-99 | with `exp(0) = 1`, SIGMOID maps `[0]` to `[0.5]`, and its backward pass of `[1]` is `[0.25]`. A RELU layer that has not run forward turns `[1, -2, 3]` into all zeros |
| LossFunctions.MeanSquaredScenario | include/loss.hpp:73-91 | `x = [1, 2]`, `y = [0, 0]` gives loss 2.5 and gradient `[1, 2]` |

## Left out

- `std::exp` and `std::log` are parameters. Only `exp(x) > 0` is used, by `SumPositive`, `SoftmaxSumsToOne` and `SigmoidInUnitInterval`. No property of `ln` is used.
- IEEE floating point (rounding, overflow, NaN and infinities) is left out. Every value is an exact `real`, and `TYPE` and its `static_cast`s are not modelled.
- The copy constructor of `Dense` (include/dense.hpp:30-32) takes arrays of exactly the right sizes and has the same effect as the initializer-list constructor, which is the one modelled. The move constructor (include/dense.hpp:26-28) calls `std::forward` without a template argument, which does not compile, so it has no behaviour to model.
- DenseLayer.Dense.constructor: the runtime `assert` on the initializer-list sizes (include/dense.hpp:21) is a precondition rather than an abort.
- The `static_assert` on vector sizes in include/loss.hpp:23 and include/loss.hpp:76 would not compile on runtime sizes. It is a precondition `|x| == |y|`.
- The loss divisor `DIM` is not declared in include/loss.hpp:90, 105 and 121. The model divides by the vector length `n = |x|` and requires `n > 0`.
- ActivationLayer.Activation.Apply: SOFTMAX reads `in_vector[0]`, so this mode requires a non-empty input. The other modes accept any `DIM`.
- LossFunctions.MeanAbsoluteGradientIsDerivative: states the derivative only for moves that keep `x_k` on one side of `y_k`, because `|·|` has no derivative at the kink.
- Cross-entropy at `x_i = 0` is left out: the gradient requires every `x_i ≠ 0`, where the source would produce non-finite values.
- include/neuralnet.hpp is not part of this model: its `train` body is an empty TODO.
- include/tensor.hpp, include/component.hpp and the `src/test_*.cpp` test programs are not part of this model. Their literal vectors appear only as example inputs.
- Template parameters (`DIM1`, `DIM2`, `DIM`, the activation and loss kinds) are runtime fields or arguments, not compile-time constants.

## Findings

| source | as written | input that shows it | evidently intended | confidence | as-written member | corrected member |
|---|---|---|---|---|---|---|
| include/loss.hpp:25-70 | `out_gradient.reserve(n)` leaves the vector with size 0, so each `std::for_each(out_gradient.begin(), out_gradient.end(), …)` visits no element and the function returns an empty vector | `x = [0.1, 0.5, 0.2, 0.9]`, `y = [0, 1, 0, 1]` (the loss test program) returns `[]` | a vector of `n` elements, element `i` being the gradient of `(x_i, y_i)` (`resize` or `assign` instead of `reserve`) | not executed | LossFunctions.GradientAsWrittenOnTestVectors | LossFunctions.Gradient |
