/** The loss functions: the mean squared, mean absolute and cross-entropy
    losses of a produced vector x against a target y, and the per-element
    gradient of each with respect to x.

    The divisor of the means is the vector length n = |x|. The natural
    logarithm is not part of the model's arithmetic: the cross-entropy loss
    takes it as a parameter `ln`. */
module LossFunctions {

  datatype LossType = MeanSquared | MeanAbsolute | CrossEntropy

  function Abs(x: real): real {
    if x < 0.0 then -x else x
  }

  /** The `sign` helper of the mean absolute gradient: 0 at 0, otherwise ±1
      with the sign of x. */
  function Sign(x: real): (s: real)
    ensures s == 0.0 || s == 1.0 || s == -1.0
    ensures s == 0.0 <==> x == 0.0
    ensures s > 0.0 <==> x > 0.0
  {
    if x == 0.0 then 0.0 else if x > 0.0 then 1.0 else -1.0
  }

  /** sign(x)·x = |x|. */
  lemma SignTimesIsAbs(x: real)
    ensures Sign(x) * x == Abs(x)
  {
  }

  /** The product a·b, kept behind a name so that facts about squares are
      stated once, in the lemmas below, rather than rediscovered by the
      solver at every use. */
  function Mul(a: real, b: real): real {
    a * b
  }

  /** std::pow(d, 2). */
  function Square(d: real): real {
    Mul(d, d)
  }

  lemma MulOfPositives(a: real, b: real)
    requires a > 0.0 && b > 0.0
    ensures Mul(a, b) > 0.0
  {
  }

  lemma MulOfNegatives(a: real, b: real)
    requires a < 0.0 && b < 0.0
    ensures Mul(a, b) > 0.0
  {
  }

  /** A square is positive away from 0. */
  lemma SquarePositive(d: real)
    requires d != 0.0
    ensures Square(d) > 0.0
  {
    if d > 0.0 {
      MulOfPositives(d, d);
    } else {
      MulOfNegatives(d, d);
    }
  }

  /** A square is never negative, and it is 0 only at 0. */
  lemma SquareNonNegative(d: real)
    ensures Square(d) >= 0.0
    ensures Square(d) == 0.0 ==> d == 0.0
  {
    if d != 0.0 {
      SquarePositive(d);
    }
  }

  /** (d + t)² = d² + 2td + t². */
  lemma SquareOfSum(d: real, t: real)
    ensures Square(d + t) == Square(d) + 2.0 * t * d + Square(t)
  {
  }

  /** Σ_{i<n} (x[i] - y[i])², accumulated in index order as the
      std::accumulate fold does. A sum of squares is never negative. */
  function SquaredSum(x: seq<real>, y: seq<real>, n: nat): (r: real)
    requires n <= |x| && n <= |y|
    ensures r >= 0.0
  {
    if n == 0 then 0.0
    else
      SquareNonNegative(x[n - 1] - y[n - 1]);
      SquaredSum(x, y, n - 1) + Square(x[n - 1] - y[n - 1])
  }

  /** Σ_{i<n} |x[i] - y[i]|, accumulated in index order. */
  function AbsSum(x: seq<real>, y: seq<real>, n: nat): (r: real)
    requires n <= |x| && n <= |y|
    ensures r >= 0.0
  {
    if n == 0 then 0.0 else AbsSum(x, y, n - 1) + Abs(x[n - 1] - y[n - 1])
  }

  /** Σ_{i<n} (y[i]·ln(x[i]) + (1 - y[i])·ln(1 - x[i])), accumulated in
      index order. */
  function CrossSum(x: seq<real>, y: seq<real>, n: nat, ln: real -> real): real
    requires n <= |x| && n <= |y|
  {
    if n == 0 then 0.0
    else CrossSum(x, y, n - 1, ln) + y[n - 1] * ln(x[n - 1]) + (1.0 - y[n - 1]) * ln(1.0 - x[n - 1])
  }

  /** The mean squared loss (Σ (x_i - y_i)²) / n; it is never negative. */
  function MeanSquaredLoss(x: seq<real>, y: seq<real>): (r: real)
    requires |x| == |y| && |x| > 0
    ensures r >= 0.0
  {
    SquaredSum(x, y, |x|) / (|x| as real)
  }

  /** The mean absolute loss (Σ |x_i - y_i|) / n; it is never negative. */
  function MeanAbsoluteLoss(x: seq<real>, y: seq<real>): (r: real)
    requires |x| == |y| && |x| > 0
    ensures r >= 0.0
  {
    AbsSum(x, y, |x|) / (|x| as real)
  }

  /** The cross-entropy loss -(Σ (y_i·ln x_i + (1 - y_i)·ln(1 - x_i))) / n. */
  function CrossEntropyLoss(x: seq<real>, y: seq<real>, ln: real -> real): real
    requires |x| == |y| && |x| > 0
  {
    -1.0 * CrossSum(x, y, |x|, ln) / (|x| as real)
  }

  /** `calculate_loss`: both vectors must have the same length. The two mean
      losses are never negative. */
  function CalculateLoss(kind: LossType, x: seq<real>, y: seq<real>, ln: real -> real): (r: real)
    requires |x| == |y| && |x| > 0
    ensures kind != CrossEntropy ==> r >= 0.0
  {
    match kind
    case MeanSquared => MeanSquaredLoss(x, y)
    case MeanAbsolute => MeanAbsoluteLoss(x, y)
    case CrossEntropy => CrossEntropyLoss(x, y, ln)
  }

  /** One element of the gradient for the pair (xi, yi) of an n-vector:
      (2/n)(xi - yi), (1/n)·sign(xi - yi) or -(yi / xi). */
  function ElementGradient(kind: LossType, xi: real, yi: real, n: nat): real
    requires n > 0
    requires kind == CrossEntropy ==> xi != 0.0
  {
    match kind
    case MeanSquared => (2.0 / (n as real)) * (xi - yi)
    case MeanAbsolute => (1.0 / (n as real)) * Sign(xi - yi)
    case CrossEntropy => -1.0 * (yi / xi)
  }

  /** The std::for_each over the elements of the result vector `cells`:
      element i is overwritten with the gradient for (x[i], y[i]). */
  function FillGradient(cells: seq<real>, kind: LossType, x: seq<real>, y: seq<real>): seq<real>
    requires |x| == |y| && |cells| <= |x|
    requires kind == CrossEntropy ==> forall i :: 0 <= i < |cells| ==> x[i] != 0.0
  {
    seq(|cells|, i requires 0 <= i < |cells| => ElementGradient(kind, x[i], y[i], |x|))
  }

  /** `calculate_gradient_vector` as written: the result vector only has
      capacity reserved, so it holds no element and the for_each visits
      none. */
  function GradientAsWritten(kind: LossType, x: seq<real>, y: seq<real>): seq<real>
    requires |x| == |y|
  {
    FillGradient([], kind, x, y)
  }

  /** `calculate_gradient_vector` as intended: a result vector of n elements,
      each overwritten by the for_each. Cross-entropy divides by every x_i. */
  function Gradient(kind: LossType, x: seq<real>, y: seq<real>): seq<real>
    requires |x| == |y|
    requires kind == CrossEntropy ==> forall i :: 0 <= i < |x| ==> x[i] != 0.0
  {
    FillGradient(seq(|x|, i => 0.0), kind, x, y)
  }

  /** Element k of the gradient is the gradient of the pair (x_k, y_k). */
  lemma GradientAt(kind: LossType, x: seq<real>, y: seq<real>, k: nat)
    requires |x| == |y| && k < |x|
    requires kind == CrossEntropy ==> forall i :: 0 <= i < |x| ==> x[i] != 0.0
    ensures |Gradient(kind, x, y)| == |x|
    ensures Gradient(kind, x, y)[k] == ElementGradient(kind, x[k], y[k], |x|)
  {
  }

  /** As written the gradient is empty for every input, so it is never the
      n-element gradient of a non-empty input. */
  lemma GradientAsWrittenIsEmpty(kind: LossType, x: seq<real>, y: seq<real>)
    requires |x| == |y|
    requires kind == CrossEntropy ==> forall i :: 0 <= i < |x| ==> x[i] != 0.0
    ensures GradientAsWritten(kind, x, y) == []
    ensures |Gradient(kind, x, y)| == |x|
    ensures |x| > 0 ==> GradientAsWritten(kind, x, y) != Gradient(kind, x, y)
  {
  }

  /** The vectors of the loss test program, x = [0.1, 0.5, 0.2, 0.9] and
      y = [0, 1, 0, 1]: the mean squared loss is 0.31 / 4 and the mean
      absolute loss 0.9 / 4; the gradients should be
      [0.05, -0.25, 0.1, -0.05] (mean squared) and [0, -2, 0, -10/9]
      (cross-entropy), but as written they are empty. */
  lemma GradientAsWrittenOnTestVectors()
    ensures MeanSquaredLoss([0.1, 0.5, 0.2, 0.9], [0.0, 1.0, 0.0, 1.0]) == 0.0775
    ensures MeanAbsoluteLoss([0.1, 0.5, 0.2, 0.9], [0.0, 1.0, 0.0, 1.0]) == 0.225
    ensures GradientAsWritten(MeanSquared, [0.1, 0.5, 0.2, 0.9], [0.0, 1.0, 0.0, 1.0]) == []
    ensures Gradient(MeanSquared, [0.1, 0.5, 0.2, 0.9], [0.0, 1.0, 0.0, 1.0]) == [0.05, -0.25, 0.1, -0.05]
    ensures GradientAsWritten(CrossEntropy, [0.1, 0.5, 0.2, 0.9], [0.0, 1.0, 0.0, 1.0]) == []
    ensures Gradient(CrossEntropy, [0.1, 0.5, 0.2, 0.9], [0.0, 1.0, 0.0, 1.0]) == [0.0, -2.0, 0.0, -10.0 / 9.0]
  {
    var x, y := [0.1, 0.5, 0.2, 0.9], [0.0, 1.0, 0.0, 1.0];
    assert SquaredSum(x, y, 4) == 0.31;
    assert AbsSum(x, y, 4) == 0.9;
  }

  /** The squared sum is 0 exactly when the prefixes agree. */
  lemma {:induction false} SquaredSumZeroIff(x: seq<real>, y: seq<real>, n: nat)
    requires n <= |x| && n <= |y|
    ensures SquaredSum(x, y, n) == 0.0 <==> forall i :: 0 <= i < n ==> x[i] == y[i]
  {
    if n > 0 {
      SquaredSumZeroIff(x, y, n - 1);
      SquareNonNegative(x[n - 1] - y[n - 1]);
    }
  }

  /** The mean squared loss is 0 exactly when the produced vector equals the
      target. */
  lemma MeanSquaredLossZeroIff(x: seq<real>, y: seq<real>)
    requires |x| == |y| && |x| > 0
    ensures MeanSquaredLoss(x, y) == 0.0 <==> x == y
  {
    SquaredSumZeroIff(x, y, |x|);
  }

  /** The absolute sum is 0 exactly when the prefixes agree. */
  lemma {:induction false} AbsSumZeroIff(x: seq<real>, y: seq<real>, n: nat)
    requires n <= |x| && n <= |y|
    ensures AbsSum(x, y, n) == 0.0 <==> forall i :: 0 <= i < n ==> x[i] == y[i]
  {
    if n > 0 {
      AbsSumZeroIff(x, y, n - 1);
    }
  }

  /** The mean absolute loss is 0 exactly when the produced vector equals
      the target. */
  lemma MeanAbsoluteLossZeroIff(x: seq<real>, y: seq<real>)
    requires |x| == |y| && |x| > 0
    ensures MeanAbsoluteLoss(x, y) == 0.0 <==> x == y
  {
    AbsSumZeroIff(x, y, |x|);
  }

  /** Moving x_k by t changes the squared sum by 2t(x_k - y_k) + t². */
  lemma {:induction false} SquaredSumMove(x: seq<real>, y: seq<real>, n: nat, k: nat, t: real)
    requires n <= |x| && n <= |y| && k < |x|
    ensures SquaredSum(x[k := x[k] + t], y, n)
         == SquaredSum(x, y, n) + (if k < n then 2.0 * t * (x[k] - y[k]) + Square(t) else 0.0)
  {
    if n > 0 {
      SquaredSumMove(x, y, n - 1, k, t);
      if k == n - 1 {
        SquareOfSum(x[k] - y[k], t);
      }
    }
  }

  /** The mean squared gradient is the exact derivative of the mean squared
      loss: moving x_k by t changes the loss by t·g_k + t²/n. */
  lemma MeanSquaredGradientIsDerivative(x: seq<real>, y: seq<real>, k: nat, t: real)
    requires |x| == |y| && k < |x|
    ensures |Gradient(MeanSquared, x, y)| == |x|
    ensures MeanSquaredLoss(x[k := x[k] + t], y)
         == MeanSquaredLoss(x, y) + t * Gradient(MeanSquared, x, y)[k] + Square(t) / (|x| as real)
  {
    var x' := x[k := x[k] + t];
    assert SquaredSum(x', y, |x|) == SquaredSum(x, y, |x|) + (2.0 * t * (x[k] - y[k]) + Square(t)) by {
      SquaredSumMove(x, y, |x|, k, t);
    }
  }

  /** The mean squared gradient vanishes exactly at the target. */
  lemma MeanSquaredGradientZeroIff(x: seq<real>, y: seq<real>)
    requires |x| == |y|
    ensures Gradient(MeanSquared, x, y) == seq(|x|, i => 0.0) <==> x == y
  {
    var g := Gradient(MeanSquared, x, y);
    if g == seq(|x|, i => 0.0) {
      forall i | 0 <= i < |x|
        ensures x[i] == y[i]
      {
        assert g[i] == (2.0 / (|x| as real)) * (x[i] - y[i]) == 0.0;
      }
    }
  }

  /** Moving x_k by t changes the absolute sum by |d + t| - |d|, d = x_k - y_k. */
  lemma {:induction false} AbsSumMove(x: seq<real>, y: seq<real>, n: nat, k: nat, t: real)
    requires n <= |x| && n <= |y| && k < |x|
    ensures AbsSum(x[k := x[k] + t], y, n)
         == AbsSum(x, y, n) + (if k < n then Abs(x[k] - y[k] + t) - Abs(x[k] - y[k]) else 0.0)
  {
    if n > 0 {
      AbsSumMove(x, y, n - 1, k, t);
    }
  }

  /** d and d + t are on the same side of 0: a move by t from d does not
      reach the kink of |·|. */
  predicate StaysOnSide(d: real, t: real) {
    (d > 0.0 && d + t > 0.0) || (d < 0.0 && d + t < 0.0)
  }

  /** While a move t does not cross 0, |d + t| changes from |d| by t·sign(d). */
  lemma AbsMoveOnOneSide(d: real, t: real)
    requires StaysOnSide(d, t)
    ensures Abs(d + t) - Abs(d) == t * Sign(d)
  {
  }

  /** While the move t does not cross y_k, the absolute sum moves by
      t·sign(x_k - y_k). */
  lemma AbsSumMoveAway(x: seq<real>, y: seq<real>, k: nat, t: real)
    requires |x| == |y| && k < |x|
    requires StaysOnSide(x[k] - y[k], t)
    ensures AbsSum(x[k := x[k] + t], y, |x|) == AbsSum(x, y, |x|) + t * Sign(x[k] - y[k])
  {
    var s, s' := AbsSum(x, y, |x|), AbsSum(x[k := x[k] + t], y, |x|);
    var d := x[k] - y[k];
    assert s' == s + (Abs(d + t) - Abs(d)) by {
      AbsSumMove(x, y, |x|, k, t);
    }
    AbsMoveOnOneSide(d, t);
  }

  /** A sum s that moves by t·c moves its mean s/n by t·(c/n). */
  lemma MeanOfMove(s: real, s': real, n: real, t: real, c: real)
    requires n > 0.0 && s' == s + t * c
    ensures s' / n == s / n + t * ((1.0 / n) * c)
  {
  }

  /** While the move t does not cross y_k, the mean absolute loss moves by
      t·sign(x_k - y_k)/n. */
  lemma MeanAbsoluteLossMoveAway(x: seq<real>, y: seq<real>, k: nat, t: real)
    requires |x| == |y| && k < |x|
    requires StaysOnSide(x[k] - y[k], t)
    ensures MeanAbsoluteLoss(x[k := x[k] + t], y)
         == MeanAbsoluteLoss(x, y) + t * ((1.0 / (|x| as real)) * Sign(x[k] - y[k]))
  {
    AbsSumMoveAway(x, y, k, t);
    MeanOfMove(AbsSum(x, y, |x|), AbsSum(x[k := x[k] + t], y, |x|), |x| as real, t, Sign(x[k] - y[k]));
  }

  /** Away from the kink the mean absolute gradient is the exact derivative
      of the mean absolute loss: when x_k ≠ y_k and the move t does not
      cross y_k, the loss changes by t·g_k. */
  lemma MeanAbsoluteGradientIsDerivative(x: seq<real>, y: seq<real>, k: nat, t: real)
    requires |x| == |y| && k < |x|
    requires StaysOnSide(x[k] - y[k], t)
    ensures |Gradient(MeanAbsolute, x, y)| == |x|
    ensures MeanAbsoluteLoss(x[k := x[k] + t], y)
         == MeanAbsoluteLoss(x, y) + t * Gradient(MeanAbsolute, x, y)[k]
  {
    MeanAbsoluteLossMoveAway(x, y, k, t);
    GradientAt(MeanAbsolute, x, y, k);
  }

  /** Each mean absolute gradient element is ±1/n or 0 and has the sign of
      x_k - y_k. */
  lemma MeanAbsoluteGradientSign(x: seq<real>, y: seq<real>)
    requires |x| == |y|
    ensures |Gradient(MeanAbsolute, x, y)| == |x|
    ensures forall k :: 0 <= k < |x| ==>
      Sign(Gradient(MeanAbsolute, x, y)[k]) == Sign(x[k] - y[k]) &&
      Abs(Gradient(MeanAbsolute, x, y)[k]) * (|x| as real) == Abs(Sign(x[k] - y[k]))
  {
  }

  /** The cross-entropy gradient element times x_k gives back -y_k, so for a
      positive output and a non-negative target it is never positive. */
  lemma CrossEntropyGradientRecoversTarget(x: seq<real>, y: seq<real>)
    requires |x| == |y|
    requires forall i :: 0 <= i < |x| ==> x[i] != 0.0
    ensures |Gradient(CrossEntropy, x, y)| == |x|
    ensures forall k :: 0 <= k < |x| ==> x[k] * Gradient(CrossEntropy, x, y)[k] == -y[k]
    ensures forall k :: 0 <= k < |x| && x[k] > 0.0 && y[k] >= 0.0 ==> Gradient(CrossEntropy, x, y)[k] <= 0.0
  {
    forall k | 0 <= k < |x|
      ensures x[k] * Gradient(CrossEntropy, x, y)[k] == -y[k]
    {
      assert Gradient(CrossEntropy, x, y)[k] == -1.0 * (y[k] / x[k]);
    }
  }

  /** Σ_{i<n} ln of the probability the output gives the true class:
      ln(x_i) where y_i = 1, ln(1 - x_i) where y_i = 0. */
  function PickedLogSum(x: seq<real>, y: seq<real>, n: nat, ln: real -> real): real
    requires n <= |x| && n <= |y|
  {
    if n == 0 then 0.0
    else PickedLogSum(x, y, n - 1, ln) + (if y[n - 1] == 1.0 then ln(x[n - 1]) else ln(1.0 - x[n - 1]))
  }

  /** For 0/1 targets each term of the cross-entropy keeps only one of its
      two logarithms, whatever function the logarithm is. */
  lemma {:induction false} CrossSumOfBinaryTargets(x: seq<real>, y: seq<real>, n: nat, ln: real -> real)
    requires n <= |x| && n <= |y|
    requires forall i :: 0 <= i < n ==> y[i] == 0.0 || y[i] == 1.0
    ensures CrossSum(x, y, n, ln) == PickedLogSum(x, y, n, ln)
  {
    if n > 0 {
      CrossSumOfBinaryTargets(x, y, n - 1, ln);
    }
  }

  lemma CrossEntropyOfBinaryTargets(x: seq<real>, y: seq<real>, ln: real -> real)
    requires |x| == |y| && |x| > 0
    requires forall i :: 0 <= i < |y| ==> y[i] == 0.0 || y[i] == 1.0
    ensures CrossEntropyLoss(x, y, ln) == -1.0 * PickedLogSum(x, y, |x|, ln) / (|x| as real)
  {
    CrossSumOfBinaryTargets(x, y, |x|, ln);
  }

  /** The worked mean squared example: x = [1, 2], y = [0, 0] gives loss
      (1 + 4) / 2 = 2.5 and gradient [1, 2]. */
  lemma MeanSquaredScenario()
    ensures MeanSquaredLoss([1.0, 2.0], [0.0, 0.0]) == 2.5
    ensures Gradient(MeanSquared, [1.0, 2.0], [0.0, 0.0]) == [1.0, 2.0]
  {
    assert SquaredSum([1.0, 2.0], [0.0, 0.0], 2) == 5.0;
  }
}
