/** The activation layer: an elementwise nonlinearity (RELU, SOFTMAX or
    SIGMOID) that caches the result of its last forward pass in `output` and
    reads that cache in its backward pass.

    The exponential is not part of the model's arithmetic: the forward pass
    takes it as a parameter `exp` whose results are only known to be
    positive (so that the divisions by 1 + exp(x) and by the sum of
    exponentials are defined). */
module ActivationLayer {

  datatype ActMode = Relu | Softmax | Sigmoid

  /** The range of the exponential. */
  type Positive = r: real | r > 0.0 witness 1.0

  /** std::max(a, b): b when a < b, otherwise a. */
  function Max(a: real, b: real): real {
    if a < b then b else a
  }

  /** The RELU forward pass: each output is max(0, x). It is the least value
      that is both non-negative and at least the input. */
  function ReluOf(x: seq<real>): (r: seq<real>)
    ensures |r| == |x|
    ensures forall i :: 0 <= i < |x| ==> r[i] >= 0.0 && r[i] >= x[i]
    ensures forall i :: 0 <= i < |x| ==> r[i] == x[i] || r[i] == 0.0
  {
    seq(|x|, i requires 0 <= i < |x| => Max(0.0, x[i]))
  }

  /** The running maximum of x[0..n), taken left to right as the SOFTMAX
      prefix does. */
  function MaxPrefix(x: seq<real>, n: nat): real
    requires 1 <= n <= |x|
  {
    if n == 1 then x[0] else Max(MaxPrefix(x, n - 1), x[n - 1])
  }

  function MaxValue(x: seq<real>): real
    requires |x| > 0
  {
    MaxPrefix(x, |x|)
  }

  /** The first loop of the SOFTMAX branch: max_val starts at in[0] and
      takes std::max with each later element. */
  method RunningMax(x: seq<real>) returns (m: real)
    requires |x| > 0
    ensures m == MaxValue(x)
  {
    m := x[0];
    for i := 1 to |x|
      invariant m == MaxPrefix(x, i)
    {
      m := Max(m, x[i]);
    }
  }

  /** The running maximum is at least every element seen and is one of them. */
  lemma {:induction false} MaxPrefixIsMaximum(x: seq<real>, n: nat)
    requires 1 <= n <= |x|
    ensures forall i :: 0 <= i < n ==> x[i] <= MaxPrefix(x, n)
    ensures exists i :: 0 <= i < n && x[i] == MaxPrefix(x, n)
  {
    if n > 1 {
      MaxPrefixIsMaximum(x, n - 1);
      var k :| 0 <= k < n - 1 && x[k] == MaxPrefix(x, n - 1);
      if MaxPrefix(x, n - 1) < x[n - 1] {
        assert x[n - 1] == MaxPrefix(x, n);
      } else {
        assert x[k] == MaxPrefix(x, n);
      }
    } else {
      assert x[0] == MaxPrefix(x, n);
    }
  }

  /** The max-shifted input x[i] - max(x) that SOFTMAX exponentiates. */
  function Shifted(x: seq<real>): seq<real>
    requires |x| > 0
  {
    seq(|x|, i requires 0 <= i < |x| => x[i] - MaxValue(x))
  }

  /** Every shifted value is at most 0 and at least one is exactly 0, so no
      exponential in SOFTMAX is taken of a positive number. */
  lemma ShiftedIsNonPositive(x: seq<real>)
    requires |x| > 0
    ensures |Shifted(x)| == |x|
    ensures forall i :: 0 <= i < |x| ==> Shifted(x)[i] <= 0.0
    ensures exists i :: 0 <= i < |x| && Shifted(x)[i] == 0.0
  {
    MaxPrefixIsMaximum(x, |x|);
    var k :| 0 <= k < |x| && x[k] == MaxValue(x);
    assert Shifted(x)[k] == 0.0;
    forall i | 0 <= i < |x|
      ensures Shifted(x)[i] <= 0.0
    {
      assert x[i] <= MaxValue(x);
    }
  }

  /** Σ e[0..n), accumulated left to right as the exponent loop does. */
  function Sum(e: seq<real>, n: nat): real
    requires n <= |e|
  {
    if n == 0 then 0.0 else Sum(e, n - 1) + e[n - 1]
  }

  /** A sum of positive terms over a non-empty prefix is positive. */
  lemma {:induction false} SumPositive(e: seq<Positive>, n: nat)
    requires 0 < n <= |e|
    ensures Sum(e, n) > 0.0
  {
    if n > 1 {
      SumPositive(e, n - 1);
    }
  }

  /** Exponentials of the shifted input. */
  function ShiftedExp(x: seq<real>, exp: real -> Positive): seq<Positive>
    requires |x| > 0
  {
    seq(|x|, i requires 0 <= i < |x| => exp(x[i] - MaxValue(x)))
  }

  /** The SOFTMAX forward pass: exponentials of the shifted input, each
      divided by their sum. */
  function SoftmaxOf(x: seq<real>, exp: real -> Positive): seq<real>
    requires |x| > 0
  {
    var e := ShiftedExp(x, exp);
    SumPositive(e, |e|);
    seq(|x|, i requires 0 <= i < |x| => e[i] / Sum(e, |e|))
  }

  /** Dividing every term by s divides the sum by s. */
  lemma {:induction false} SumOfQuotients(v: seq<real>, w: seq<real>, s: real, n: nat)
    requires s != 0.0 && n <= |v| == |w|
    requires forall i :: 0 <= i < |v| ==> w[i] == v[i] / s
    ensures Sum(w, n) == Sum(v, n) / s
  {
    if n > 0 {
      SumOfQuotients(v, w, s, n - 1);
      QuotientOfSum(Sum(v, n - 1), v[n - 1], s);
    }
  }

  lemma QuotientOfSum(a: real, b: real, s: real)
    requires s != 0.0
    ensures (a + b) / s == a / s + b / s
  {
  }

  /** The SOFTMAX outputs add up to 1, whatever positive values the
      exponential takes. */
  lemma SoftmaxSumsToOne(x: seq<real>, exp: real -> Positive)
    requires |x| > 0
    ensures |SoftmaxOf(x, exp)| == |x|
    ensures Sum(SoftmaxOf(x, exp), |x|) == 1.0
  {
    var e := ShiftedExp(x, exp);
    SumPositive(e, |e|);
    SumOfQuotients(e, SoftmaxOf(x, exp), Sum(e, |e|), |x|);
    SelfQuotient(Sum(e, |e|));
  }

  lemma SelfQuotient(a: real)
    requires a != 0.0
    ensures a / a == 1.0
  {
  }

  /** The SIGMOID forward pass as written: exp(x) / (1 + exp(x)). */
  function SigmoidOf(x: seq<real>, exp: real -> Positive): seq<real>
  {
    seq(|x|, i requires 0 <= i < |x| => exp(x[i]) / (1.0 + exp(x[i])))
  }

  /** With a positive exponential every SIGMOID output lies strictly
      between 0 and 1. */
  lemma SigmoidInUnitInterval(x: seq<real>, exp: real -> Positive)
    ensures |SigmoidOf(x, exp)| == |x|
    ensures forall i :: 0 <= i < |x| ==> 0.0 < SigmoidOf(x, exp)[i] < 1.0
  {
    forall i | 0 <= i < |x|
      ensures 0.0 < SigmoidOf(x, exp)[i] < 1.0
    {
      var e := exp(x[i]);
      assert e / (1.0 + e) < 1.0 by {
        assert e < 1.0 + e;
      }
    }
  }

  /** The forward pass of each mode. */
  function Forward(mode: ActMode, x: seq<real>, exp: real -> Positive): seq<real>
    requires mode == Softmax ==> |x| > 0
  {
    match mode
    case Relu => ReluOf(x)
    case Softmax => SoftmaxOf(x, exp)
    case Sigmoid => SigmoidOf(x, exp)
  }

  /** RELU backward pass: the incoming gradient passes where the cached
      output is positive and is 0 elsewhere. */
  function ReluGrad(y: seq<real>, g: seq<real>): seq<real>
    requires |g| == |y|
  {
    seq(|y|, i requires 0 <= i < |y| => if y[i] > 0.0 then g[i] else 0.0)
  }

  /** SIGMOID and SOFTMAX backward pass: g * (y * (1 - y)). */
  function LogisticGrad(y: seq<real>, g: seq<real>): seq<real>
    requires |g| == |y|
  {
    seq(|y|, i requires 0 <= i < |y| => LogisticStep(y[i], g[i]))
  }

  /** One element of the SIGMOID and SOFTMAX backward pass. */
  function LogisticStep(yi: real, gi: real): real {
    gi * (yi * (1.0 - yi))
  }

  /** The backward pass of each mode, from the cached output y. */
  function Backward(mode: ActMode, y: seq<real>, g: seq<real>): seq<real>
    requires |g| == |y|
  {
    match mode
    case Relu => ReluGrad(y, g)
    case Softmax => LogisticGrad(y, g)
    case Sigmoid => LogisticGrad(y, g)
  }

  /** After a RELU forward pass on x, the backward pass lets the gradient
      through exactly where x was positive: the derivative of max(0, x). */
  lemma ReluGradAfterRelu(x: seq<real>, g: seq<real>)
    requires |g| == |x|
    ensures forall i :: 0 <= i < |x| ==>
      ReluGrad(ReluOf(x), g)[i] == if x[i] > 0.0 then g[i] else 0.0
  {
  }

  /** Wherever the cache holds 0, whatever the incoming gradient, the RELU
      backward pass yields 0; in particular a fresh zero-filled cache blocks
      every gradient. */
  lemma ReluGradBlockedByZeroCache(y: seq<real>, g: seq<real>)
    requires |g| == |y|
    ensures forall i :: 0 <= i < |y| && y[i] == 0.0 ==> ReluGrad(y, g)[i] == 0.0
    ensures (forall i :: 0 <= i < |y| ==> y[i] == 0.0) ==> ReluGrad(y, g) == seq(|y|, i => 0.0)
  {
  }

  /** For a cache inside [0, 1] the logistic backward pass scales each
      gradient by a factor y * (1 - y) in [0, 1/4]: it keeps the sign of the
      incoming gradient and shrinks its magnitude at least fourfold. */
  lemma LogisticGradDamps(y: seq<real>, g: seq<real>)
    requires |g| == |y|
    requires forall i :: 0 <= i < |y| ==> 0.0 <= y[i] <= 1.0
    ensures forall i :: 0 <= i < |y| ==>
      0.0 <= LogisticGrad(y, g)[i] * g[i] <= g[i] * g[i] / 4.0
  {
    forall i | 0 <= i < |y|
      ensures 0.0 <= LogisticGrad(y, g)[i] * g[i] <= g[i] * g[i] / 4.0
    {
      var f := y[i] * (1.0 - y[i]);
      MulNonNegative(y[i], 1.0 - y[i]);
      assert f <= 0.25 by {
        assert 0.25 - f == (y[i] - 0.5) * (y[i] - 0.5);
      }
      assert LogisticGrad(y, g)[i] * g[i] == f * (g[i] * g[i]);
      assert 0.0 <= g[i] * g[i];
    }
  }

  lemma MulNonNegative(a: real, b: real)
    requires 0.0 <= a && 0.0 <= b
    ensures 0.0 <= a * b
  {
  }

  /** The logistic factor of the cache is the derivative of the sigmoid:
      with y = e / (1 + e), y * (1 - y) = e / (1 + e)². */
  lemma LogisticFactorOfSigmoid(e: real)
    requires e > 0.0
    ensures (e / (1.0 + e)) * (1.0 - e / (1.0 + e)) == e / ((1.0 + e) * (1.0 + e))
  {
    var d := 1.0 + e;
    assert 1.0 - e / d == 1.0 / d;
  }

  /** The layer. `output` is the cache of the last forward pass; its length
      is the layer's dimension and never changes. */
  class Activation {
    const mode: ActMode
    const dim: nat
    const output: array<real>

    ghost predicate Valid()
      reads this
    {
      output.Length == dim
    }

    /** The constructor value-initialises the cache to zeros. */
    constructor (mode: ActMode, dim: nat)
      ensures Valid() && this.mode == mode && this.dim == dim && fresh(output)
      ensures forall i :: 0 <= i < dim ==> output[i] == 0.0
    {
      this.mode := mode;
      this.dim := dim;
      output := new real[dim](i => 0.0);
    }

    /** Forward pass: the result of the mode's transform, also written to the
        cache. SOFTMAX reads in_vector[0], so it needs a non-empty input. */
    method Apply(input: seq<real>, exp: real -> Positive) returns (out: seq<real>)
      requires Valid() && |input| == dim
      requires mode == Softmax ==> dim > 0
      modifies output
      ensures out == Forward(mode, input, exp)
      ensures output[..] == out
    {
      match mode {
        case Relu => out := ApplyRelu(input);
        case Softmax => out := ApplySoftmax(input, exp);
        case Sigmoid => out := ApplySigmoid(input, exp);
      }
    }

    /** RELU branch: output[i] = out[i] = max(0, in[i]). */
    method ApplyRelu(input: seq<real>) returns (out: seq<real>)
      requires Valid() && |input| == dim
      modifies output
      ensures out == ReluOf(input) && output[..] == out
    {
      var outVector := new real[dim](i => 0.0);
      for i := 0 to dim
        invariant forall k :: 0 <= k < i ==> outVector[k] == output[k] == Max(0.0, input[k])
      {
        outVector[i] := Max(0.0, input[i]);
        output[i] := outVector[i];
      }
      out := outVector[..];
    }

    /** SOFTMAX branch: the running maximum, the shift by it, the
        exponentials and their sum, then the normalisation that writes the
        cache. */
    method ApplySoftmax(input: seq<real>, exp: real -> Positive) returns (out: seq<real>)
      requires Valid() && |input| == dim && dim > 0
      modifies output
      ensures out == SoftmaxOf(input, exp) && output[..] == out
    {
      var maxVal := RunningMax(input);
      var outVector, sum := ShiftAndExponentiate(input, maxVal, exp);
      ghost var e := ShiftedExp(input, exp);
      SumPositive(e, dim);
      for i := 0 to dim
        invariant forall k :: 0 <= k < i ==> outVector[k] == output[k] == e[k] / sum
        invariant forall k :: i <= k < dim ==> outVector[k] == e[k]
      {
        outVector[i] := outVector[i] / sum;
        output[i] := outVector[i];
      }
      out := outVector[..];
    }

    /** The second and third loops of the SOFTMAX branch: each element is
        shifted by the maximum, then the third loop replaces it by its
        exponential and adds that to the running sum. */
    static method ShiftAndExponentiate(input: seq<real>, maxVal: real, exp: real -> Positive)
        returns (v: array<real>, sum: real)
      requires |input| > 0 && maxVal == MaxValue(input)
      ensures fresh(v) && v.Length == |input|
      ensures forall k :: 0 <= k < |input| ==> v[k] == ShiftedExp(input, exp)[k]
      ensures sum == Sum(ShiftedExp(input, exp), |input|)
    {
      v := Shift(input, maxVal);
      ghost var e := ShiftedExp(input, exp);
      sum := 0.0;
      for i := 0 to |input|
        invariant sum == Sum(e, i)
        invariant forall k :: 0 <= k < i ==> v[k] == e[k]
        invariant forall k :: i <= k < |input| ==> v[k] == input[k] - maxVal
      {
        assert e[i] == exp(input[i] - maxVal);
        v[i] := exp(v[i]);
        sum := sum + v[i];
      }
    }

    /** The second loop of the SOFTMAX branch: every element minus the
        maximum, in a fresh buffer. */
    static method Shift(input: seq<real>, maxVal: real) returns (v: array<real>)
      ensures fresh(v) && v.Length == |input|
      ensures forall k :: 0 <= k < |input| ==> v[k] == input[k] - maxVal
    {
      v := new real[|input|](i => 0.0);
      for i := 0 to |input|
        invariant forall k :: 0 <= k < i ==> v[k] == input[k] - maxVal
      {
        v[i] := input[i] - maxVal;
      }
    }

    /** SIGMOID branch: output[i] = out[i] = exp(in[i]) / (1 + exp(in[i])). */
    method ApplySigmoid(input: seq<real>, exp: real -> Positive) returns (out: seq<real>)
      requires Valid() && |input| == dim
      modifies output
      ensures out == SigmoidOf(input, exp) && output[..] == out
    {
      var outVector := new real[dim](i => 0.0);
      for i := 0 to dim
        invariant forall k :: 0 <= k < i ==>
          outVector[k] == output[k] == exp(input[k]) / (1.0 + exp(input[k]))
      {
        outVector[i] := exp(input[i]) / (1.0 + exp(input[i]));
        output[i] := outVector[i];
      }
      out := outVector[..];
    }

    /** Backward pass from the cache. It changes nothing: the cache is only
        read. */
    method Update(gradient: seq<real>) returns (out: seq<real>)
      requires Valid() && |gradient| == dim
      ensures |out| == dim
      ensures out == Backward(mode, output[..], gradient)
    {
      var outGradient := new real[dim](i => 0.0);
      if mode == Relu {
        for i := 0 to dim
          invariant forall k :: 0 <= k < i ==>
            outGradient[k] == if output[k] > 0.0 then gradient[k] else 0.0
        {
          outGradient[i] := if output[i] > 0.0 then gradient[i] else 0.0;
        }
        assert outGradient[..] == ReluGrad(output[..], gradient);
      } else {
        ghost var expected := LogisticGrad(output[..], gradient);
        for i := 0 to dim
          invariant forall k :: 0 <= k < i ==> outGradient[k] == expected[k]
        {
          outGradient[i] := LogisticStep(output[i], gradient[i]);
        }
        assert outGradient[..] == expected;
      }
      out := outGradient[..];
    }
  }

  /** SIGMOID on input [0] with exp(0) = 1 caches [0.5]; the backward pass
      of gradient [1] then gives [0.25]. RELU before any forward pass
      blocks every gradient. */
  method ActivationScenario(exp: real -> Positive) returns (y: seq<real>, g: seq<real>, blocked: seq<real>)
    requires exp(0.0) == 1.0
    ensures y == [0.5] && g == [0.25]
    ensures blocked == [0.0, 0.0, 0.0]
  {
    var sigmoid := new Activation(Sigmoid, 1);
    y := sigmoid.Apply([0.0], exp);
    assert SigmoidOf([0.0], exp)[0] == 1.0 / (1.0 + 1.0);
    assert y == [0.5];
    g := sigmoid.Update([1.0]);

    var relu := new Activation(Relu, 3);
    blocked := relu.Update([1.0, -2.0, 3.0]);
  }
}
