/** The dense (fully connected) layer: an affine map out = W·in + b over a
    flattened weight matrix, and a backward step that returns an upstream
    gradient and then updates the weights and biases in place.

    Naming: `inDim` is the template parameter DIM1 (input length) and
    `outDim` is DIM2 (output length). Every value is a `real`. */
module DenseLayer {

  /** row * width, counted one row at a time. Keeping the product behind a
      recursive definition keeps nonlinear arithmetic out of the loop proofs;
      OffsetIsProduct connects it to `*`. */
  function Offset(width: nat, row: nat): nat {
    if row == 0 then 0 else Offset(width, row - 1) + width
  }

  lemma {:induction false} OffsetIsProduct(width: nat, row: nat)
    ensures Offset(width, row) == row * width
  {
    if row > 0 {
      OffsetIsProduct(width, row - 1);
    }
  }

  /** Flat position of entry (row, col) in a row-major matrix with `width`
      columns, that is row * width + col. All three index expressions of the
      layer have this shape: `apply` reads i*DIM1+j = Cell(inDim, i, j), the
      upstream gradient reads i*DIM2+j = Cell(outDim, i, j), the weight
      update writes j*DIM1+i = Cell(inDim, j, i). */
  function Cell(width: nat, row: nat, col: nat): nat {
    Offset(width, row) + col
  }

  /** Every cell of a rows × width matrix lies inside its flat buffer of
      rows * width (equivalently width * rows) elements. */
  lemma CellInRange(width: nat, rows: nat, row: nat, col: nat)
    requires row < rows && col < width
    ensures Cell(width, row, col) < rows * width
    ensures Cell(width, row, 0) + width <= rows * width
    ensures Cell(width, row, 0) + width <= width * rows
  {
    OffsetIsProduct(width, row);
    MulMonotone(row + 1, rows, width);
  }

  lemma MulMonotone(a: nat, b: nat, c: nat)
    requires a <= b
    ensures a * c <= b * c
  {
  }

  /** Each later row starts at least one whole row further on. */
  lemma {:induction false} OffsetGrows(width: nat, a: nat, b: nat)
    requires a < b
    ensures Offset(width, a) + width <= Offset(width, b)
    decreases b
  {
    if a + 1 < b {
      OffsetGrows(width, a, b - 1);
    }
  }

  /** Distinct (row, col) pairs never share a cell: no cell is written twice. */
  lemma CellInjective(width: nat, r1: nat, c1: nat, r2: nat, c2: nat)
    requires c1 < width && c2 < width
    requires Cell(width, r1, c1) == Cell(width, r2, c2)
    ensures r1 == r2 && c1 == c2
  {
    if r1 < r2 {
      OffsetGrows(width, r1, r2);
      assert false;
    } else if r2 < r1 {
      OffsetGrows(width, r2, r1);
      assert false;
    }
  }

  /** Every cell of a rows × width matrix is hit by some (row, col) pair:
      no cell is skipped. */
  lemma CellSurjective(width: nat, rows: nat, k: nat)
    requires k < rows * width
    ensures width > 0
    ensures k / width < rows && k % width < width
    ensures Cell(width, k / width, k % width) == k
  {
    if width == 0 {
      assert false;
    }
    if k / width >= rows {
      MulMonotone(rows, k / width, width);
      assert false;
    }
    OffsetIsProduct(width, k / width);
  }

  /** The (row, col) ↦ Cell map sends the rows × width pairs into the cells
      [0, rows*width) without collisions; with CellSurjective it is a
      bijection, so the weight-update loop touches every weight exactly once. */
  lemma CellBijection(width: nat, rows: nat)
    ensures forall r: nat, c: nat :: r < rows && c < width ==> Cell(width, r, c) < width * rows
    ensures forall r1: nat, c1: nat, r2: nat, c2: nat ::
      c1 < width && c2 < width && Cell(width, r1, c1) == Cell(width, r2, c2) ==> r1 == r2 && c1 == c2
  {
    forall r: nat, c: nat | r < rows && c < width
      ensures Cell(width, r, c) < width * rows
    {
      CellInRange(width, rows, r, c);
    }
    forall r1: nat, c1: nat, r2: nat, c2: nat |
      c1 < width && c2 < width && Cell(width, r1, c1) == Cell(width, r2, c2)
      ensures r1 == r2 && c1 == c2
    {
      CellInjective(width, r1, c1, r2, c2);
    }
  }

  /** Σ_{j<n} x[j] * w[base + j], accumulated in index order as the inner
      loops of the layer do. */
  function RowDot(x: seq<real>, w: seq<real>, base: nat, n: nat): real
    requires n <= |x| && base + n <= |w|
  {
    if n == 0 then 0.0 else RowDot(x, w, base, n - 1) + x[n - 1] * w[base + n - 1]
  }

  /** Row i of an outDim × inDim matrix fits in a buffer of inDim*outDim. */
  lemma RowsFit(width: nat, rows: nat)
    ensures forall i: nat :: i < rows ==> Cell(width, i, 0) + width <= width * rows
  {
    forall i: nat | i < rows
      ensures Cell(width, i, 0) + width <= width * rows
    {
      if width > 0 {
        CellInRange(width, rows, i, 0);
      } else {
        assert Cell(width, i, 0) == Offset(0, i);
        OffsetIsProduct(0, i);
      }
    }
  }

  /** What `apply` computes: out[i] = bias[i] + Σ_{j<inDim} in[j] * W[i*inDim + j]. */
  function Affine(w: seq<real>, b: seq<real>, x: seq<real>, inDim: nat, outDim: nat): seq<real>
    requires |w| == inDim * outDim && |b| == outDim && |x| == inDim
  {
    RowsFit(inDim, outDim);
    seq(outDim, i requires 0 <= i < outDim => b[i] + RowDot(x, w, Cell(inDim, i, 0), inDim))
  }

  /** The upstream gradient exactly as `update` computes it:
      g_in[i] = Σ_{j<outDim} g[j] * W[i*outDim + j]. */
  function UpstreamGradient(w: seq<real>, g: seq<real>, inDim: nat, outDim: nat): seq<real>
    requires |w| == inDim * outDim && |g| == outDim
  {
    RowsFit(outDim, inDim);
    seq(inDim, i requires 0 <= i < inDim => RowDot(g, w, Cell(outDim, i, 0), outDim))
  }

  /** Σ_{j<n} g[j] * W[j*inDim + i]: the gradient through column i of the
      matrix in the layout `apply` uses (the transposed product Wᵀg). */
  function ColumnDot(g: seq<real>, w: seq<real>, inDim: nat, i: nat, n: nat): real
    requires n <= |g| && i < inDim && |w| == inDim * |g|
  {
    if n == 0 then 0.0
    else
      CellInRange(inDim, |g|, n - 1, i);
      ColumnDot(g, w, inDim, i, n - 1) + g[n - 1] * w[Cell(inDim, n - 1, i)]
  }

  /** The weights after the update step: the weight at Cell(inDim, j, i)
      decreases by lr * g[j] * g_in[i]. */
  function StepWeights(w: seq<real>, g: seq<real>, gIn: seq<real>, lr: real, inDim: nat, outDim: nat): seq<real>
    requires |w| == inDim * outDim && |g| == outDim && |gIn| == inDim
  {
    seq(|w|, k requires 0 <= k < |w| =>
      CellSurjective(inDim, outDim, k);
      w[k] - lr * g[k / inDim] * gIn[k % inDim])
  }

  /** The biases after the update step. */
  function StepBias(b: seq<real>, g: seq<real>, lr: real): seq<real>
    requires |g| == |b|
  {
    seq(|b|, i requires 0 <= i < |b| => b[i] - lr * g[i])
  }

  /** StepWeights, read cell by cell in the (i, j) order of the update loop:
      the cell written at step (i, j) gets old − lr*g[j]*g_in[i], and each
      cell is written by exactly that step. */
  lemma StepWeightsAt(w: seq<real>, g: seq<real>, gIn: seq<real>, lr: real, inDim: nat, outDim: nat, i: nat, j: nat)
    requires |w| == inDim * outDim && |g| == outDim && |gIn| == inDim
    requires i < inDim && j < outDim
    ensures Cell(inDim, j, i) < |w|
    ensures StepWeights(w, g, gIn, lr, inDim, outDim)[Cell(inDim, j, i)]
         == w[Cell(inDim, j, i)] - lr * g[j] * gIn[i]
  {
    var k := Cell(inDim, j, i);
    CellInRange(inDim, outDim, j, i);
    CellSurjective(inDim, outDim, k);
    CellInjective(inDim, k / inDim, k % inDim, j, i);
  }

  /** Applying the layer to x + y adds the two outputs and counts the bias
      once: the map is affine. */
  lemma {:induction false} RowDotAdditive(x: seq<real>, y: seq<real>, w: seq<real>, base: nat, n: nat)
    requires |x| == |y| && n <= |x| && base + n <= |w|
    ensures RowDot(seq(|x|, k requires 0 <= k < |x| => x[k] + y[k]), w, base, n)
         == RowDot(x, w, base, n) + RowDot(y, w, base, n)
  {
    if n > 0 {
      RowDotAdditive(x, y, w, base, n - 1);
    }
  }

  lemma AffineAdditive(w: seq<real>, b: seq<real>, x: seq<real>, y: seq<real>, inDim: nat, outDim: nat)
    requires |w| == inDim * outDim && |b| == outDim && |x| == inDim && |y| == inDim
    ensures forall i :: 0 <= i < outDim ==>
      Affine(w, b, seq(inDim, k requires 0 <= k < inDim => x[k] + y[k]), inDim, outDim)[i] + b[i]
      == Affine(w, b, x, inDim, outDim)[i] + Affine(w, b, y, inDim, outDim)[i]
  {
    RowsFit(inDim, outDim);
    forall i | 0 <= i < outDim
      ensures Affine(w, b, seq(inDim, k requires 0 <= k < inDim => x[k] + y[k]), inDim, outDim)[i] + b[i]
           == Affine(w, b, x, inDim, outDim)[i] + Affine(w, b, y, inDim, outDim)[i]
    {
      RowDotAdditive(x, y, w, Cell(inDim, i, 0), inDim);
    }
  }

  /** With a zero input the layer outputs its bias. */
  lemma {:induction false} RowDotOfZero(x: seq<real>, w: seq<real>, base: nat, n: nat)
    requires n <= |x| && base + n <= |w|
    requires forall k :: 0 <= k < |x| ==> x[k] == 0.0
    ensures RowDot(x, w, base, n) == 0.0
  {
    if n > 0 {
      RowDotOfZero(x, w, base, n - 1);
    }
  }

  lemma AffineOfZeroIsBias(w: seq<real>, b: seq<real>, x: seq<real>, inDim: nat, outDim: nat)
    requires |w| == inDim * outDim && |b| == outDim && |x| == inDim
    requires forall k :: 0 <= k < inDim ==> x[k] == 0.0
    ensures Affine(w, b, x, inDim, outDim) == b
  {
    RowsFit(inDim, outDim);
    forall i | 0 <= i < outDim
      ensures Affine(w, b, x, inDim, outDim)[i] == b[i]
    {
      RowDotOfZero(x, w, Cell(inDim, i, 0), inDim);
    }
  }

  /** When one dimension is 1 the upstream gradient read at i*DIM2+j
      coincides with the transposed product Wᵀg in the layout `apply` uses. */
  lemma {:induction false} RowDotIsColumnDotForSingleInput(g: seq<real>, w: seq<real>, n: nat)
    requires n <= |g| && |w| == |g|
    ensures RowDot(g, w, 0, n) == ColumnDot(g, w, 1, 0, n)
  {
    if n > 0 {
      RowDotIsColumnDotForSingleInput(g, w, n - 1);
      OffsetIsProduct(1, n - 1);
    }
  }

  lemma UpstreamGradientIsTransposeForVectors(w: seq<real>, g: seq<real>, inDim: nat, outDim: nat)
    requires |w| == inDim * outDim && |g| == outDim
    requires inDim == 1 || outDim == 1
    ensures forall i :: 0 <= i < inDim ==>
      UpstreamGradient(w, g, inDim, outDim)[i] == ColumnDot(g, w, inDim, i, outDim)
  {
    if inDim == 1 {
      RowDotIsColumnDotForSingleInput(g, w, outDim);
    } else {
      forall i | 0 <= i < inDim
        ensures UpstreamGradient(w, g, inDim, outDim)[i] == ColumnDot(g, w, inDim, i, outDim)
      {
        assert Cell(inDim, 0, i) == i && Cell(1, i, 0) == i by {
          OffsetIsProduct(1, i);
        }
        assert UpstreamGradient(w, g, inDim, outDim)[i] == RowDot(g, w, Cell(1, i, 0), 1) == g[0] * w[i];
        assert ColumnDot(g, w, inDim, i, 1) == g[0] * w[i];
      }
    }
  }

  /** For a 2 × 2 layer the two readings differ: with W = [1, 2, 3, 4] and
      g = [1, 0] the layer returns g_in = [1, 3] while Wᵀg = [1, 2]. */
  lemma UpstreamGradientDiffersFromTransposeWhenSquare()
    ensures UpstreamGradient([1.0, 2.0, 3.0, 4.0], [1.0, 0.0], 2, 2) == [1.0, 3.0]
    ensures ColumnDot([1.0, 0.0], [1.0, 2.0, 3.0, 4.0], 2, 1, 2) == 2.0
  {
    var w, g := [1.0, 2.0, 3.0, 4.0], [1.0, 0.0];
    assert RowDot(g, w, Cell(2, 1, 0), 2) == 3.0;
    assert RowDot(g, w, Cell(2, 0, 0), 2) == 1.0;
  }

  /** The layer: a flattened DIM1*DIM2 weight buffer and a DIM2 bias buffer.
      Both arrays are fixed at construction; `update` mutates their cells. */
  class Dense {
    const inDim: nat
    const outDim: nat
    const weights: array<real>
    const bias: array<real>

    ghost predicate Valid()
      reads this
    {
      weights.Length == inDim * outDim && bias.Length == outDim && weights != bias
    }

    /** The initializer-list constructor: it demands exactly DIM1*DIM2
        weights and DIM2 biases and copies them in order. */
    constructor (inDim: nat, outDim: nat, matInit: seq<real>, biasInit: seq<real>)
      requires |matInit| == inDim * outDim && |biasInit| == outDim
      ensures Valid()
      ensures this.inDim == inDim && this.outDim == outDim
      ensures weights[..] == matInit && bias[..] == biasInit
      ensures fresh(weights) && fresh(bias)
    {
      this.inDim := inDim;
      this.outDim := outDim;
      weights := new real[|matInit|](k requires 0 <= k < |matInit| => matInit[k]);
      bias := new real[|biasInit|](k requires 0 <= k < |biasInit| => biasInit[k]);
    }

    /** Forward pass. It writes only a fresh local buffer, so the weights and
        biases are left as they were. */
    method Apply(input: seq<real>) returns (out: seq<real>)
      requires Valid() && |input| == inDim
      ensures |out| == outDim
      ensures out == Affine(weights[..], bias[..], input, inDim, outDim)
    {
      RowsFit(inDim, outDim);
      var outVector := new real[outDim];
      var i := 0;
      while i < outDim
        invariant 0 <= i <= outDim
        invariant forall k :: 0 <= k < i ==>
          outVector[k] == bias[k] + RowDot(input, weights[..], Cell(inDim, k, 0), inDim)
      {
        outVector[i] := bias[i];
        var j := 0;
        while j < inDim
          invariant 0 <= j <= inDim
          invariant outVector[i] == bias[i] + RowDot(input, weights[..], Cell(inDim, i, 0), j)
          invariant forall k :: 0 <= k < i ==>
            outVector[k] == bias[k] + RowDot(input, weights[..], Cell(inDim, k, 0), inDim)
        {
          CellInRange(inDim, outDim, i, j);
          outVector[i] := outVector[i] + input[j] * weights[Cell(inDim, i, j)];
          j := j + 1;
        }
        i := i + 1;
      }
      out := outVector[..];
    }

    /** Backward pass. First the whole upstream gradient is computed from the
        weights as they are on entry; only then are the weights and biases
        decremented, the weights by lr * g[j] * g_in[i]. */
    method Update(gradient: seq<real>, learningRate: real) returns (upstream: seq<real>)
      requires Valid() && |gradient| == outDim
      modifies weights, bias
      ensures Valid()
      ensures |upstream| == inDim
      ensures upstream == UpstreamGradient(old(weights[..]), gradient, inDim, outDim)
      ensures weights[..] == StepWeights(old(weights[..]), gradient, upstream, learningRate, inDim, outDim)
      ensures bias[..] == StepBias(old(bias[..]), gradient, learningRate)
    {
      upstream := ComputeUpstream(gradient);
      UpdateWeights(gradient, upstream, learningRate);
      UpdateBias(gradient, learningRate);
    }

    /** First section of the backward pass: the upstream gradient, read from
        the weights at i*DIM2 + j. It changes nothing. */
    method ComputeUpstream(gradient: seq<real>) returns (upstream: seq<real>)
      requires Valid() && |gradient| == outDim
      ensures |upstream| == inDim
      ensures upstream == UpstreamGradient(weights[..], gradient, inDim, outDim)
    {
      RowsFit(outDim, inDim);
      var outGradient := new real[inDim];
      var i := 0;
      while i < inDim
        invariant 0 <= i <= inDim
        invariant forall k :: 0 <= k < i ==>
          outGradient[k] == RowDot(gradient, weights[..], Cell(outDim, k, 0), outDim)
      {
        outGradient[i] := 0.0;
        var j := 0;
        while j < outDim
          invariant 0 <= j <= outDim
          invariant outGradient[i] == RowDot(gradient, weights[..], Cell(outDim, i, 0), j)
          invariant forall k :: 0 <= k < i ==>
            outGradient[k] == RowDot(gradient, weights[..], Cell(outDim, k, 0), outDim)
        {
          CellInRange(outDim, inDim, i, j);
          outGradient[i] := outGradient[i] + gradient[j] * weights[Cell(outDim, i, j)];
          j := j + 1;
        }
        i := i + 1;
      }
      upstream := outGradient[..];
    }

    /** Second section: step (i, j) of the nested loop writes the weight at
        j*DIM1 + i. */
    method UpdateWeights(gradient: seq<real>, upstream: seq<real>, learningRate: real)
      requires Valid() && |gradient| == outDim && |upstream| == inDim
      modifies weights
      ensures weights[..] == StepWeights(old(weights[..]), gradient, upstream, learningRate, inDim, outDim)
    {
      CellBijection(inDim, outDim);
      var i := 0;
      while i < inDim
        invariant 0 <= i <= inDim
        invariant forall c: nat, r: nat :: c < inDim && r < outDim ==>
          weights[Cell(inDim, r, c)] == if c < i
            then old(weights[Cell(inDim, r, c)]) - learningRate * gradient[r] * upstream[c]
            else old(weights[Cell(inDim, r, c)])
      {
        StepColumn(gradient, upstream, learningRate, i);
        i := i + 1;
      }
      ghost var w0 := old(weights[..]);
      forall k | 0 <= k < weights.Length
        ensures weights[k] == StepWeights(w0, gradient, upstream, learningRate, inDim, outDim)[k]
      {
        CellSurjective(inDim, outDim, k);
        StepWeightsAt(w0, gradient, upstream, learningRate, inDim, outDim, k % inDim, k / inDim);
      }
    }

    /** One pass of the inner loop of the second section: for input i, every
        row j has its weight at j*DIM1 + i decremented by lr * g[j] * g_in[i]. */
    method StepColumn(gradient: seq<real>, upstream: seq<real>, learningRate: real, i: nat)
      requires Valid() && |gradient| == outDim && |upstream| == inDim && i < inDim
      requires forall r: nat, c: nat :: r < outDim && c < inDim ==> Cell(inDim, r, c) < weights.Length
      modifies weights
      ensures forall c: nat, r: nat :: c < inDim && r < outDim ==>
        weights[Cell(inDim, r, c)] == if c == i
          then old(weights[Cell(inDim, r, c)]) - learningRate * gradient[r] * upstream[c]
          else old(weights[Cell(inDim, r, c)])
    {
      CellBijection(inDim, outDim);
      var j := 0;
      while j < outDim
        invariant 0 <= j <= outDim
        invariant forall c: nat, r: nat :: c < inDim && r < outDim ==>
          weights[Cell(inDim, r, c)] == if c == i && r < j
            then old(weights[Cell(inDim, r, c)]) - learningRate * gradient[r] * upstream[c]
            else old(weights[Cell(inDim, r, c)])
      {
        weights[Cell(inDim, j, i)] := weights[Cell(inDim, j, i)] - learningRate * gradient[j] * upstream[i];
        j := j + 1;
      }
    }

    /** Third section: bias[i] -= lr * g[i]. */
    method UpdateBias(gradient: seq<real>, learningRate: real)
      requires Valid() && |gradient| == outDim
      modifies bias
      ensures bias[..] == StepBias(old(bias[..]), gradient, learningRate)
    {
      var i := 0;
      while i < outDim
        invariant 0 <= i <= outDim
        invariant forall k :: 0 <= k < outDim ==>
          bias[k] == if k < i then old(bias[k]) - learningRate * gradient[k] else old(bias[k])
      {
        bias[i] := bias[i] - learningRate * gradient[i];
        i := i + 1;
      }
      ghost var b0 := old(bias[..]);
      assert forall k :: 0 <= k < outDim ==> bias[..][k] == StepBias(b0, gradient, learningRate)[k];
    }
  }

  /** The worked example of a 2-input, 1-output layer: weights [1, 1],
      bias [0], learning rate 0.1. Input [1, 2] gives [3]; the gradient [1]
      gives the upstream gradient [1, 1], weights [0.9, 0.9], bias [-0.1]. */
  method DenseScenario() returns (out: seq<real>, upstream: seq<real>, weights: seq<real>, bias: seq<real>)
    ensures out == [3.0] && upstream == [1.0, 1.0]
    ensures weights == [0.9, 0.9] && bias == [-0.1]
  {
    var layer := new Dense(2, 1, [1.0, 1.0], [0.0]);
    out := layer.Apply([1.0, 2.0]);
    assert RowDot([1.0, 2.0], [1.0, 1.0], 0, 2) == 3.0;
    assert out == [3.0];
    upstream := layer.Update([1.0], 0.1);
    assert RowDot([1.0], [1.0, 1.0], Cell(1, 1, 0), 1) == 1.0;
    assert RowDot([1.0], [1.0, 1.0], Cell(1, 0, 0), 1) == 1.0;
    assert upstream == [1.0, 1.0];
    assert layer.weights[Cell(2, 0, 0)] == 0.9 && layer.weights[Cell(2, 0, 1)] == 0.9;
    assert layer.bias[..] == [-0.1];
    weights := layer.weights[..];
    bias := layer.bias[..];
    assert weights[0] == layer.weights[Cell(2, 0, 0)] && weights[1] == layer.weights[Cell(2, 0, 1)];
  }
}
