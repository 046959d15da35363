/**
 * The Softmax layer: a numerically stable row-wise softmax on a
 * (batch x classes) tensor, and the label gradient it returns when paired
 * with a cross-entropy loss.
 *
 * The exponential is the tensor library's; the model takes it as a
 * parameter and assumes only that it is strictly positive, so every
 * property below holds for any such function.
 */
module SoftmaxLayer {
  import opened Tensors

  /** A strictly positive function standing for the elementwise exponential. */
  type Exp = f: real -> real | forall v :: f(v) > 0.0 witness (v: real) => 1.0

  // ---------------------------------------------------------------------
  // Row arithmetic
  // ---------------------------------------------------------------------

  /** The largest entry of a non-empty row. */
  function RowMax(row: seq<real>): (m: real)
    requires |row| > 0
    ensures exists i :: 0 <= i < |row| && row[i] == m
    ensures forall i :: 0 <= i < |row| ==> row[i] <= m
  {
    if |row| == 1 then row[0]
    else
      var rest := RowMax(row[1..]);
      assert forall i :: 1 <= i < |row| ==> row[i] == row[1..][i - 1];
      if row[0] >= rest then row[0] else rest
  }

  /** An upper bound that occurs in the row is its maximum. */
  lemma RowMaxUnique(row: seq<real>, m: real, k: nat)
    requires k < |row| && row[k] == m
    requires forall i :: 0 <= i < |row| ==> row[i] <= m
    ensures RowMax(row) == m
  {
  }

  function Sum(s: seq<real>): real
  {
    if |s| == 0 then 0.0 else s[0] + Sum(s[1..])
  }

  /** Every entry multiplied by `k`. */
  function Scaled(s: seq<real>, k: real): (r: seq<real>)
    ensures |r| == |s|
  {
    seq(|s|, i requires 0 <= i < |s| => s[i] * k)
  }

  /** A non-empty sequence of positive entries has a positive sum, at least each entry. */
  lemma {:induction false} SumPositive(s: seq<real>)
    requires |s| > 0
    requires forall i :: 0 <= i < |s| ==> s[i] > 0.0
    ensures Sum(s) > 0.0
    ensures forall i :: 0 <= i < |s| ==> s[i] <= Sum(s)
  {
    if |s| > 1 {
      SumPositive(s[1..]);
      assert forall i :: 1 <= i < |s| ==> s[i] == s[1..][i - 1];
    }
  }

  /** Scaling every entry scales the sum. */
  lemma {:induction false} SumScaled(s: seq<real>, k: real)
    ensures Sum(Scaled(s, k)) == Sum(s) * k
  {
    if |s| > 0 {
      forall i | 0 <= i < |s| - 1
        ensures Scaled(s, k)[1..][i] == Scaled(s[1..], k)[i]
      {
        assert Scaled(s, k)[1..][i] == Scaled(s, k)[i + 1];
      }
      assert Scaled(s, k)[1..] == Scaled(s[1..], k);
      SumScaled(s[1..], k);
    }
  }

  /** A sequence of `n` copies of `v` sums to `n * v`. */
  lemma {:induction false} SumConstant(s: seq<real>, v: real)
    requires forall i :: 0 <= i < |s| ==> s[i] == v
    ensures Sum(s) == |s| as real * v
  {
    if |s| > 0 {
      SumConstant(s[1..], v);
    }
  }

  // ---------------------------------------------------------------------
  // Forward: shift, exponentiate, normalise
  // ---------------------------------------------------------------------

  /**
   * Each entry minus the row maximum (an empty row stays empty), so that no
   * entry is positive and exponentiating cannot overflow.
   */
  function Shifted(row: seq<real>): (r: seq<real>)
    ensures |r| == |row|
    ensures forall i :: 0 <= i < |r| ==> r[i] <= 0.0
  {
    if |row| == 0 then []
    else
      var m := RowMax(row);
      seq(|row|, i requires 0 <= i < |row| => row[i] - m)
  }

  /** The exponential of every entry. */
  function Exponentiated(row: seq<real>, exp: Exp): (r: seq<real>)
    ensures |r| == |row|
    ensures forall i :: 0 <= i < |r| ==> r[i] > 0.0
  {
    seq(|row|, i requires 0 <= i < |row| => exp(row[i]))
  }

  /** Positive weights multiplied by the inverse of their sum. */
  function Normalised(e: seq<real>): (r: seq<real>)
    requires forall i :: 0 <= i < |e| ==> e[i] > 0.0
    ensures |r| == |e|
  {
    if |e| == 0 then []
    else
      SumPositive(e);
      Scaled(e, 1.0 / Sum(e))
  }

  /** Softmax of one row. */
  function SoftmaxRow(row: seq<real>, exp: Exp): (r: seq<real>)
    ensures |r| == |row|
  {
    Normalised(Exponentiated(Shifted(row), exp))
  }

  /** The forward map: softmax applied to every row of the batch. */
  function SoftmaxRows(x: Tensor2, exp: Exp): (r: Tensor2)
    ensures |r| == |x|
    ensures forall b :: 0 <= b < |x| ==> |r[b]| == |x[b]|
  {
    seq(|x|, b requires 0 <= b < |x| => SoftmaxRow(x[b], exp))
  }

  // ---------------------------------------------------------------------
  // Backward: the label gradient
  // ---------------------------------------------------------------------

  /**
   * The backward map for a label target: minus the cached output times the
   * target, divided by the batch size. It is only the gradient of the
   * softmax/cross-entropy pair, not a general softmax Jacobian product.
   */
  function LabelGradient(output: Tensor2, target: Tensor2): (g: Tensor2)
    requires |target| == |output|
    requires forall b :: 0 <= b < |target| ==> |target[b]| == |output[b]|
    ensures |g| == |target|
    ensures forall b :: 0 <= b < |g| ==> |g[b]| == |target[b]|
    ensures forall b, c :: 0 <= b < |g| && 0 <= c < |g[b]| ==>
      g[b][c] == -(output[b][c] * target[b][c]) / (|target| as real)
  {
    seq(|target|, b requires 0 <= b < |target| => LabelGradientRow(output[b], target[b], |target|))
  }

  /** One row of the label gradient, for a batch of `batchSize` rows. */
  function LabelGradientRow(output: seq<real>, target: seq<real>, batchSize: nat): (g: seq<real>)
    requires |target| == |output| && batchSize > 0
    ensures |g| == |target|
    ensures forall c :: 0 <= c < |g| ==> g[c] == -(output[c] * target[c]) / (batchSize as real)
  {
    seq(|target|, c requires 0 <= c < |target| => output[c] * (target[c] * -1.0) / (batchSize as real))
  }

  // ---------------------------------------------------------------------
  // The shift
  // ---------------------------------------------------------------------

  /** After the shift every entry is at most 0 and the row maximum is exactly 0. */
  lemma ShiftedMaxIsZero(row: seq<real>)
    requires |row| > 0
    ensures forall i :: 0 <= i < |row| ==> Shifted(row)[i] <= 0.0
    ensures RowMax(Shifted(row)) == 0.0
  {
    var m := RowMax(row);
    var s := Shifted(row);
    assert forall i :: 0 <= i < |row| ==> s[i] == row[i] - m;
    var k :| 0 <= k < |row| && row[k] == m;
    RowMaxUnique(s, 0.0, k);
  }

  /** Given the row maximum, each shifted entry is the entry minus it. */
  lemma ShiftedAt(row: seq<real>, m: real)
    requires |row| > 0 && RowMax(row) == m
    ensures forall i :: 0 <= i < |row| ==> Shifted(row)[i] == row[i] - m
  {
  }

  /** `row` with `c` added to every entry. */
  function AddConstant(row: seq<real>, c: real): (r: seq<real>)
    ensures |r| == |row|
  {
    seq(|row|, i requires 0 <= i < |row| => row[i] + c)
  }

  /** Adding a constant to a row raises its maximum by that constant. */
  lemma RowMaxAddConstant(row: seq<real>, c: real)
    requires |row| > 0
    ensures RowMax(AddConstant(row, c)) == RowMax(row) + c
  {
    var m := RowMax(row);
    var k :| 0 <= k < |row| && row[k] == m;
    RowMaxUnique(AddConstant(row, c), m + c, k);
  }

  /** Adding a constant to a row does not change its shifted form. */
  lemma ShiftedAddConstant(row: seq<real>, c: real)
    ensures Shifted(AddConstant(row, c)) == Shifted(row)
  {
    if |row| > 0 {
      var m := RowMax(row);
      var moved := AddConstant(row, c);
      RowMaxAddConstant(row, c);
      ShiftedAt(moved, m + c);
      ShiftedAt(row, m);
      forall i | 0 <= i < |row|
        ensures Shifted(moved)[i] == Shifted(row)[i]
      {
        assert moved[i] == row[i] + c;
      }
    }
  }

  /** Adding a constant to a row does not change its softmax. */
  lemma ShiftInvariant(row: seq<real>, c: real, exp: Exp)
    ensures SoftmaxRow(AddConstant(row, c), exp) == SoftmaxRow(row, exp)
  {
    ShiftedAddConstant(row, c);
  }

  /** Shift invariance for a whole batch, with one constant per row. */
  lemma BatchShiftInvariant(x: Tensor2, cs: seq<real>, exp: Exp)
    requires |cs| == |x|
    ensures SoftmaxRows(seq(|x|, b requires 0 <= b < |x| => AddConstant(x[b], cs[b])), exp)
         == SoftmaxRows(x, exp)
  {
    forall b | 0 <= b < |x|
      ensures SoftmaxRow(AddConstant(x[b], cs[b]), exp) == SoftmaxRow(x[b], exp)
    {
      ShiftInvariant(x[b], cs[b], exp);
    }
  }

  // ---------------------------------------------------------------------
  // Normalisation
  // ---------------------------------------------------------------------

  /**
   * Normalising non-empty positive weights scales them by a positive `k`
   * with total * k == 1, the inverse of their total.
   */
  lemma NormalisedScale(e: seq<real>) returns (k: real)
    requires |e| > 0
    requires forall i :: 0 <= i < |e| ==> e[i] > 0.0
    ensures k > 0.0 && Sum(e) * k == 1.0
    ensures Normalised(e) == Scaled(e, k)
  {
    SumPositive(e);
    k := 1.0 / Sum(e);
    InverseShare(Sum(e));
  }

  /** A positive total times its inverse is 1. */
  lemma InverseShare(total: real)
    requires total > 0.0
    ensures 1.0 / total > 0.0
    ensures total * (1.0 / total) == 1.0
  {
  }

  /** Positive entries scaled by a positive factor stay positive. */
  lemma ScaledPositive(s: seq<real>, k: real)
    requires k > 0.0
    requires forall i :: 0 <= i < |s| ==> s[i] > 0.0
    ensures forall i :: 0 <= i < |s| ==> Scaled(s, k)[i] > 0.0
  {
  }

  /** Positive weights normalise to a probability distribution. */
  lemma NormalisedIsDistribution(e: seq<real>)
    requires |e| > 0
    requires forall i :: 0 <= i < |e| ==> e[i] > 0.0
    ensures forall i :: 0 <= i < |e| ==> 0.0 < Normalised(e)[i] <= 1.0
    ensures Sum(Normalised(e)) == 1.0
  {
    var k := NormalisedScale(e);
    var r := Scaled(e, k);
    SumScaled(e, k);
    ScaledPositive(e, k);
    SumPositive(r);
  }

  /** `n` equal positive weights normalise to `1/n` each. */
  lemma NormalisedConstant(e: seq<real>, w: real)
    requires |e| > 0 && w > 0.0
    requires forall i :: 0 <= i < |e| ==> e[i] == w
    ensures Normalised(e) == seq(|e|, _ => 1.0 / |e| as real)
  {
    var k := NormalisedScale(e);
    SumConstant(e, w);
    var n := |e| as real;
    UniformShare(w, n, k);
    forall i | 0 <= i < |e|
      ensures Scaled(e, k)[i] == 1.0 / n
    {
      assert Scaled(e, k)[i] == e[i] * k;
    }
  }

  /** Each of `n` equal positive weights is a 1/n share of their total. */
  lemma UniformShare(w: real, n: real, k: real)
    requires w > 0.0 && n > 0.0 && (n * w) * k == 1.0
    ensures w * k == 1.0 / n
  {
  }

  // ---------------------------------------------------------------------
  // Properties of the forward map
  // ---------------------------------------------------------------------

  /** Every output row of a non-empty input row is a probability distribution. */
  lemma RowIsDistribution(row: seq<real>, exp: Exp)
    requires |row| > 0
    ensures forall i :: 0 <= i < |row| ==> 0.0 < SoftmaxRow(row, exp)[i] <= 1.0
    ensures Sum(SoftmaxRow(row, exp)) == 1.0
  {
    NormalisedIsDistribution(Exponentiated(Shifted(row), exp));
  }

  /** The same for every row of a batch. */
  lemma BatchIsDistribution(x: Tensor2, exp: Exp)
    ensures forall b :: 0 <= b < |x| && |x[b]| > 0 ==>
      Sum(SoftmaxRows(x, exp)[b]) == 1.0 &&
      forall c :: 0 <= c < |x[b]| ==> 0.0 < SoftmaxRows(x, exp)[b][c] <= 1.0
  {
    forall b | 0 <= b < |x| && |x[b]| > 0
      ensures Sum(SoftmaxRows(x, exp)[b]) == 1.0
      ensures forall c :: 0 <= c < |x[b]| ==> 0.0 < SoftmaxRows(x, exp)[b][c] <= 1.0
    {
      RowIsDistribution(x[b], exp);
    }
  }

  /** A row of equal entries becomes the uniform distribution. */
  lemma UniformRow(row: seq<real>, v: real, exp: Exp)
    requires |row| > 0
    requires forall i :: 0 <= i < |row| ==> row[i] == v
    ensures SoftmaxRow(row, exp) == seq(|row|, _ => 1.0 / |row| as real)
  {
    RowMaxUnique(row, v, 0);
    var e := Exponentiated(Shifted(row), exp);
    assert forall i :: 0 <= i < |e| ==> e[i] == exp(0.0);
    NormalisedConstant(e, exp(0.0));
  }

  /** The input row [5, 5] produces [0.5, 0.5]. */
  lemma EqualScoresExample(x: Tensor2, exp: Exp)
    requires x == [[5.0, 5.0]]
    ensures SoftmaxRows(x, exp) == [[0.5, 0.5]]
  {
    EqualScoresRow(x[0], exp);
  }

  lemma EqualScoresRow(row: seq<real>, exp: Exp)
    requires row == [5.0, 5.0]
    ensures SoftmaxRow(row, exp) == [0.5, 0.5]
  {
    UniformRow(row, 5.0, exp);
    UniformPairIsHalves(SoftmaxRow(row, exp));
  }

  /** The uniform distribution on two classes is [0.5, 0.5]. */
  lemma UniformPairIsHalves(r: seq<real>)
    requires r == seq(2, _ => 1.0 / 2 as real)
    ensures r == [0.5, 0.5]
  {
  }

  // ---------------------------------------------------------------------
  // Properties of the backward map
  // ---------------------------------------------------------------------

  /** The label gradient vanishes wherever the target is 0. */
  lemma LabelGradientZeroOffTarget(output: Tensor2, target: Tensor2, b: nat, c: nat)
    requires |target| == |output|
    requires forall k :: 0 <= k < |target| ==> |target[k]| == |output[k]|
    requires b < |target| && c < |target[b]| && target[b][c] == 0.0
    ensures LabelGradient(output, target)[b][c] == 0.0
  {
  }

  /** With a positive probability and batch size, -(p * t) / n is negative exactly when t is positive. */
  lemma NegatedShareSign(p: real, t: real, n: real)
    requires p > 0.0 && n > 0.0 && t >= 0.0
    ensures -(p * t) / n < 0.0 <==> t > 0.0
    ensures -(p * t) / n <= 0.0
  {
    if t > 0.0 {
      assert p * t > 0.0;
    }
  }

  /** The sign of the label gradient for any strictly positive cached output. */
  lemma PositiveOutputGradientSign(output: Tensor2, target: Tensor2)
    requires |target| == |output|
    requires forall b :: 0 <= b < |target| ==> |target[b]| == |output[b]|
    requires forall b, c :: 0 <= b < |output| && 0 <= c < |output[b]| ==> output[b][c] > 0.0
    requires forall b, c :: 0 <= b < |target| && 0 <= c < |target[b]| ==> target[b][c] >= 0.0
    ensures forall b, c :: 0 <= b < |target| && 0 <= c < |target[b]| ==>
      (LabelGradient(output, target)[b][c] < 0.0 <==> target[b][c] > 0.0)
    ensures forall b, c :: 0 <= b < |target| && 0 <= c < |target[b]| ==>
      LabelGradient(output, target)[b][c] <= 0.0
  {
    var g := LabelGradient(output, target);
    forall b, c | 0 <= b < |target| && 0 <= c < |target[b]|
      ensures g[b][c] < 0.0 <==> target[b][c] > 0.0
      ensures g[b][c] <= 0.0
    {
      NegatedShareSign(output[b][c], target[b][c], |target| as real);
    }
  }

  /**
   * After a forward pass, a non-negative target (such as a one-hot label)
   * gets a gradient that is negative exactly where the target is positive
   * and 0 elsewhere.
   */
  lemma LabelGradientSign(x: Tensor2, target: Tensor2, exp: Exp)
    requires |target| == |x|
    requires forall b :: 0 <= b < |x| ==> |target[b]| == |x[b]|
    requires forall b, c :: 0 <= b < |x| && 0 <= c < |x[b]| ==> target[b][c] >= 0.0
    ensures forall b, c :: 0 <= b < |x| && 0 <= c < |x[b]| ==>
      (LabelGradient(SoftmaxRows(x, exp), target)[b][c] < 0.0 <==> target[b][c] > 0.0)
    ensures forall b, c :: 0 <= b < |x| && 0 <= c < |x[b]| ==>
      LabelGradient(SoftmaxRows(x, exp), target)[b][c] <= 0.0
  {
    var y := SoftmaxRows(x, exp);
    forall b | 0 <= b < |x|
      ensures forall c :: 0 <= c < |y[b]| ==> y[b][c] > 0.0
    {
      if |x[b]| > 0 {
        RowIsDistribution(x[b], exp);
      }
    }
    PositiveOutputGradientSign(y, target);
  }

  // ---------------------------------------------------------------------
  // The layer object
  // ---------------------------------------------------------------------

  /** A Softmax layer instance and its cached forward output. */
  class Softmax {
    /** The output of the last forward pass. */
    var output: Tensor2

    constructor ()
      ensures output == []
    {
      output := [];
    }

    method Forward(input: Tensor2, exp: Exp) returns (r: Tensor2)
      modifies this
      ensures r == SoftmaxRows(input, exp)
      ensures output == r
    {
      output := SoftmaxRows(input, exp);
      r := output;
    }

    /**
     * `target` holds the labels. The batch sizes must agree (the C++ layer
     * asserts this); every row must also match, as the elementwise product
     * demands.
     */
    method Backward(target: Tensor2) returns (g: Tensor2)
      requires |target| == |output|
      requires forall b :: 0 <= b < |target| ==> |target[b]| == |output[b]|
      ensures g == LabelGradient(output, target)
    {
      g := LabelGradient(output, target);
    }
  }
}
