/**
 * The Relu activation layer: an elementwise max(0, x) whose last result is
 * cached, so that the backward pass can use it as the activation mask.
 * A tensor of any rank is modelled by the sequence of its entries.
 */
module ReluLayer {

  /** The optimizer strategies a layer can be bound to; Relu owns no parameters and ignores them. */
  datatype Optimizer = StochasticGradientDescent | Adam

  /** max(0, v). */
  function Rectify(v: real): (r: real)
    ensures r >= 0.0 && r >= v
    ensures r == v || r == 0.0
  {
    if v > 0.0 then v else 0.0
  }

  /** The forward map: every entry clamped below at 0. */
  function Rectified(x: seq<real>): (r: seq<real>)
    ensures |r| == |x|
    ensures forall i :: 0 <= i < |x| ==> r[i] >= 0.0
    ensures forall i :: 0 <= i < |x| && x[i] > 0.0 ==> r[i] == x[i]
    ensures forall i :: 0 <= i < |x| && x[i] <= 0.0 ==> r[i] == 0.0
  {
    seq(|x|, i requires 0 <= i < |x| => Rectify(x[i]))
  }

  /**
   * The backward map: the incoming gradient where the cached output is
   * strictly positive, 0 elsewhere (an output of exactly 0 is inactive).
   */
  function MaskedGradient(output: seq<real>, grad: seq<real>): (r: seq<real>)
    requires |grad| == |output|
    ensures |r| == |grad|
    ensures forall i :: 0 <= i < |r| && output[i] > 0.0 ==> r[i] == grad[i]
    ensures forall i :: 0 <= i < |r| && output[i] <= 0.0 ==> r[i] == 0.0
  {
    seq(|grad|, i requires 0 <= i < |grad| => if output[i] > 0.0 then grad[i] else 0.0)
  }

  /** Applying Relu twice is the same as applying it once. */
  lemma RectifiedIdempotent(x: seq<real>)
    ensures Rectified(Rectified(x)) == Rectified(x)
  {
  }

  /** An input with no positive entry is mapped to all zeros. */
  lemma RectifiedNonPositiveIsZero(x: seq<real>)
    requires forall i :: 0 <= i < |x| ==> x[i] <= 0.0
    ensures Rectified(x) == seq(|x|, _ => 0.0)
  {
  }

  /**
   * Masking by the cached OUTPUT is masking by the INPUT: after a forward
   * pass on `x`, the gradient passes exactly where `x` was positive.
   */
  lemma MaskIsInputSign(x: seq<real>, grad: seq<real>)
    requires |grad| == |x|
    ensures forall i :: 0 <= i < |x| ==>
      (MaskedGradient(Rectified(x), grad)[i] == if x[i] > 0.0 then grad[i] else 0.0)
  {
  }

  /** A Relu layer instance and its cached forward output. */
  class Relu {
    /** The output of the last forward pass. */
    var output: seq<real>

    constructor ()
      ensures output == []
    {
      output := [];
    }

    method Forward(input: seq<real>) returns (r: seq<real>)
      modifies this
      ensures r == Rectified(input)
      ensures output == r
    {
      output := Rectified(input);
      r := output;
    }

    method Backward(grad: seq<real>) returns (r: seq<real>)
      requires |grad| == |output|
      ensures r == MaskedGradient(output, grad)
    {
      r := MaskedGradient(output, grad);
    }

    /** Relu owns no parameters, so an optimizer step does nothing. */
    method Step()
      ensures output == old(output)
    {
    }

    /** Both optimizer overloads are no-ops on a Relu layer. */
    method RegisterOptimizer(optimizer: Optimizer)
      ensures output == old(output)
    {
    }
  }
}
