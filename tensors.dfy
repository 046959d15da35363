/** Dense rank-2 tensors (batch x classes), stored row by row. */
module Tensors {

  /** A rank-2 tensor: one row of class scores per example in the batch. */
  type Tensor2 = seq<seq<real>>

  /** `x` is rectangular with `rows` rows of `cols` entries each. */
  predicate HasShape(x: Tensor2, rows: nat, cols: nat)
  {
    |x| == rows && forall b :: 0 <= b < |x| ==> |x[b]| == cols
  }

  /** The tensor of the given shape whose every entry is `v`. */
  function Filled(rows: nat, cols: nat, v: real): (x: Tensor2)
    ensures HasShape(x, rows, cols)
    ensures forall b, c :: 0 <= b < rows && 0 <= c < cols ==> x[b][c] == v
  {
    seq(rows, _ => seq(cols, _ => v))
  }
}
