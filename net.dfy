/**
 * The network container: an ordered sequence of owned layers, grown by
 * appending, whose forward pass threads a tensor through every layer in
 * insertion order. Each layer caches what its own backward pass needs.
 */
module NeuralNet {
  import opened Tensors
  import ReluLayer
  import SoftmaxLayer

  /**
   * A Dense layer's forward pass under its current weights and bias, given
   * the number of output columns: any map that turns `n` rows into `n`
   * rows of that many columns. The weights themselves are not modelled.
   */
  type DenseForward = f: (nat, Tensor2) -> Tensor2 | forall outDim, x :: HasShape(f(outDim, x), |x|, outDim)
    witness (outDim: nat, x: Tensor2) => Filled(|x|, outDim, 0.0)

  /** A layer owned by the net, with the tensor it cached in its last forward pass. */
  datatype Layer =
    | Relu(cache: Tensor2)
    | Softmax(cache: Tensor2)
    | Dense(inDim: nat, outDim: nat, forward: DenseForward, cache: Tensor2)

  /** The layer with its cache cleared: what it is, apart from what it last computed. */
  function Kind(layer: Layer): Layer
  {
    layer.(cache := [])
  }

  /**
   * What a layer keeps from a forward pass that maps `x` to `y`: Relu and
   * Softmax keep their output, Dense keeps its input for the weight gradient.
   */
  function Cached(layer: Layer, x: Tensor2, y: Tensor2): Tensor2
  {
    if layer.Dense? then x else y
  }

  /** Relu on a rank-2 tensor: the elementwise map on every row. */
  function ReluRows(x: Tensor2): (r: Tensor2)
    ensures |r| == |x|
    ensures forall b :: 0 <= b < |x| ==> r[b] == ReluLayer.Rectified(x[b])
  {
    seq(|x|, b requires 0 <= b < |x| => ReluLayer.Rectified(x[b]))
  }

  /**
   * One layer's forward pass; it depends on the layer's kind and weights,
   * not on its cache. Every layer keeps the batch size; Relu and Softmax
   * keep each row's width and Dense gives every row `outDim` columns.
   */
  function Apply(layer: Layer, x: Tensor2, exp: SoftmaxLayer.Exp): (r: Tensor2)
    ensures |r| == |x|
    ensures forall b :: 0 <= b < |x| ==> |r[b]| == if layer.Dense? then layer.outDim else |x[b]|
  {
    match layer
    case Relu(_) => ReluRows(x)
    case Softmax(_) => SoftmaxLayer.SoftmaxRows(x, exp)
    case Dense(_, outDim, forward, _) => forward(outDim, x)
  }

  /**
   * The left fold of the layers' forward passes over `x`, first layer
   * first; whatever the layers, it keeps the batch size.
   */
  function Run(layers: seq<Layer>, x: Tensor2, exp: SoftmaxLayer.Exp): (r: Tensor2)
    ensures |r| == |x|
  {
    if |layers| == 0 then x else Run(layers[1..], Apply(layers[0], x, exp), exp)
  }

  /** Running a prefix and then one more layer is running the longer prefix. */
  lemma {:induction false} RunSnoc(layers: seq<Layer>, last: Layer, x: Tensor2, exp: SoftmaxLayer.Exp)
    ensures Run(layers + [last], x, exp) == Apply(last, Run(layers, x, exp), exp)
  {
    if |layers| > 0 {
      assert (layers + [last])[1..] == layers[1..] + [last];
      RunSnoc(layers[1..], last, Apply(layers[0], x, exp), exp);
    }
  }

  /**
   * The layers after a forward pass on `x`: the same layers in the same
   * order, each holding the cache of the step it computed.
   */
  function Threaded(layers: seq<Layer>, x: Tensor2, exp: SoftmaxLayer.Exp): (r: seq<Layer>)
    ensures |r| == |layers|
  {
    if |layers| == 0 then []
    else
      var y := Apply(layers[0], x, exp);
      [layers[0].(cache := Cached(layers[0], x, y))] + Threaded(layers[1..], y, exp)
  }

  /** Threading one more layer appends it with the cache of its own step. */
  lemma {:induction false} ThreadedSnoc(layers: seq<Layer>, last: Layer, x: Tensor2, exp: SoftmaxLayer.Exp)
    ensures Threaded(layers + [last], x, exp)
         == Threaded(layers, x, exp) + [last.(cache := Cached(last, Run(layers, x, exp), Run(layers + [last], x, exp)))]
  {
    RunSnoc(layers, last, x, exp);
    if |layers| > 0 {
      assert (layers + [last])[1..] == layers[1..] + [last];
      ThreadedSnoc(layers[1..], last, Apply(layers[0], x, exp), exp);
    }
  }

  /** Replacing the head of the unprocessed part extends the processed part by one. */
  lemma ReplaceAtBoundary(done: seq<Layer>, rest: seq<Layer>, refreshed: Layer)
    requires |rest| > 0
    ensures (done + rest)[|done|] == rest[0]
    ensures (done + rest)[|done| := refreshed] == done + [refreshed] + rest[1..]
  {
  }

  /** One iteration of the forward loop: layer `i` runs and fills its cache. */
  lemma ForwardStep(layers: seq<Layer>, i: nat, x: Tensor2, exp: SoftmaxLayer.Exp)
    requires i < |layers|
    ensures (Threaded(layers[..i], x, exp) + layers[i..])[i] == layers[i]
    ensures Run(layers[..i + 1], x, exp) == Apply(layers[i], Run(layers[..i], x, exp), exp)
    ensures Threaded(layers[..i + 1], x, exp) + layers[i + 1..]
         == (Threaded(layers[..i], x, exp) + layers[i..])[i := layers[i].(cache := Cached(layers[i], Run(layers[..i], x, exp), Run(layers[..i + 1], x, exp)))]
  {
    var prefix, rest := layers[..i], layers[i..];
    assert layers[..i + 1] == prefix + [layers[i]];
    assert rest[1..] == layers[i + 1..];
    RunSnoc(prefix, layers[i], x, exp);
    ThreadedSnoc(prefix, layers[i], x, exp);
    ReplaceAtBoundary(Threaded(prefix, x, exp), rest,
      layers[i].(cache := Cached(layers[i], Run(prefix, x, exp), Run(layers[..i + 1], x, exp))));
  }

  /** A forward pass neither adds, removes nor reorders layers; it only refreshes caches. */
  lemma {:induction false} ThreadedKeepsKinds(layers: seq<Layer>, x: Tensor2, exp: SoftmaxLayer.Exp)
    ensures |Threaded(layers, x, exp)| == |layers|
    ensures forall i :: 0 <= i < |layers| ==> Kind(Threaded(layers, x, exp)[i]) == Kind(layers[i])
  {
    if |layers| > 0 {
      ThreadedKeepsKinds(layers[1..], Apply(layers[0], x, exp), exp);
    }
  }

  /**
   * After a forward pass, layer `i` caches what it kept from its own step,
   * which maps the output of the first `i` layers to that of the first `i + 1`.
   */
  lemma {:induction false} ThreadedCaches(layers: seq<Layer>, x: Tensor2, exp: SoftmaxLayer.Exp)
    ensures forall i :: 0 <= i < |layers| ==>
      Threaded(layers, x, exp)[i].cache
        == Cached(layers[i], Run(layers[..i], x, exp), Run(layers[..i + 1], x, exp))
  {
    if |layers| > 0 {
      var y := Apply(layers[0], x, exp);
      ThreadedCaches(layers[1..], y, exp);
      assert layers[..1][1..] == [];
      forall i | 1 <= i < |layers|
        ensures Threaded(layers, x, exp)[i].cache
             == Cached(layers[i], Run(layers[..i], x, exp), Run(layers[..i + 1], x, exp))
      {
        assert layers[..i][1..] == layers[1..][..i - 1];
        assert layers[..i + 1][1..] == layers[1..][..i];
      }
    }
  }

  /**
   * After a forward pass the last layer's cache is the net's result when it
   * is a Relu or a Softmax, and the input it was handed when it is a Dense.
   */
  lemma LastCache(layers: seq<Layer>, x: Tensor2, exp: SoftmaxLayer.Exp)
    requires |layers| > 0
    ensures !layers[|layers| - 1].Dense? ==> Threaded(layers, x, exp)[|layers| - 1].cache == Run(layers, x, exp)
    ensures layers[|layers| - 1].Dense? ==>
      Threaded(layers, x, exp)[|layers| - 1].cache == Run(layers[..|layers| - 1], x, exp)
  {
    ThreadedCaches(layers, x, exp);
    assert layers[..|layers|] == layers;
  }

  /** Running two nets one after the other is running their concatenation. */
  lemma {:induction false} RunAppend(first: seq<Layer>, second: seq<Layer>, x: Tensor2, exp: SoftmaxLayer.Exp)
    ensures Run(first + second, x, exp) == Run(second, Run(first, x, exp), exp)
  {
    if |first| > 0 {
      assert (first + second)[1..] == first[1..] + second;
      RunAppend(first[1..], second, Apply(first[0], x, exp), exp);
    } else {
      assert first + second == second;
    }
  }

  /** The row width after a layer: Dense sets it, Relu and Softmax keep it. */
  function WidthAfter(layer: Layer, width: nat): nat
  {
    if layer.Dense? then layer.outDim else width
  }

  /** The row width after the whole sequence of layers. */
  function RunWidth(layers: seq<Layer>, width: nat): nat
  {
    if |layers| == 0 then width else RunWidth(layers[1..], WidthAfter(layers[0], width))
  }

  /** A (batch x width) input gives a (batch x RunWidth) output. */
  lemma {:induction false} RunShape(layers: seq<Layer>, x: Tensor2, batch: nat, width: nat, exp: SoftmaxLayer.Exp)
    requires HasShape(x, batch, width)
    ensures HasShape(Run(layers, x, exp), batch, RunWidth(layers, width))
  {
    if |layers| > 0 {
      var y := Apply(layers[0], x, exp);
      assert HasShape(y, batch, WidthAfter(layers[0], width));
      RunShape(layers[1..], y, batch, WidthAfter(layers[0], width), exp);
    }
  }

  /** Every layer is a Relu. */
  predicate AllRelu(layers: seq<Layer>)
  {
    forall i :: 0 <= i < |layers| ==> layers[i].Relu?
  }

  /** A non-empty stack of Relu layers computes the same as a single Relu. */
  lemma {:induction false} ReluStackIsOneRelu(layers: seq<Layer>, x: Tensor2, exp: SoftmaxLayer.Exp)
    requires |layers| > 0 && AllRelu(layers)
    ensures Run(layers, x, exp) == ReluRows(x)
  {
    if |layers| > 1 {
      ReluStackIsOneRelu(layers[1..], ReluRows(x), exp);
      forall b | 0 <= b < |x|
        ensures ReluRows(ReluRows(x))[b] == ReluRows(x)[b]
      {
        ReluLayer.RectifiedIdempotent(x[b]);
      }
    }
  }

  /** The network object: it owns its layers, in insertion order. */
  class Net {
    var layers: seq<Layer>

    constructor ()
      ensures layers == []
    {
      layers := [];
    }

    /** Appends a layer and returns this net, so that calls can be chained. */
    method Add(layer: Layer) returns (self: Net)
      modifies this
      ensures self == this
      ensures layers == old(layers) + [layer]
    {
      layers := layers + [layer];
      self := this;
    }

    /**
     * Appends a new Dense layer with no cache yet; `forward` is its forward
     * pass under the weights it starts with.
     */
    method AddDense(inDim: nat, outDim: nat, forward: DenseForward) returns (self: Net)
      modifies this
      ensures self == this
      ensures layers == old(layers) + [Dense(inDim, outDim, forward, [])]
    {
      self := Add(Dense(inDim, outDim, forward, []));
    }

    /** Appends a new Relu layer with no cache yet. */
    method AddRelu() returns (self: Net)
      modifies this
      ensures self == this
      ensures layers == old(layers) + [Relu([])]
    {
      self := Add(Relu([]));
    }

    /** Appends a new Softmax layer with no cache yet. */
    method AddSoftmax() returns (self: Net)
      modifies this
      ensures self == this
      ensures layers == old(layers) + [Softmax([])]
    {
      self := Add(Softmax([]));
    }

    /**
     * With no layers, returns the empty tensor and changes nothing. Otherwise
     * threads `input` through every layer in order, each layer caching what
     * its backward pass needs, and returns the last layer's output.
     */
    method Forward(input: Tensor2, exp: SoftmaxLayer.Exp) returns (r: Tensor2)
      modifies this
      ensures old(layers) == [] ==> r == [] && layers == old(layers)
      ensures old(layers) != [] ==> r == Run(old(layers), input, exp)
      ensures layers == Threaded(old(layers), input, exp)
      ensures |layers| == |old(layers)|
      ensures forall i :: 0 <= i < |layers| ==> Kind(layers[i]) == Kind(old(layers)[i])
      ensures forall i :: 0 <= i < |layers| ==>
        layers[i].cache == Cached(old(layers)[i], Run(old(layers)[..i], input, exp), Run(old(layers)[..i + 1], input, exp))
      ensures layers != [] && !layers[|layers| - 1].Dense? ==> layers[|layers| - 1].cache == r
    {
      if |layers| == 0 {
        return [];
      }
      ghost var original := layers;
      var current := input;
      var i := 0;
      while i < |layers|
        invariant 0 <= i <= |original| == |layers|
        invariant current == Run(original[..i], input, exp)
        invariant layers == Threaded(original[..i], input, exp) + original[i..]
      {
        ForwardStep(original, i, input, exp);
        var next := Apply(layers[i], current, exp);
        layers := layers[i := layers[i].(cache := Cached(layers[i], current, next))];
        current := next;
        i := i + 1;
      }
      assert original[..i] == original;
      r := current;
      ThreadedKeepsKinds(original, input, exp);
      ThreadedCaches(original, input, exp);
      LastCache(original, input, exp);
    }
  }

  /**
   * The three-layer network 784 -> 100 -> 100 -> 10, built by chained
   * appends, maps a (1 x 784) input to a (1 x 10) output, whatever the
   * weights of its Dense layers.
   */
  method DenseChainScenario(input: Tensor2, exp: SoftmaxLayer.Exp, w1: DenseForward, w2: DenseForward, w3: DenseForward)
    returns (r: Tensor2)
    requires HasShape(input, 1, 784)
    ensures HasShape(r, 1, 10)
  {
    var net := new Net();
    var chained := net.AddDense(784, 100, w1);
    chained := chained.AddDense(100, 100, w2);
    chained := chained.AddDense(100, 10, w3);
    ghost var layers := [Dense(784, 100, w1, []), Dense(100, 100, w2, []), Dense(100, 10, w3, [])];
    assert net.layers == layers;
    r := net.Forward(input, exp);
    RunShape(layers, input, 1, 784, exp);
    assert RunWidth(layers[2..], 100) == 10;
    assert RunWidth(layers[1..], 100) == 10;
    assert RunWidth(layers, 784) == 10;
  }
}
