# nn_cpp layers and network container, in Dafny

This project models the core of a small feed-forward neural-network library
written over the Eigen tensor library:

- the **Relu** layer (`nn/layers/Relu.h`): an elementwise `max(0, x)` whose
  result is cached in the layer, and a backward pass that lets the incoming
  gradient through exactly where that cached output is positive;
- the **Softmax** layer (`nn/layers/Softmax.h`): a numerically stable row-wise
  softmax on a (batch x classes) tensor, cached in the layer, and a backward
  pass that treats its argument as label targets and returns
  `-(output * target) / batchSize`;
- the **Net** container (`nn/Net.h`): an ordered sequence of owned layers,
  grown by chained `add` calls, whose `forward` returns an empty tensor when
  there are no layers and otherwise threads the input through every layer in
  insertion order.

Element values are Dafny `real`s. A tensor of any rank is modelled, for the
elementwise Relu layer, by the sequence of its entries (`seq<real>`). A rank-2
(batch x classes) tensor is `seq<seq<real>>`, one row per example
(`Tensors.Tensor2`). The Net in the model works on rank-2 tensors, the rank
that the library's own tests use.

Files:

- `tensors.dfy`: module `Tensors`, the rank-2 tensor type and its shape predicate.
- `relu.dfy`: module `ReluLayer`, the Relu maps as functions and the layer as a class with its cached `output`.
- `softmax.dfy`: module `SoftmaxLayer`, the softmax stages (shift by the row maximum, exponentiate, normalise), the label gradient, their properties and the layer class.
- `net.dfy`: module `NeuralNet`, the `Layer` datatype (`Relu | Softmax | Dense(inDim, outDim, forward)`, each with the tensor it cached in its last forward pass), the specification of a forward pass as a left fold (`Run`), the layers after it (`Threaded`), and the `Net` class.

The exponential is the tensor library's. The model takes it as a parameter of
type `SoftmaxLayer.Exp`, which is any function `real -> real` that is strictly
positive. Every softmax property below therefore holds for every such
function, and in particular for the real exponential.

The Dense layer's source is not part of this model. Each Dense layer carries
its own forward map (type `NeuralNet.DenseForward`), standing for `input · W
(+ bias)` under that layer's weights: any map that turns a batch of rows into
the same number of rows of `outDim` columns. Every property of the net below
holds whatever those maps are. As the design of the library describes, a Dense
layer caches its input for its weight gradient, while Relu and Softmax cache
their output.

The layer classes `ReluLayer.Relu` and `SoftmaxLayer.Softmax` stand alone. The
net's `Layer` values use the same functions for their forward passes
(`ReluLayer.Rectified` row by row, `SoftmaxLayer.SoftmaxRows`), but the net
never calls a backward pass, so their caches are not handed to one.

## Model

| member | source | states |
|---|---|---|
| `ReluLayer.Rectify` | nn/layers/Relu.h:69 | the result is at least 0 and at least the input, and is either the input or 0: it is `max(0, v)` |
| `ReluLayer.Rectified` | nn/layers/Relu.h:68-71 | forward keeps the shape, never yields a negative entry, passes strictly positive entries unchanged and maps every entry `<= 0` to 0 |
| `ReluLayer.MaskedGradient` | nn/layers/Relu.h:73-79 | backward keeps the gradient's shape, passes `grad[i]` where the cached output is `> 0`, and gives 0 where it is `<= 0`, including exactly 0 |
| `ReluLayer.RectifiedIdempotent` | nn/layers/Relu.h:69 | `forward(forward(x)) == forward(x)` |
| `ReluLayer.RectifiedNonPositiveIsZero` | nn/layers/Relu.h:69 | an input with no positive entry gives an all-zero output of the same length |
| `ReluLayer.MaskIsInputSign` | nn/layers/Relu.h:75-78 | masking by the cached output is masking by the input: after `forward(x)`, backward passes `grad[i]` exactly where `x[i] > 0` |
| `ReluLayer.Relu.constructor` | nn/layers/Relu.h:23 | a new layer has an empty cached output |
| `ReluLayer.Relu.Forward` | nn/layers/Relu.h:68-71 | returns `max(0, x)` elementwise and leaves exactly that tensor in `output` |
| `ReluLayer.Relu.Backward` | nn/layers/Relu.h:73-79 | returns the gradient masked by the cached output; does not change the layer |
| `ReluLayer.Relu.Step` | nn/layers/Relu.h:51 | no-op: the cached output is unchanged |
| `ReluLayer.Relu.RegisterOptimizer` | nn/layers/Relu.h:56-61 | no-op for either optimizer: the cached output is unchanged |
| `SoftmaxLayer.RowMax` | nn/layers/Softmax.h:57 | the row maximum occurs in the row and bounds every entry |
| `SoftmaxLayer.Shifted` | nn/layers/Softmax.h:57-59 | subtracting the row maximum keeps the row's length and leaves no positive entry, so exponentiating cannot overflow; each entry is the input entry minus `RowMax` (body) |
| `SoftmaxLayer.Exponentiated` | nn/layers/Softmax.h:61 | every exponentiated entry is strictly positive, and the shape is kept |
| `SoftmaxLayer.Normalised` | nn/layers/Softmax.h:62-65 | keeps the row's length; its body divides every weight by the row's sum (the sum is proved positive first). Its properties are stated by `NormalisedScale` and `NormalisedIsDistribution` |
| `SoftmaxLayer.SoftmaxRow` | nn/layers/Softmax.h:57-65 | softmax of one row keeps its length; its body is shift, then exponentiate, then normalise, in the order of the source |
| `SoftmaxLayer.SoftmaxRows` | nn/layers/Softmax.h:53-67 | forward keeps the input's shape: batchSize rows, each as wide as its input row |
| `SoftmaxLayer.LabelGradient` | nn/layers/Softmax.h:69-75 | backward keeps the target's shape and each entry is `-(output[b][c] * target[b][c]) / batchSize` |
| `SoftmaxLayer.LabelGradientRow` | nn/layers/Softmax.h:74 | one row of the backward formula: entry `c` is `-(output[c] * target[c]) / batchSize` |
| `SoftmaxLayer.ShiftedMaxIsZero` | nn/layers/Softmax.h:57-59 | after subtracting the row maximum every entry is `<= 0` and the new row maximum is exactly 0 |
| `SoftmaxLayer.RowMaxAddConstant` | nn/layers/Softmax.h:57 | adding `c` to every entry raises the row maximum by exactly `c` |
| `SoftmaxLayer.ShiftedAddConstant` | nn/layers/Softmax.h:57-59 | adding a constant to every entry of a row leaves the shifted row unchanged |
| `SoftmaxLayer.ShiftInvariant` | nn/layers/Softmax.h:57-65 | adding a constant to every entry of a row leaves its softmax unchanged |
| `SoftmaxLayer.BatchShiftInvariant` | nn/layers/Softmax.h:53-67 | adding a per-row constant to every row of a batch leaves the forward result unchanged |
| `SoftmaxLayer.NormalisedScale` | nn/layers/Softmax.h:62-65 | normalisation multiplies every weight by one positive factor `k` with `sum * k == 1` (the inverse of the row sum) |
| `SoftmaxLayer.NormalisedIsDistribution` | nn/layers/Softmax.h:62-65 | normalised positive weights lie in (0, 1] and sum to 1 |
| `SoftmaxLayer.NormalisedConstant` | nn/layers/Softmax.h:62-65 | `n` equal positive weights normalise to `1/n` each |
| `SoftmaxLayer.RowIsDistribution` | nn/layers/Softmax.h:57-65 | every entry of a softmax row is in (0, 1] and the row sums to 1 |
| `SoftmaxLayer.BatchIsDistribution` | nn/layers/Softmax.h:53-67 | every non-empty output row of forward is a probability distribution |
| `SoftmaxLayer.UniformRow` | nn/layers/Softmax.h:57-65 | a row whose entries are all equal maps to `1/classDims` in every position |
| `SoftmaxLayer.EqualScoresExample` | tests/NetTests.cpp:71-77 | the input row `[5, 5]` gives `[0.5, 0.5]` |
| `SoftmaxLayer.LabelGradientZeroOffTarget` | nn/layers/Softmax.h:74 | the gradient is 0 wherever the target is 0 |
| `SoftmaxLayer.PositiveOutputGradientSign` | nn/layers/Softmax.h:74 | for a strictly positive cached output and a non-negative target, a gradient entry is negative exactly where the target is positive, and never positive |
| `SoftmaxLayer.LabelGradientSign` | nn/layers/Softmax.h:62-74 | after a forward pass, a non-negative target (a one-hot label) gets a gradient that is negative exactly where the target is positive and 0 elsewhere |
| `SoftmaxLayer.Softmax.constructor` | nn/layers/Softmax.h:22 | a new layer has an empty cached output |
| `SoftmaxLayer.Softmax.Forward` | nn/layers/Softmax.h:53-67 | returns the row-wise softmax and leaves exactly that tensor in `output` |
| `SoftmaxLayer.Softmax.Backward` | nn/layers/Softmax.h:69-75 | requires the target's batch size to equal the cached output's; returns the label gradient; does not change the layer |
| `NeuralNet.ReluRows` | nn/layers/Relu.h:68-71 | Relu on a rank-2 tensor keeps the batch size and applies the elementwise map to every row |
| `NeuralNet.Apply` | nn/Net.h:45 | one layer's forward pass (`layer->forward(currentInput)`) keeps the batch size; Relu and Softmax keep every row's width and Dense gives every row `outDim` columns |
| `NeuralNet.Run` | nn/Net.h:43-47 | the loop's result is the left fold of the layers' forward passes over the input, in insertion order (body); whatever the layers, it keeps the batch size |
| `NeuralNet.RunSnoc` | nn/Net.h:43-47 | running one more layer applies that layer to the output of the layers before it |
| `NeuralNet.RunAppend` | nn/Net.h:43-47 | running `first + second` is running `second` on the output of `first` |
| `NeuralNet.RunShape` | nn/Net.h:43-47 | a (batch x width) input gives a (batch x w) output, where `w` is the last Dense layer's `outDim` (or `width` if there is none) |
| `NeuralNet.ReluStackIsOneRelu` | nn/Net.h:43-47 | a non-empty net of Relu layers only gives the same result as one Relu |
| `NeuralNet.Threaded` | nn/Net.h:44-45 | a forward pass leaves as many layers as there were |
| `NeuralNet.ThreadedSnoc` | nn/Net.h:44-45 | threading one more layer appends it, with the cache of its own step (its output, or its input for Dense) |
| `NeuralNet.ForwardStep` | nn/Net.h:44-45 | one loop iteration: layer `i` is still the original layer, and running and caching it extends the prefix by one |
| `NeuralNet.ThreadedKeepsKinds` | nn/Net.h:44 | a forward pass neither adds, removes nor reorders layers; only caches change |
| `NeuralNet.ThreadedCaches` | nn/Net.h:44-46 | after a forward pass, layer `i` caches the output of the first `i + 1` layers if it is a Relu or a Softmax, and its input (the output of the first `i` layers) if it is a Dense |
| `NeuralNet.LastCache` | nn/Net.h:45-47 | after a forward pass, a Relu or Softmax last layer caches the net's result; a Dense last layer caches the input it was handed |
| `NeuralNet.Net.constructor` | nn/Net.h:31 | a new net has no layers |
| `NeuralNet.Net.Add` | nn/Net.h:97-102 | appends the layer at the end, leaves all earlier layers unchanged, and returns this same net |
| `NeuralNet.Net.AddDense` | nn/Net.h:62-67 | appends a newly constructed Dense layer (no cache yet, with the given forward map for its initial weights) and returns this same net; appending a layer that was already used is `Add(layer)` |
| `NeuralNet.Net.AddRelu` | nn/Net.h:74-78 | appends a newly constructed Relu layer (no cache yet) and returns this same net; appending a layer that was already used is `Add(layer)` |
| `NeuralNet.Net.AddSoftmax` | nn/Net.h:85-89 | appends a newly constructed Softmax layer (no cache yet) and returns this same net; appending a layer that was already used is `Add(layer)` |
| `NeuralNet.Net.Forward` | nn/Net.h:33-48 | with no layers, returns the empty tensor and changes nothing; otherwise returns the left fold of the layers over the input and leaves the same layers in the same order. Layer `i` caches the output of the first `i + 1` layers, or for a Dense its input. A Relu or Softmax last layer caches the result |
| `NeuralNet.DenseChainScenario` | tests/NetTests.cpp:18-33 | three Dense layers 784 -> 100 -> 100 -> 10, added by chaining, map a (1 x 784) input to a (1 x 10) output, whatever their weights |

## Left out

- Floating-point rounding, overflow and underflow: values are exact reals. The test expecting `[-100, 100]` to give `[0, 1]` (tests/NetTests.cpp:72, 78-79) holds only because `exp(-200)` underflows in `float`. Over reals the result is strictly between 0 and 1, so the model does not state it.
- The exponential is a parameter that is only known to be strictly positive. No other property of `exp` is used or needed.
- Eigen's internals (broadcast, reshape, reductions, lazy expressions) are not modelled. Tensors are sequences, and a row-wise reduction is a function on one row.
- `ReluLayer.Relu.Backward` and `SoftmaxLayer.Softmax.Backward`: their requirement that every row of the argument matches the cached output comes from Eigen's elementwise operations on equal shapes, not from the layers' own code. Before any forward pass the cache is empty, so only an empty gradient is accepted.
- `SoftmaxLayer.Softmax.Backward`: the batch-size `assert` (nn/layers/Softmax.h:73) becomes a precondition. Its failure mode (abort, or nothing under `NDEBUG`) is not modelled.
- Dense's weights, bias, backward pass and optimizer step are left out, because its source is not part of this model. Its forward pass is an arbitrary shape-respecting map per layer, and its `inDim` is not checked against the input width.
- `NeuralNet.Net.AddDense`: the Dense constructor's `batchSize` and `useBias` arguments are not modelled. Bias is part of the layer's forward map, and the batch size is that of the input.
- The SGD and Adam optimizers are not modelled; `Optimizer` is only a tag. `step` and `registerOptimizer` of the Softmax and Dense layers come from `Layer.h`, which is not part of this model.
- `getName`, `printOutputShape`, `Net::printShapes` (nn/Net.h:104-113) and the "No layers specified" message (nn/Net.h:36) are pure diagnostic I/O.
- `unique_ptr` ownership, templates over rank and element type, and the compile error at nn/Net.h:100 (copying a `unique_ptr` without `std::move`). `NeuralNet.Net.Add` models the intended append.
- Net's forward is modelled for rank-2 tensors only, the rank used by the library's tests.
- No shape check happens between consecutive layers, in the source or in the model.
- Backward passes are not chained through the Net: the source leaves that to an external training loop. The net's `Layer` values therefore have no backward pass, and the layer classes stand alone.
