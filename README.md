# smarty_pants `NeuralNetwork` in Dafny

This is a model of `src/neural_network.rs` from the Rust crate smarty_pants. The crate provides a small
evolutionary "neural network". It has hidden layers of neurons, each holding an accumulated activation
and one weight, plus one weight per output. The operations are:

- two constructors: `new` fills every weight with one value, and `new_from` takes a weight matrix;
- weight accessors;
- a forward pass `run`, which adds into the stored activations;
- a random `mutate` of every weight;
- population helpers (`batch_new`, `batch_run`, `batch_mutate`).

The project has three modules:

- `Layers` (layers.dfy) holds the value-level definitions:
  - `Stage` and `Forward`, the recurrence the forward pass computes;
  - `Outputs`, what `run` returns;
  - `Perturb` and `Shift`, what a mutation does;
  - `Weights` and `FromWeights`, the weight views.

  It also holds the lemmas that say what these mean: the per-neuron recurrence on a network with nothing
  accumulated, the geometric growth of a uniform network, mutation bounds, invertibility of a mutation, and
  the weight round trip.
- `NeuralNet` (neural_network.dfy) holds the class `NeuralNetwork`. Its two fields, `hiddenLayers` and
  `outputWeights`, are updated in place by the methods, with the same loops as the Rust code. Each method is
  proved against the `Layers` functions. The module also holds the free functions `batch_run` and
  `batch_mutate`.
- `Scenarios` (scenarios.dfy) holds the crate's unit tests and documentation examples, each stated as the
  exact result it must produce.

Weights and activations are mathematical reals. Randomness is supplied as a parameter: a `Draw` holds one
delta per weight.

Three behaviours of the code are kept as written:

- `run` is stateful. It adds to the activations and never resets them, so a second run starts from the first
  run's activations (`Scenarios.RunTwice`).
- `run` uses each layer's own width (src/neural_network.rs:73-74), so layers of different widths are
  accepted everywhere.
- `set_wheight` keeps its bound check against the number of layers (see Findings).

## Model

| member | source | states |
|---|---|---|
| NeuralNet.NeuralNetwork.New | src/neural_network.rs:38-43 | `count` layers of `width` neurons, each with activation 0 and weight `w`, and `outputs` output weights `w`; every in-range `get_wheight` returns `Ok(w)` |
| Layers.UniformFilled | src/neural_network.rs:40 | `new`'s layers number `count`, and every layer is `width` copies of a neuron with no activation and weight `w` |
| NeuralNet.NeuralNetwork.NewFrom | src/neural_network.rs:46-60 | the loops build exactly `FromWeights(hidden)`, one neuron per given weight with activation 0; the output weights are the given ones |
| Layers.WeightsOfFromWeights | src/neural_network.rs:46-60 | reading the weight matrix back from `new_from`'s layers gives the matrix it was built from, and every activation starts at 0 |
| NeuralNet.NeuralNetwork.Clone | src/neural_network.rs:28 | the derived clone copies both layers and output weights |
| NeuralNet.NeuralNetwork.GetWeight | src/neural_network.rs:133-143 | returns `Ok` exactly when the layer index is below the layer count and the neuron index below that layer's width (both directions), and then the stored weight; reads only |
| NeuralNet.NeuralNetwork.SetWeight | src/neural_network.rs:106-117 | as written: x-axis error when the layer is out of range; y-axis error when the neuron index is not below the layer count; success exactly when both indices are below the layer count; an error leaves the network unchanged; success changes only that neuron's weight, and a following `get_wheight` reads it back |
| NeuralNet.NeuralNetwork.SetWeightInLayer | src/neural_network.rs:106-117 | the corrected write: it succeeds exactly when `get_wheight` would find the neuron; the y-axis error is reported against the layer's own width; otherwise the same framing |
| NeuralNet.NeuralNetwork.Run | src/neural_network.rs:63-89 | the layers become `Forward(old layers, sum of inputs)`; the result is `Outputs` of the old layers; the output weights, the shape and every weight are unchanged; one output per output weight |
| NeuralNet.NeuralNetwork.ForwardPass | src/neural_network.rs:64-79 | the first two loops together leave the layers at `Forward(old layers, sum of inputs)` |
| NeuralNet.NeuralNetwork.FeedInputs | src/neural_network.rs:65-69 | after the input loop, layer 0 has been fed the sum of all inputs and nothing else has changed |
| NeuralNet.NeuralNetwork.PushForward | src/neural_network.rs:73-78 | one pass of the layer loop feeds layer `l + 1` the sum of layer `l`'s current activations and changes nothing else |
| NeuralNet.NeuralNetwork.FeedLayer | src/neural_network.rs:66-67 | every neuron of one layer gains its weight times `x`; other layers and the output weights are unchanged |
| NeuralNet.NeuralNetwork.EmitLast | src/neural_network.rs:82-88 | the output loop returns each output weight times the sum of the last layer's activations |
| NeuralNet.NeuralNetwork.AddScaled | src/neural_network.rs:84-86 | output `o` gains `a` times output weight `o`, and every output is touched once |
| Layers.FeedAdds | src/neural_network.rs:65-69 | feeding a layer `s` and then `x` is feeding it `s + x`: the per-input accumulation adds up to one feed with the total |
| Layers.FeedNothing | src/neural_network.rs:65-69 | feeding a layer 0 leaves it unchanged, the start of that accumulation |
| Layers.EmitAdds | src/neural_network.rs:83-87 | adding one more activation's share to the outputs gives the outputs of the larger total |
| Layers.AllStages | src/neural_network.rs:72-79 | layers holding every stage of the pass in order are the result of the pass |
| Layers.StageStep | src/neural_network.rs:72-79 | layer `l > 0` of the pass is layer `l` fed with the sum of the already updated layer `l - 1` |
| Layers.ForwardKeepsWeights | src/neural_network.rs:65-79 | the forward pass keeps the layer count, every layer's width and every weight |
| Layers.ForwardAccumulates | src/neural_network.rs:65-79 | each activation ends as its old value plus its weight times the input total (layer 0) or times the sum of the updated previous layer (later layers); weights are unchanged |
| Layers.ForwardFromQuiescent | src/neural_network.rs:65-79 | with nothing accumulated: act[0][j] = w[0][j] · Σ inputs and act[l][j] = w[l][j] · Σ act[l-1] |
| Layers.FilledStage | src/neural_network.rs:72-79 | in a network filled by `new`, every neuron of layer `i` ends with the same activation `Grow(i)` and keeps its weight |
| Layers.GrowClosedForm | src/neural_network.rs:72-79 | that activation is x · w^(i+1) · width^i |
| Layers.FilledOutputs | src/neural_network.rs:82-88 | such a network with every output weight `w` returns `outputs` copies of `Grow(count)` |
| Layers.UniformGrowth | src/neural_network.rs:63-89 | `run` on `new(w, count, width, outputs)` returns `outputs` copies of `Grow(count)` |
| Layers.UniformOutputs | src/neural_network.rs:63-89 | `run` on `new(w, count, width, outputs)` with inputs summing to `x` returns `outputs` copies of x · w^(count+1) · width^count |
| NeuralNet.NeuralNetwork.Mutate | src/neural_network.rs:148-161 | every hidden weight moves by its drawn delta, and so do the output weights when `outputs` is set (else they are unchanged); the shape and all activations stay; every weight moves by at most the mutation rate |
| Layers.PerturbWithinRate | src/neural_network.rs:150-154 | a mutation keeps the shape and the activations and moves each hidden weight by at most the rate |
| Layers.ShiftWithinRate | src/neural_network.rs:156-160 | the output weights keep their count and each moves by at most the rate |
| Layers.PerturbUndone | src/neural_network.rs:150-154 | a mutation is undone by the negated draw, which is itself a valid draw for the mutated network |
| Layers.PerturbAtRateZero | src/neural_network.rs:148-154 | at rate 0 the hidden-weight perturbation changes nothing |
| Layers.ShiftAtRateZero | src/neural_network.rs:156-160 | at rate 0 the output-weight perturbation changes nothing |
| NeuralNet.NeuralNetwork.GetWeights | src/neural_network.rs:176-186 | the loops return the weight matrix, layer by layer and neuron by neuron |
| NeuralNet.NeuralNetwork.GetOutputWeights | src/neural_network.rs:189-191 | a copy with the same length and elements as the output weights |
| NeuralNet.NeuralNetwork.BatchNew | src/neural_network.rs:166-173 | `amount` distinct fresh networks, each exactly what `new` builds |
| NeuralNet.BatchRun | src/neural_network.rs:197-203 | one output vector per network, in order; the i-th is `run` of the i-th network, whose layers advance as that `run` says |
| NeuralNet.BatchMutate | src/neural_network.rs:208-215 | `amount` distinct fresh clones; the i-th is the source mutated by the i-th draw; the source network is unchanged |
| Scenarios.TypeExample | src/neural_network.rs:15-24 | the type's example: weight (5,7) set to 10 reads back as 10, and a run returns three outputs |
| Scenarios.TenByTenOutputs | src/lib.rs:60-66 | `new(1.0,10,10,3)` on three inputs of 1 gives [3e10, 3e10, 3e10] |
| Scenarios.RunTenByTen | src/lib.rs:60-66 | the `run` test through the class: the result is exactly [3e10, 3e10, 3e10] |
| Scenarios.RunTwice | src/neural_network.rs:63-89 | activations persist between runs: a one-neuron network gives [1.0] then [2.0] on the same input |
| Scenarios.WeightsRoundTrip | src/lib.rs:35-39 | the `weights` test: writing 42.4242424242 at (5,8) succeeds and reads back |
| Scenarios.OutOfBounds | src/neural_network.rs:95-104 | (16,23) is refused by `set_wheight` with the x-axis error and by `get_wheight` with `Err` |
| Scenarios.SetWeightRejectsExistingNeuron | src/neural_network.rs:106-117 | as written, `set_wheight` refuses neuron (0,2) of a one-layer, three-neuron network that `get_wheight` finds |
| Scenarios.SetWeightGuardAdmitsMissingNeuron | src/neural_network.rs:107-109 | as written, the guard admits (0,2) in a network of three one-neuron layers, where no such neuron exists, so that call violates `SetWeightSafe`, the precondition of `SetWeight` |
| Scenarios.SetWeightInLayerReachesNeuron | src/neural_network.rs:106-117 | the corrected write reaches neuron (0,2) of the one-layer, three-neuron network |
| Scenarios.NewFromRoundTrip | src/lib.rs:19-24 | `new_from` followed by the two weight views returns exactly the given weights, for any weights |
| Scenarios.MutateMovesWeight | src/lib.rs:43-47 | the `mutate` test with a draw of 0.5: weight (0,0) moves from 1.0 to 1.5 |
| Scenarios.BatchRunTenByTen | src/lib.rs:70-78 | five `new(1.0,10,10,3)` networks each give [3e10, 3e10, 3e10] |
| Scenarios.BatchMutateMovesWeights | src/lib.rs:51-56 | five children mutated by draws of 0.25 all have weight (0,0) = 1.25 ≠ 1.0, and the parent keeps 1.0 |
| Scenarios.BatchNewShapes | src/lib.rs:28-31 | `batch_new(5,1.0,1,3,2)` gives five networks whose weight (0,2) is 1.0 |

## Left out

- Floating point: weights and activations are reals, so IEEE-754 rounding, overflow to infinity and NaN are not modelled. The concrete value 3e10 is exact in `f64` as well.
- Random numbers: `thread_rng` and `gen_range` are replaced by a `Draw` parameter. The draw has the network's shape, and each delta lies in [-rate, rate]. That every delta is drawn uniformly and independently is not modelled.
- NeuralNet.NeuralNetwork.Mutate: requires a rate of at least 0. For a negative rate, `gen_range` gets an empty range and panics as soon as one delta is drawn. The precondition also excludes the degenerate call that draws nothing (no hidden neurons, and no output weights or `outputs` unset), which Rust accepts with a negative rate and leaves the network unchanged.
- NeuralNet.NeuralNetwork.SetWeight: the case that panics in Rust is excluded by a precondition. That is an index below the layer count but not below the layer's width.
- NeuralNet.NeuralNetwork.Run: requires at least one hidden layer. With none, `hidden_layers[0]` and `len() - 1` panic.
- The `mutate` and `batch_mutate` tests only assert a weight changed, which depends on the random draw. `Scenarios.MutateMovesWeight` and `Scenarios.BatchMutateMovesWeights` state them for fixed draws.
- NeuralNet.BatchRun: requires the networks to be distinct objects, as elements of a `Vec` are.
- `Vec::with_capacity` and `reserve_exact` only size buffers. They have no observable effect and are not modelled.
- The `std::fmt::Error` of `get_wheight` carries nothing and is modelled as `Err`. Indices are `nat`, so `usize` limits are not modelled.
- examples/simple_use_case.rs is a driver program: it prints, times and exits. It is not part of this model.
- examples/load_save.rs saves and loads through serde and bincode, external libraries. It is not part of this model.

## Findings

| source | as written | input that shows it | evidently intended | confidence | as-written member | corrected member |
|---|---|---|---|---|---|---|
| src/neural_network.rs:108 | the neuron index is compared with the number of layers, not with the width of its layer | `new(1.0,1,3,1)` then `set_wheight(5.0,(0,2))` returns the y-axis error although `get_wheight((0,2))` is `Ok(1.0)`. In a network of three one-neuron layers, `(0,2)` passes the guard and indexes past the layer (a panic) | compare with `hidden_layers[neuron.0].len()`, as `get_wheight` does at line 135 and as the y-axis message says | high; not executed | NeuralNet.NeuralNetwork.SetWeight, Scenarios.SetWeightRejectsExistingNeuron, Scenarios.SetWeightGuardAdmitsMissingNeuron | NeuralNet.NeuralNetwork.SetWeightInLayer |
