/** The network object of src/neural_network.rs: hidden layers and output weights that the
    forward pass, weight writes and mutation update in place, and the population helpers
    built on them. Each method is proved against the functions of module Layers. */
module NeuralNet {
  import opened Layers

  datatype Option<T> = None | Some(value: T)

  /** A weight lookup either yields the weight or fails with an error that carries nothing. */
  datatype Result<T> = Ok(value: T) | Err

  const XAxisError: string := "Error setting wheight of a neuron, the neuron is out of bounds on the x axis."
  const YAxisError: string := "Error setting wheight of a neuron, the neuron is out of bounds on the y axis."

  /** The case in which `set_wheight` does not panic: whenever its guard (layer index below
      the layer count, neuron index below the layer count) lets a write through, the neuron
      exists in its layer. */
  predicate SetWeightSafe(layers: seq<seq<Neuron>>, layer: nat, neuron: nat)
  {
    layer < |layers| && neuron < |layers| ==> neuron < |layers[layer]|
  }

  class NeuralNetwork {
    /** Per layer, per neuron: (accumulated activation, weight). */
    var hiddenLayers: seq<seq<Neuron>>
    /** One weight per output. */
    var outputWeights: seq<real>

    /** `new`: `layers` layers of `neuronsPerLayer` neurons and `outputs` outputs, every
        weight `defaultWeight`, every activation zero. */
    constructor New(defaultWeight: real, layers: nat, neuronsPerLayer: nat, outputs: nat)
      ensures hiddenLayers == Uniform(defaultWeight, layers, neuronsPerLayer)
      ensures outputWeights == Repeat(defaultWeight, outputs)
      ensures |hiddenLayers| == layers && Quiescent(hiddenLayers)
      ensures forall l :: 0 <= l < layers ==> |hiddenLayers[l]| == neuronsPerLayer
      ensures forall l, n :: 0 <= l < layers && 0 <= n < neuronsPerLayer ==>
        hiddenLayers[l][n].weight == defaultWeight && GetWeight(l, n) == Ok(defaultWeight)
    {
      hiddenLayers := Uniform(defaultWeight, layers, neuronsPerLayer);
      outputWeights := Repeat(defaultWeight, outputs);
    }

    /** `new_from`: the given weight matrix, layer widths as given, every activation zero. */
    constructor NewFrom(hidden: seq<seq<real>>, outputs: seq<real>)
      ensures hiddenLayers == FromWeights(hidden)
      ensures outputWeights == outputs
    {
      var layers: seq<seq<Neuron>> := [];
      for l := 0 to |hidden|
        invariant layers == FromWeights(hidden[..l])
      {
        var layer: seq<Neuron> := [];
        for n := 0 to |hidden[l]|
          invariant layer == Dormant(hidden[l][..n])
        {
          layer := layer + [Neuron(0.0, hidden[l][n])];
          assert hidden[l][..n + 1] == hidden[l][..n] + [hidden[l][n]];
        }
        assert hidden[l][..|hidden[l]|] == hidden[l];
        layers := layers + [layer];
        assert hidden[..l + 1] == hidden[..l] + [hidden[l]];
      }
      assert hidden[..|hidden|] == hidden;
      hiddenLayers := layers;
      outputWeights := outputs;
    }

    /** The deep copy `#[derive(Clone)]` gives. */
    constructor Clone(source: NeuralNetwork)
      ensures hiddenLayers == source.hiddenLayers && outputWeights == source.outputWeights
    {
      hiddenLayers := source.hiddenLayers;
      outputWeights := source.outputWeights;
    }

    /** `get_wheight`: the weight of neuron `neuron` of layer `layer` when both indices are
        within that layer's bounds, an error otherwise. */
    function GetWeight(layer: nat, neuron: nat): (r: Result<real>)
      reads this
      ensures r.Ok? <==> layer < |hiddenLayers| && neuron < |hiddenLayers[layer]|
      ensures r.Ok? ==> r.value == hiddenLayers[layer][neuron].weight
    {
      if layer < |hiddenLayers| then
        if neuron < |hiddenLayers[layer]| then Ok(hiddenLayers[layer][neuron].weight) else Err
      else Err
    }

    /** `set_wheight` as written: the neuron index is compared with the number of layers, not
        with the width of its layer. An index that passes that comparison but lies beyond the
        layer's width panics in the source; that case is excluded here. */
    method SetWeight(weight: real, layer: nat, neuron: nat) returns (error: Option<string>)
      requires SetWeightSafe(hiddenLayers, layer, neuron)
      modifies this
      ensures layer >= |old(hiddenLayers)| ==> error == Some(XAxisError)
      ensures layer < |old(hiddenLayers)| && neuron >= |old(hiddenLayers)| ==> error == Some(YAxisError)
      ensures error == None <==> layer < |old(hiddenLayers)| && neuron < |old(hiddenLayers)|
      ensures error != None ==> hiddenLayers == old(hiddenLayers)
      ensures error == None ==>
        hiddenLayers == old(hiddenLayers)[layer := old(hiddenLayers)[layer][neuron := old(hiddenLayers)[layer][neuron].(weight := weight)]]
      ensures error == None ==> GetWeight(layer, neuron) == Ok(weight)
      ensures outputWeights == old(outputWeights)
    {
      if layer < |hiddenLayers| {
        if neuron < |hiddenLayers| {
          hiddenLayers := hiddenLayers[layer := hiddenLayers[layer][neuron := hiddenLayers[layer][neuron].(weight := weight)]];
          error := None;
        } else {
          error := Some(YAxisError);
        }
      } else {
        error := Some(XAxisError);
      }
    }

    /** `set_wheight` with the neuron index checked against its own layer's width, as the
        y-axis message and `get_wheight` intend: it succeeds exactly where `get_wheight`
        finds a neuron, and never panics. */
    method SetWeightInLayer(weight: real, layer: nat, neuron: nat) returns (error: Option<string>)
      modifies this
      ensures error == None <==> old(GetWeight(layer, neuron)).Ok?
      ensures layer >= |old(hiddenLayers)| ==> error == Some(XAxisError)
      ensures layer < |old(hiddenLayers)| && neuron >= |old(hiddenLayers)[layer]| ==> error == Some(YAxisError)
      ensures error != None ==> hiddenLayers == old(hiddenLayers)
      ensures error == None ==>
        hiddenLayers == old(hiddenLayers)[layer := old(hiddenLayers)[layer][neuron := old(hiddenLayers)[layer][neuron].(weight := weight)]]
      ensures error == None ==> GetWeight(layer, neuron) == Ok(weight)
      ensures outputWeights == old(outputWeights)
    {
      if layer < |hiddenLayers| {
        if neuron < |hiddenLayers[layer]| {
          hiddenLayers := hiddenLayers[layer := hiddenLayers[layer][neuron := hiddenLayers[layer][neuron].(weight := weight)]];
          error := None;
        } else {
          error := Some(YAxisError);
        }
      } else {
        error := Some(XAxisError);
      }
    }

    /** `run`: feeds the inputs forward and returns the outputs. The activations are added
        to, never reset, so the result depends on earlier runs; only the activations change.
        Needs at least one hidden layer; layers may have any widths. */
    method Run(inputs: seq<real>) returns (out: seq<real>)
      requires |hiddenLayers| > 0
      modifies this
      ensures hiddenLayers == Forward(old(hiddenLayers), Sum(inputs))
      ensures out == Outputs(old(hiddenLayers), outputWeights, Sum(inputs))
      ensures outputWeights == old(outputWeights)
      ensures SameShape(hiddenLayers, old(hiddenLayers)) && Weights(hiddenLayers) == Weights(old(hiddenLayers))
      ensures |out| == |outputWeights|
    {
      ForwardPass(inputs);
      ghost var layers := hiddenLayers;
      out := EmitLast(hiddenLayers[|hiddenLayers| - 1]);
      assert layers == Forward(old(hiddenLayers), Sum(inputs));
      ForwardKeepsWeights(old(hiddenLayers), Sum(inputs));
    }

    /** The first two loops of `run`: the inputs reach the first layer, then each layer's
        updated activations reach the next. */
    method ForwardPass(inputs: seq<real>)
      requires |hiddenLayers| > 0
      modifies this
      ensures hiddenLayers == Forward(old(hiddenLayers), Sum(inputs))
      ensures outputWeights == old(outputWeights)
    {
      ghost var start := hiddenLayers;
      ghost var x := Sum(inputs);
      FeedInputs(inputs);
      for l := 0 to |hiddenLayers| - 1
        invariant |hiddenLayers| == |start|
        invariant forall j :: 0 <= j <= l ==> hiddenLayers[j] == Stage(start, x, j)
        invariant forall j :: l < j < |start| ==> hiddenLayers[j] == start[j]
        invariant outputWeights == old(outputWeights)
      {
        PushForward(l);
      }
      AllStages(hiddenLayers, start, x);
    }

    /** The first loop of `run`: each input, times each first-layer neuron's weight, is added
        to that neuron's activation. */
    method FeedInputs(inputs: seq<real>)
      requires |hiddenLayers| > 0
      modifies this
      ensures hiddenLayers == old(hiddenLayers)[0 := Feed(old(hiddenLayers)[0], Sum(inputs))]
      ensures outputWeights == old(outputWeights)
    {
      ghost var start := hiddenLayers;
      FeedNothing(start[0]);
      for i := 0 to |inputs|
        invariant hiddenLayers == start[0 := Feed(start[0], Sum(inputs[..i]))]
        invariant outputWeights == old(outputWeights)
      {
        FeedLayer(0, inputs[i]);
        FeedAdds(start[0], Sum(inputs[..i]), inputs[i]);
        SumPrefix(inputs, i);
      }
      assert inputs[..|inputs|] == inputs;
    }

    /** One pass of the second loop of `run`: every activation of layer `l`, times each
        weight of layer `l + 1`, is added to that neuron's activation. */
    method PushForward(l: nat)
      requires l + 1 < |hiddenLayers|
      modifies this
      ensures hiddenLayers
        == old(hiddenLayers)[l + 1 := Feed(old(hiddenLayers)[l + 1], Sum(Activations(old(hiddenLayers)[l])))]
      ensures outputWeights == old(outputWeights)
    {
      ghost var start := hiddenLayers;
      ghost var acts := Activations(start[l]);
      var t := l + 1;
      FeedNothing(start[t]);
      for n := 0 to |hiddenLayers[l]|
        invariant hiddenLayers == start[t := Feed(start[t], Sum(acts[..n]))]
        invariant outputWeights == old(outputWeights)
      {
        FeedLayer(t, hiddenLayers[l][n].activation);
        FeedAdds(start[t], Sum(acts[..n]), acts[n]);
        SumPrefix(acts, n);
      }
      assert acts[..|acts|] == acts;
    }

    /** The innermost loop of the first two loops of `run`: every neuron of layer `l`
        receives `x`, that is, gains `x` times its weight. */
    method FeedLayer(l: nat, x: real)
      requires l < |hiddenLayers|
      modifies this
      ensures hiddenLayers == old(hiddenLayers)[l := Feed(old(hiddenLayers)[l], x)]
      ensures outputWeights == old(outputWeights)
    {
      ghost var start := hiddenLayers;
      for m := 0 to |hiddenLayers[l]|
        invariant |hiddenLayers| == |start| && |hiddenLayers[l]| == |start[l]|
        invariant forall j :: 0 <= j < |start| && j != l ==> hiddenLayers[j] == start[j]
        invariant forall k :: 0 <= k < m ==> hiddenLayers[l][k] == Excite(start[l][k], x)
        invariant forall k :: m <= k < |start[l]| ==> hiddenLayers[l][k] == start[l][k]
        invariant outputWeights == old(outputWeights)
      {
        var target := hiddenLayers[l][m];
        hiddenLayers := hiddenLayers[l := hiddenLayers[l][m := target.(activation := target.activation + x * target.weight)]];
      }
      assert hiddenLayers[l] == Feed(start[l], x);
    }

    /** The last loop of `run`: each last-layer activation, times each output weight, is
        added into a fresh output vector. */
    method EmitLast(last: seq<Neuron>) returns (out: seq<real>)
      ensures out == Emit(outputWeights, Sum(Activations(last)))
    {
      ghost var acts := Activations(last);
      out := Repeat(0.0, |outputWeights|);
      for n := 0 to |last|
        invariant out == Emit(outputWeights, Sum(acts[..n]))
      {
        var next := AddScaled(out, last[n].activation);
        EmitAdds(outputWeights, out, next, Sum(acts[..n]), acts[n]);
        SumPrefix(acts, n);
        out := next;
      }
      assert acts[..|acts|] == acts;
    }

    /** The inner loop of the last loop of `run`: output `o` gains `a` times output weight `o`. */
    method AddScaled(out: seq<real>, a: real) returns (next: seq<real>)
      requires |out| == |outputWeights|
      ensures |next| == |out|
      ensures forall o :: 0 <= o < |out| ==> next[o] == out[o] + a * outputWeights[o]
    {
      next := out;
      for o := 0 to |outputWeights|
        invariant |next| == |out|
        invariant forall p :: 0 <= p < o ==> next[p] == out[p] + a * outputWeights[p]
        invariant forall p :: o <= p < |out| ==> next[p] == out[p]
      {
        next := next[o := next[o] + a * outputWeights[o]];
      }
    }

    /** `mutate`, with the random draws supplied: every hidden weight moves by its delta,
        and every output weight too when `outputs` is set. Activations and shape stay. */
    method Mutate(mutationRate: real, outputs: bool, draw: Draw)
      requires mutationRate >= 0.0
      requires DrawFits(draw, hiddenLayers, outputWeights, mutationRate, outputs)
      modifies this
      ensures hiddenLayers == Perturb(old(hiddenLayers), draw.hidden)
      ensures outputWeights == if outputs then Shift(old(outputWeights), draw.outputs) else old(outputWeights)
      ensures SameShape(hiddenLayers, old(hiddenLayers))
      ensures forall l, n :: 0 <= l < |hiddenLayers| && 0 <= n < |hiddenLayers[l]| ==>
        hiddenLayers[l][n].activation == old(hiddenLayers)[l][n].activation &&
        -mutationRate <= hiddenLayers[l][n].weight - old(hiddenLayers)[l][n].weight <= mutationRate
      ensures |outputWeights| == |old(outputWeights)|
      ensures forall o :: 0 <= o < |outputWeights| ==>
        -mutationRate <= outputWeights[o] - old(outputWeights)[o] <= mutationRate
    {
      ghost var start := hiddenLayers;
      for l := 0 to |hiddenLayers|
        invariant |hiddenLayers| == |start|
        invariant forall j :: 0 <= j < l ==> hiddenLayers[j] == PerturbLayer(start[j], draw.hidden[j])
        invariant forall j :: l <= j < |start| ==> hiddenLayers[j] == start[j]
        invariant outputWeights == old(outputWeights)
      {
        for n := 0 to |hiddenLayers[l]|
          invariant |hiddenLayers| == |start| && |hiddenLayers[l]| == |start[l]|
          invariant forall j :: 0 <= j < |start| && j != l ==> hiddenLayers[j] == (if j < l then PerturbLayer(start[j], draw.hidden[j]) else start[j])
          invariant forall m :: 0 <= m < n ==> hiddenLayers[l][m] == Nudge(start[l][m], draw.hidden[l][m])
          invariant forall m :: n <= m < |start[l]| ==> hiddenLayers[l][m] == start[l][m]
          invariant outputWeights == old(outputWeights)
        {
          var neuron := hiddenLayers[l][n];
          hiddenLayers := hiddenLayers[l := hiddenLayers[l][n := neuron.(weight := neuron.weight + draw.hidden[l][n])]];
        }
        assert hiddenLayers[l] == PerturbLayer(start[l], draw.hidden[l]);
      }
      assert hiddenLayers == Perturb(start, draw.hidden);
      PerturbWithinRate(start, draw.hidden, mutationRate);
      if outputs {
        for o := 0 to |outputWeights|
          invariant |outputWeights| == |old(outputWeights)|
          invariant forall p :: 0 <= p < o ==> outputWeights[p] == old(outputWeights)[p] + draw.outputs[p]
          invariant forall p :: o <= p < |outputWeights| ==> outputWeights[p] == old(outputWeights)[p]
          invariant hiddenLayers == Perturb(start, draw.hidden)
        {
          outputWeights := outputWeights[o := outputWeights[o] + draw.outputs[o]];
        }
        ShiftWithinRate(old(outputWeights), draw.outputs, mutationRate);
      }
    }

    /** `get_wheights`: the weight matrix, layer by layer. */
    method GetWeights() returns (weights: seq<seq<real>>)
      ensures weights == Weights(hiddenLayers)
    {
      weights := [];
      for l := 0 to |hiddenLayers|
        invariant weights == Weights(hiddenLayers[..l])
      {
        var layerWeights: seq<real> := [];
        for n := 0 to |hiddenLayers[l]|
          invariant layerWeights == LayerWeights(hiddenLayers[l][..n])
        {
          layerWeights := layerWeights + [hiddenLayers[l][n].weight];
          assert hiddenLayers[l][..n + 1] == hiddenLayers[l][..n] + [hiddenLayers[l][n]];
        }
        assert hiddenLayers[l][..|hiddenLayers[l]|] == hiddenLayers[l];
        weights := weights + [layerWeights];
        assert hiddenLayers[..l + 1] == hiddenLayers[..l] + [hiddenLayers[l]];
      }
      assert hiddenLayers[..|hiddenLayers|] == hiddenLayers;
    }

    /** `get_output_wheights`: a copy of the output weights. */
    function GetOutputWeights(): (r: seq<real>)
      reads this
      ensures |r| == |outputWeights| && forall o :: 0 <= o < |r| ==> r[o] == outputWeights[o]
    {
      outputWeights
    }

    /** `batch_new`: `amount` separate networks, each as `new` builds it. */
    static method BatchNew(amount: nat, defaultWeight: real, layers: nat, neuronsPerLayer: nat, outputs: nat)
      returns (networks: seq<NeuralNetwork>)
      ensures |networks| == amount
      ensures forall i :: 0 <= i < amount ==> fresh(networks[i])
      ensures forall i, j :: 0 <= i < j < amount ==> networks[i] != networks[j]
      ensures forall i :: 0 <= i < amount ==>
        networks[i].hiddenLayers == Uniform(defaultWeight, layers, neuronsPerLayer) &&
        networks[i].outputWeights == Repeat(defaultWeight, outputs)
    {
      networks := [];
      for i := 0 to amount
        invariant |networks| == i
        invariant forall k :: 0 <= k < i ==> fresh(networks[k])
        invariant forall k, j :: 0 <= k < j < i ==> networks[k] != networks[j]
        invariant forall k :: 0 <= k < i ==>
          networks[k].hiddenLayers == Uniform(defaultWeight, layers, neuronsPerLayer) &&
          networks[k].outputWeights == Repeat(defaultWeight, outputs)
      {
        var network := new NeuralNetwork.New(defaultWeight, layers, neuronsPerLayer, outputs);
        networks := networks + [network];
      }
    }
  }

  /** `batch_run`: runs every network on the same inputs, in order, and returns their
      outputs in that order. The networks are separate objects, as a `Vec` owns its
      elements; each one's activations advance exactly as its own `run` would. */
  method BatchRun(networks: seq<NeuralNetwork>, inputs: seq<real>) returns (outs: seq<seq<real>>)
    requires forall i, j :: 0 <= i < j < |networks| ==> networks[i] != networks[j]
    requires forall i :: 0 <= i < |networks| ==> |networks[i].hiddenLayers| > 0
    modifies set i | 0 <= i < |networks| :: networks[i]
    ensures |outs| == |networks|
    ensures forall i :: 0 <= i < |networks| ==>
      networks[i].hiddenLayers == Forward(old(networks[i].hiddenLayers), Sum(inputs)) &&
      networks[i].outputWeights == old(networks[i].outputWeights) &&
      outs[i] == Outputs(old(networks[i].hiddenLayers), networks[i].outputWeights, Sum(inputs))
  {
    outs := [];
    for i := 0 to |networks|
      invariant |outs| == i
      invariant forall k :: 0 <= k < i ==>
        networks[k].hiddenLayers == Forward(old(networks[k].hiddenLayers), Sum(inputs)) &&
        networks[k].outputWeights == old(networks[k].outputWeights) &&
        outs[k] == Outputs(old(networks[k].hiddenLayers), networks[k].outputWeights, Sum(inputs))
      invariant forall k :: i <= k < |networks| ==>
        networks[k].hiddenLayers == old(networks[k].hiddenLayers) &&
        networks[k].outputWeights == old(networks[k].outputWeights)
    {
      var out := networks[i].Run(inputs);
      outs := outs + [out];
    }
  }

  /** `batch_mutate`, with one draw per child supplied: `amount` separate clones of
      `network`, the i-th mutated by the i-th draw. The source network is left as it was. */
  method BatchMutate(amount: nat, mutationRate: real, network: NeuralNetwork, outputs: bool, draws: seq<Draw>)
    returns (networks: seq<NeuralNetwork>)
    requires mutationRate >= 0.0 && |draws| == amount
    requires forall i :: 0 <= i < amount ==>
      DrawFits(draws[i], network.hiddenLayers, network.outputWeights, mutationRate, outputs)
    ensures network.hiddenLayers == old(network.hiddenLayers) && network.outputWeights == old(network.outputWeights)
    ensures |networks| == amount
    ensures forall i :: 0 <= i < amount ==> fresh(networks[i])
    ensures forall i, j :: 0 <= i < j < amount ==> networks[i] != networks[j]
    ensures forall i :: 0 <= i < amount ==>
      MutatedBy(networks[i].hiddenLayers, networks[i].outputWeights, network.hiddenLayers, network.outputWeights, draws[i], outputs)
  {
    networks := [];
    for i := 0 to amount
      invariant |networks| == i
      invariant forall k :: 0 <= k < i ==> fresh(networks[k])
      invariant forall k, j :: 0 <= k < j < i ==> networks[k] != networks[j]
      invariant forall k :: 0 <= k < i ==>
        MutatedBy(networks[k].hiddenLayers, networks[k].outputWeights, network.hiddenLayers, network.outputWeights, draws[k], outputs)
    {
      var child := new NeuralNetwork.Clone(network);
      networks := networks + [child];
      child.Mutate(mutationRate, outputs, draws[i]);
    }
  }
}
