/** Concrete behaviour of the network object: the unit tests and documentation examples of
    the crate, each stated as the exact result it must produce, and the general round trip
    between `new_from` and the weight views. */
module Scenarios {
  import opened Layers
  import opened NeuralNet

  /** Three inputs of one add up to three. */
  lemma ThreeOnes()
    ensures Sum([1.0, 1.0, 1.0]) == 3.0
  {
    assert [1.0, 1.0, 1.0][..2] == [1.0, 1.0];
    assert [1.0, 1.0][..1] == [1.0];
    assert [1.0][..0] == [];
  }

  /** The output every `new(1.0, 10, 10, 3)` network gives on three inputs of one. */
  lemma TenByTenOutputs()
    ensures Outputs(Uniform(1.0, 10, 10), Repeat(1.0, 3), Sum([1.0, 1.0, 1.0]))
      == [30000000000.0, 30000000000.0, 30000000000.0]
  {
    ThreeOnes();
    OnesOutputs(1.0, 10, 3.0);
  }

  /** The same with the sizes as variables, so that the network is not unfolded literally. */
  lemma OnesOutputs(w: real, ten: nat, x: real)
    requires w == 1.0 && ten == 10 && x == 3.0
    ensures Outputs(Uniform(w, ten, ten), Repeat(w, 3), x) == [30000000000.0, 30000000000.0, 30000000000.0]
  {
    UniformOutputs(w, ten, ten, 3, x);
    PowOfOne(ten + 1);
    PowOfTen();
    Thrice(x * Pow(w, ten + 1) * Pow(ten as real, ten));
  }

  lemma {:induction false} PowOfOne(k: nat)
    ensures Pow(1.0, k) == 1.0
  {
    if k > 0 {
      PowOfOne(k - 1);
    }
  }

  lemma PowOfTen()
    ensures Pow(10.0, 10) == 10000000000.0
  {
    assert Pow(10.0, 5) == 100000.0;
  }

  lemma Thrice(v: real)
    ensures Repeat(v, 3) == [v, v, v]
  {
  }

  /** A fresh ten-layer, ten-neuron, three-output network with every weight one turns three
      inputs of one into three outputs of 3 * 10^10: each layer multiplies by ten. */
  method RunTenByTen() returns (data: seq<real>)
    ensures data == [30000000000.0, 30000000000.0, 30000000000.0]
  {
    var network := new NeuralNetwork.New(1.0, 10, 10, 3);
    data := network.Run([1.0, 1.0, 1.0]);
    TenByTenOutputs();
  }

  /** Activations are never reset: running a one-neuron network twice on the same input
      gives a larger answer the second time. */
  method RunTwice() returns (first: seq<real>, second: seq<real>)
    ensures first == [1.0] && second == [2.0]
  {
    var network := new NeuralNetwork.New(1.0, 1, 1, 1);
    assert Sum([1.0]) == 1.0 by { assert [1.0][..0] == []; }
    first := network.Run([1.0]);
    assert network.hiddenLayers == [[Neuron(1.0, 1.0)]] by {
      assert Stage(Uniform(1.0, 1, 1), 1.0, 0) == [Neuron(1.0, 1.0)];
    }
    assert first == [1.0] by {
      assert Activations([Neuron(1.0, 1.0)]) == [1.0];
      assert Sum([1.0]) == 1.0 by { assert [1.0][..0] == []; }
    }
    second := network.Run([1.0]);
    assert network.hiddenLayers == [[Neuron(2.0, 1.0)]] by {
      assert Stage([[Neuron(1.0, 1.0)]], 1.0, 0) == [Neuron(2.0, 1.0)];
    }
    assert Activations([Neuron(2.0, 1.0)]) == [2.0];
    assert Sum([2.0]) == 2.0 by { assert [2.0][..0] == []; }
  }

  /** Writing a weight inside a ten-by-ten network succeeds and reads back. */
  method WeightsRoundTrip() returns (error: Option<string>, weight: Result<real>)
    ensures error == None && weight == Ok(42.4242424242)
  {
    var network := new NeuralNetwork.New(1.0, 10, 10, 3);
    error := network.SetWeight(42.4242424242, 5, 8);
    weight := network.GetWeight(5, 8);
  }

  /** The example on the type itself: a weight written at (5, 7) reads back, and a run on
      five inputs gives one value per output. */
  method TypeExample() returns (weight: Result<real>, output: seq<real>)
    ensures weight == Ok(10.0) && |output| == 3
  {
    var brain := new NeuralNetwork.New(1.0, 10, 10, 3);
    var error := brain.SetWeight(10.0, 5, 7);
    weight := brain.GetWeight(5, 7);
    output := brain.Run([1.0, 2.0, 3.0, 4.0, 5.0]);
  }

  /** Indices past the last layer are refused by both the write and the read. */
  method OutOfBounds() returns (error: Option<string>, weight: Result<real>)
    ensures error == Some(XAxisError) && weight == Err
  {
    var network := new NeuralNetwork.New(1.0, 10, 10, 3);
    error := network.SetWeight(64.0, 16, 23);
    weight := network.GetWeight(16, 23);
  }

  /** `set_wheight` as written refuses an existing neuron: one layer of three neurons, and
      neuron 2 of layer 0 is rejected on the y axis because 2 is not below the single layer
      count, although `get_wheight` finds it. */
  method SetWeightRejectsExistingNeuron() returns (error: Option<string>, weight: Result<real>)
    ensures error == Some(YAxisError) && weight == Ok(1.0)
  {
    var network := new NeuralNetwork.New(1.0, 1, 3, 1);
    error := network.SetWeight(5.0, 0, 2);
    weight := network.GetWeight(0, 2);
  }

  /** As written, the guard of `set_wheight` admits neuron 2 of layer 0 in a network of three
      one-neuron layers, where there is no such neuron: the write indexes past the layer, so
      that call falls outside the precondition of `SetWeight`. */
  lemma SetWeightGuardAdmitsMissingNeuron()
    ensures var layers := Uniform(1.0, 3, 1);
      0 < |layers| && 2 < |layers| && !SetWeightSafe(layers, 0, 2)
  {
  }

  /** The corrected write reaches the neuron the as-written one refuses. */
  method SetWeightInLayerReachesNeuron() returns (error: Option<string>, weight: Result<real>)
    ensures error == None && weight == Ok(5.0)
  {
    var network := new NeuralNetwork.New(1.0, 1, 3, 1);
    error := network.SetWeightInLayer(5.0, 0, 2);
    weight := network.GetWeight(0, 2);
  }

  /** `new_from` followed by the two weight views gives back exactly the weights it was
      built from, for any weights. */
  method NewFromRoundTrip(hidden: seq<seq<real>>, outputs: seq<real>)
    returns (weights: seq<seq<real>>, outputWeights: seq<real>)
    ensures weights == hidden && outputWeights == outputs
  {
    var network := new NeuralNetwork.NewFrom(hidden, outputs);
    weights := network.GetWeights();
    outputWeights := network.GetOutputWeights();
    WeightsOfFromWeights(hidden);
  }

  /** The same draw of 0.5 for every weight of a network `new(1.0, count, width, outputs)`. */
  function HalfDraw(count: nat, width: nat, outputs: nat): (d: Draw)
    ensures |d.hidden| == count && |d.outputs| == outputs
    ensures forall l :: 0 <= l < count ==> d.hidden[l] == Repeat(0.5, width)
  {
    Draw(seq(count, _ => Repeat(0.5, width)), Repeat(0.5, outputs))
  }

  /** A mutation whose draw for neuron (0, 0) is not zero moves that weight off its start. */
  method MutateMovesWeight() returns (weight: Result<real>)
    ensures weight == Ok(1.5) && weight != Ok(1.0)
  {
    var network := new NeuralNetwork.New(1.0, 10, 10, 3);
    network.Mutate(10.0, true, HalfDraw(10, 10, 3));
    weight := network.GetWeight(0, 0);
  }

  /** Five networks of ten layers of ten neurons, all run on the same three inputs of one,
      each give the three outputs of 3 * 10^10. */
  method BatchRunTenByTen() returns (data: seq<seq<real>>)
    ensures |data| == 5
    ensures forall i :: 0 <= i < 5 ==> data[i] == [30000000000.0, 30000000000.0, 30000000000.0]
  {
    var networks := NeuralNetwork.BatchNew(5, 1.0, 10, 10, 3);
    data := BatchRun(networks, [1.0, 1.0, 1.0]);
    TenByTenOutputs();
  }

  /** Five children of `new(1.0, 1, 3, 2)`, mutated at rate 0.25 by draws of 0.25, all have
      weight (0, 0) moved off one, and the parent is left as it was. */
  method BatchMutateMovesWeights() returns (weights: seq<Result<real>>, parent: Result<real>)
    ensures |weights| == 5
    ensures forall i :: 0 <= i < 5 ==> weights[i] == Ok(1.25)
    ensures parent == Ok(1.0)
  {
    var network := new NeuralNetwork.New(1.0, 1, 3, 2);
    var draw := Draw([Repeat(0.25, 3)], Repeat(0.25, 2));
    var networks := BatchMutate(5, 0.25, network, true, seq(5, _ => draw));
    weights := [];
    for i := 0 to 5
      invariant |weights| == i
      invariant forall k :: 0 <= k < i ==> weights[k] == Ok(1.25)
    {
      weights := weights + [networks[i].GetWeight(0, 0)];
    }
    parent := network.GetWeight(0, 0);
  }

  /** `batch_new` gives separate networks, each as `new` builds it. */
  method BatchNewShapes() returns (weights: seq<Result<real>>)
    ensures weights == [Ok(1.0), Ok(1.0), Ok(1.0), Ok(1.0), Ok(1.0)]
  {
    var networks := NeuralNetwork.BatchNew(5, 1.0, 1, 3, 2);
    weights := [];
    for i := 0 to 5
      invariant |weights| == i
      invariant forall k :: 0 <= k < i ==> weights[k] == Ok(1.0)
    {
      weights := weights + [networks[i].GetWeight(0, 2)];
    }
  }
}
