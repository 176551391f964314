/** Value-level model of a network's hidden layers: the forward-pass recurrence, the
    mutation perturbation and the weight views, as functions with the lemmas that state
    what they mean. The class in module NeuralNet is proved against these. */
module Layers {

  /** A hidden neuron: the activation it has accumulated so far and its one weight. */
  datatype Neuron = Neuron(activation: real, weight: real)

  /** The random perturbations one mutation draws: one delta per hidden neuron, laid out
      like the hidden layers, and one per output weight. */
  datatype Draw = Draw(hidden: seq<seq<real>>, outputs: seq<real>)

  // ---------------------------------------------------------------- sums

  function Sum(s: seq<real>): real
  {
    if s == [] then 0.0 else Sum(s[..|s| - 1]) + s[|s| - 1]
  }

  /** Extending a prefix by one element adds that element to the sum. */
  lemma SumPrefix(s: seq<real>, n: nat)
    requires n < |s|
    ensures Sum(s[..n + 1]) == Sum(s[..n]) + s[n]
  {
    assert s[..n + 1][..n] == s[..n];
  }

  function Repeat(x: real, count: nat): seq<real>
  {
    seq(count, _ => x)
  }

  lemma {:induction false} SumRepeat(x: real, count: nat)
    ensures Sum(Repeat(x, count)) == count as real * x
  {
    if count > 0 {
      assert Repeat(x, count)[..count - 1] == Repeat(x, count - 1);
      SumRepeat(x, count - 1);
    }
  }

  function Pow(b: real, k: nat): real
  {
    if k == 0 then 1.0 else b * Pow(b, k - 1)
  }

  // ---------------------------------------------------------------- shapes

  /** The network `new` builds: `count` layers of `width` neurons, each with no activation
      and weight `w`. */
  function Uniform(w: real, count: nat, width: nat): seq<seq<Neuron>>
  {
    seq(count, _ => Row(width, 0.0, w))
  }

  /** No neuron has accumulated anything yet. */
  predicate Quiescent(layers: seq<seq<Neuron>>)
  {
    forall l, n :: 0 <= l < |layers| && 0 <= n < |layers[l]| ==> layers[l][n].activation == 0.0
  }

  /** The two networks have the same number of layers and the same width layer by layer. */
  predicate SameShape(a: seq<seq<Neuron>>, b: seq<seq<Neuron>>)
  {
    |a| == |b| && forall l :: 0 <= l < |a| ==> |a[l]| == |b[l]|
  }

  function Activations(layer: seq<Neuron>): seq<real>
  {
    seq(|layer|, m requires 0 <= m < |layer| => layer[m].activation)
  }

  function LayerWeights(layer: seq<Neuron>): seq<real>
  {
    seq(|layer|, m requires 0 <= m < |layer| => layer[m].weight)
  }

  /** The weight matrix `get_wheights` hands out. */
  function Weights(layers: seq<seq<Neuron>>): seq<seq<real>>
  {
    seq(|layers|, l requires 0 <= l < |layers| => LayerWeights(layers[l]))
  }

  /** One layer as `new_from` builds it: every neuron starts with no activation. */
  function Dormant(weights: seq<real>): seq<Neuron>
  {
    seq(|weights|, m requires 0 <= m < |weights| => Neuron(0.0, weights[m]))
  }

  function FromWeights(weights: seq<seq<real>>): seq<seq<Neuron>>
  {
    seq(|weights|, l requires 0 <= l < |weights| => Dormant(weights[l]))
  }

  /** Building layers from a weight matrix and reading the matrix back gives the matrix,
      and the built layers start quiescent. */
  lemma WeightsOfFromWeights(weights: seq<seq<real>>)
    ensures Weights(FromWeights(weights)) == weights
    ensures Quiescent(FromWeights(weights))
  {
    var layers := FromWeights(weights);
    forall l | 0 <= l < |weights|
      ensures Weights(layers)[l] == weights[l]
    {
      assert LayerWeights(Dormant(weights[l])) == weights[l];
    }
  }

  // ---------------------------------------------------------------- forward pass

  /** A neuron receiving `x`: its activation gains its own weight times `x`. */
  function Excite(n: Neuron, x: real): Neuron
  {
    n.(activation := n.activation + n.weight * x)
  }

  function Feed(layer: seq<Neuron>, x: real): seq<Neuron>
  {
    seq(|layer|, m requires 0 <= m < |layer| => Excite(layer[m], x))
  }

  /** Feeding a layer `s` and then `x` is feeding it `s + x` once: the in-place
      accumulation of `run` adds up to one excitation by the total. */
  lemma FeedAdds(layer: seq<Neuron>, s: real, x: real)
    ensures Feed(Feed(layer, s), x) == Feed(layer, s + x)
  {
    var twice := Feed(Feed(layer, s), x);
    forall m | 0 <= m < |layer|
      ensures twice[m] == Feed(layer, s + x)[m]
    {
      var n := layer[m];
      assert twice[m] == Excite(Excite(n, s), x);
      assert Excite(n, s).weight == n.weight;
      ExciteAdds(n.activation, n.weight, s, x);
    }
  }

  /** Feeding a layer nothing leaves it as it was. */
  lemma FeedNothing(layer: seq<Neuron>)
    ensures Feed(layer, 0.0) == layer
  {
  }

  lemma ExciteAdds(a: real, w: real, s: real, x: real)
    ensures (a + w * s) + w * x == a + w * (s + x)
  {
  }

  /** Layer `i` after a forward pass whose first layer receives `x`: layer 0 is fed `x`,
      every later layer the sum of the updated activations of the layer before it. */
  function Stage(layers: seq<seq<Neuron>>, x: real, i: nat): seq<Neuron>
    requires i < |layers|
  {
    if i == 0 then Feed(layers[0], x)
    else Feed(layers[i], Sum(Activations(Stage(layers, x, i - 1))))
  }

  /** All hidden layers after a forward pass fed with `x`. */
  function Forward(layers: seq<seq<Neuron>>, x: real): seq<seq<Neuron>>
  {
    seq(|layers|, i requires 0 <= i < |layers| => Stage(layers, x, i))
  }

  /** Layers that hold every stage of the pass, in order, are the pass. */
  lemma AllStages(done: seq<seq<Neuron>>, layers: seq<seq<Neuron>>, x: real)
    requires |done| == |layers|
    requires forall j :: 0 <= j < |layers| ==> done[j] == Stage(layers, x, j)
    ensures done == Forward(layers, x)
  {
  }

  /** Every output weight scaling the same incoming total. */
  function Emit(weights: seq<real>, x: real): seq<real>
  {
    seq(|weights|, o requires 0 <= o < |weights| => weights[o] * x)
  }

  /** Adding `x` times each weight to the outputs of a total `s` gives the outputs of the
      total `s + x`: the accumulation of the output loop of `run`. */
  lemma EmitAdds(weights: seq<real>, out: seq<real>, next: seq<real>, s: real, x: real)
    requires out == Emit(weights, s)
    requires |next| == |out| && forall o :: 0 <= o < |out| ==> next[o] == out[o] + x * weights[o]
    ensures next == Emit(weights, s + x)
  {
    forall o | 0 <= o < |out|
      ensures next[o] == Emit(weights, s + x)[o]
    {
      ScaleAdds(weights[o], s, x);
    }
  }

  lemma ScaleAdds(w: real, s: real, x: real)
    ensures w * s + x * w == w * (s + x)
  {
  }

  /** What a forward pass over `layers` returns when its inputs add up to `x`. */
  function Outputs(layers: seq<seq<Neuron>>, outputWeights: seq<real>, x: real): seq<real>
    requires |layers| > 0
  {
    Emit(outputWeights, Sum(Activations(Forward(layers, x)[|layers| - 1])))
  }

  /** The forward pass keeps the number of layers, every layer's width and every weight. */
  lemma ForwardKeepsWeights(layers: seq<seq<Neuron>>, x: real)
    ensures SameShape(Forward(layers, x), layers)
    ensures Weights(Forward(layers, x)) == Weights(layers)
  {
    var f: seq<seq<Neuron>> := Forward(layers, x);
    forall l | 0 <= l < |layers|
      ensures |f[l]| == |layers[l]|
      ensures LayerWeights(f[l]) == LayerWeights(layers[l])
    {
      assert f[l] == Stage(layers, x, l);
    }
  }

  /** Neuron `j` of layer `l` ends the pass with its weight unchanged and its activation
      increased by its weight times what reached its layer: the inputs' total for layer 0,
      and for every later layer the sum of the updated activations of the layer before it. */
  lemma ForwardAccumulates(layers: seq<seq<Neuron>>, x: real, l: nat, j: nat)
    requires l < |layers| && j < |layers[l]|
    ensures |Forward(layers, x)[l]| == |layers[l]|
    ensures Forward(layers, x)[l][j].weight == layers[l][j].weight
    ensures l == 0 ==>
      Forward(layers, x)[0][j].activation == layers[0][j].activation + layers[0][j].weight * x
    ensures l > 0 ==>
      Forward(layers, x)[l][j].activation
        == layers[l][j].activation + layers[l][j].weight * Sum(Activations(Forward(layers, x)[l - 1]))
  {
    if l == 0 {
      assert Forward(layers, x)[0] == Feed(layers[0], x);
    } else {
      StageStep(layers, x, l, Forward(layers, x)[l - 1]);
    }
  }

  /** Layer `l` of the pass is layer `l` fed with what the updated layer before it holds. */
  lemma StageStep(layers: seq<seq<Neuron>>, x: real, l: nat, prev: seq<Neuron>)
    requires 1 <= l < |layers| && prev == Forward(layers, x)[l - 1]
    ensures Forward(layers, x)[l] == Feed(layers[l], Sum(Activations(prev)))
  {
    assert prev == Stage(layers, x, l - 1);
    assert Forward(layers, x)[l] == Stage(layers, x, l);
  }

  /** On a quiescent network (nothing accumulated yet) the forward pass computes exactly the
      recurrence act[0][j] = w[0][j] * x, act[l][j] = w[l][j] * (sum of act[l - 1]). */
  lemma ForwardFromQuiescent(layers: seq<seq<Neuron>>, x: real, l: nat, j: nat)
    requires Quiescent(layers) && l < |layers| && j < |layers[l]|
    ensures l == 0 ==> Forward(layers, x)[0][j].activation == layers[0][j].weight * x
    ensures l > 0 ==>
      Forward(layers, x)[l][j].activation == layers[l][j].weight * Sum(Activations(Forward(layers, x)[l - 1]))
  {
    ForwardAccumulates(layers, x, l, j);
  }

  /** The activation every neuron of layer `i` of a uniform network reaches from `x`: layer 0
      holds w * x, and each later layer w times the sum of the `fan` equal activations
      before it. */
  function Grow(w: real, fan: real, x: real, i: nat): real
  {
    if i == 0 then w * x else w * (fan * Grow(w, fan, x, i - 1))
  }

  /** The growth is geometric: x * w^(i+1) * fan^i. */
  lemma {:induction false} GrowClosedForm(w: real, fan: real, x: real, i: nat)
    ensures Grow(w, fan, x, i) == x * Pow(w, i + 1) * Pow(fan, i)
  {
    if i > 0 {
      GrowClosedForm(w, fan, x, i - 1);
      Regroup(w, fan, x, Pow(w, i), Pow(fan, i - 1));
    }
  }

  lemma Regroup(a: real, b: real, c: real, d: real, e: real)
    ensures a * (b * (c * d * e)) == c * (a * d) * (b * e)
  {
  }

  /** `width` neurons, each holding activation `a` and weight `w`. */
  function Row(width: nat, a: real, w: real): (r: seq<Neuron>)
    ensures |r| == width
    ensures forall n :: 0 <= n < width ==> r[n].activation == a && r[n].weight == w
  {
    seq(width, _ => Neuron(a, w))
  }

  /** Every layer has `width` neurons, each with no activation and weight `w`. */
  predicate Filled(layers: seq<seq<Neuron>>, w: real, width: nat)
  {
    forall l :: 0 <= l < |layers| ==> layers[l] == Row(width, 0.0, w)
  }

  lemma UniformFilled(w: real, count: nat, width: nat)
    ensures |Uniform(w, count, width)| == count
    ensures Filled(Uniform(w, count, width), w, width)
  {
  }

  /** In a filled network every neuron of layer `i` ends the pass with the same activation
      Grow(w, fan, x, i), fan being the width, and keeps weight `w`. */
  lemma {:induction false} FilledStage(layers: seq<seq<Neuron>>, w: real, width: nat, fan: real, x: real, i: nat)
    requires Filled(layers, w, width) && fan == width as real && i < |layers|
    ensures Stage(layers, x, i) == Row(width, Grow(w, fan, x, i), w)
  {
    if i == 0 {
      FeedRow(width, w, x, 1.0, x, Grow(w, fan, x, 0));
    } else {
      FilledStage(layers, w, width, fan, x, i - 1);
      GrowStep(w, fan, x, i);
      FilledStep(layers, w, width, fan, x, i, Grow(w, fan, x, i - 1), Grow(w, fan, x, i));
    }
  }

  /** The layer after one whose neurons all hold `a` holds w * (fan * a) in every neuron. */
  lemma FilledStep(layers: seq<seq<Neuron>>, w: real, width: nat, fan: real, x: real, i: nat, a: real, g: real)
    requires Filled(layers, w, width) && fan == width as real && 0 < i < |layers|
    requires Stage(layers, x, i - 1) == Row(width, a, w) && g == w * (fan * a)
    ensures Stage(layers, x, i) == Row(width, g, w)
  {
    RowSum(width, a, w, fan);
    FeedRow(width, w, Sum(Activations(Row(width, a, w))), fan, a, g);
  }

  lemma GrowStep(w: real, fan: real, x: real, i: nat)
    requires i > 0
    ensures Grow(w, fan, x, i) == w * (fan * Grow(w, fan, x, i - 1))
  {
  }

  /** A row with nothing accumulated and every weight `w`, fed fan * a, holds w * (fan * a)
      in every neuron. */
  lemma FeedRow(width: nat, w: real, t: real, fan: real, a: real, g: real)
    requires t == fan * a && g == w * (fan * a)
    ensures Feed(Row(width, 0.0, w), t) == Row(width, g, w)
  {
    forall n | 0 <= n < width
      ensures Feed(Row(width, 0.0, w), t)[n] == Row(width, g, w)[n]
    {
      ExciteFilled(Row(width, 0.0, w)[n], w, t, fan, a, g);
    }
  }

  /** A neuron with nothing accumulated and weight `w`, receiving fan * a. */
  lemma ExciteFilled(n: Neuron, w: real, t: real, fan: real, a: real, g: real)
    requires n == Neuron(0.0, w) && t == fan * a && g == w * (fan * a)
    ensures Excite(n, t) == Neuron(g, w)
  {
  }

  /** A row of neurons all holding activation `a` passes on fan * a, fan being its width. */
  lemma RowSum(width: nat, a: real, w: real, fan: real)
    requires fan == width as real
    ensures Sum(Activations(Row(width, a, w))) == fan * a
  {
    assert Activations(Row(width, a, w)) == Repeat(a, width);
    SumRepeat(a, width);
  }

  /** Output weights all equal to `w` scaling the same total give `g` = w * total each. */
  lemma EmitRepeat(w: real, outputs: nat, total: real, g: real)
    requires g == w * total
    ensures Emit(Repeat(w, outputs), total) == Repeat(g, outputs)
  {
    forall o | 0 <= o < outputs
      ensures Emit(Repeat(w, outputs), total)[o] == Repeat(g, outputs)[o]
    {
      assert Repeat(w, outputs)[o] == w;
    }
  }

  /** The last step of the growth, from the total `t` the last layer passes on. */
  lemma GrowLast(w: real, fan: real, x: real, i: nat, a: real, t: real)
    requires i > 0 && a == Grow(w, fan, x, i - 1) && t == fan * a
    ensures Grow(w, fan, x, i) == w * t
  {
  }

  /** A network filled by `new` with weight `w`, with `outputs` output weights `w`, returns
      `outputs` copies of Grow(w, fan, x, count) when its inputs add up to `x`. */
  lemma FilledOutputs(layers: seq<seq<Neuron>>, w: real, count: nat, width: nat, fan: real, outputs: nat, x: real)
    requires Filled(layers, w, width) && fan == width as real && |layers| == count > 0
    ensures Outputs(layers, Repeat(w, outputs), x) == Repeat(Grow(w, fan, x, count), outputs)
  {
    var last := Forward(layers, x)[|layers| - 1];
    var a := Grow(w, fan, x, count - 1);
    assert last == Stage(layers, x, count - 1);
    FilledStage(layers, w, width, fan, x, count - 1);
    var total := Sum(Activations(Row(width, a, w)));
    RowSum(width, a, w, fan);
    GrowLast(w, fan, x, count, a, total);
    EmitRepeat(w, outputs, total, Grow(w, fan, x, count));
  }

  lemma RepeatClosedForm(w: real, fan: real, x: real, count: nat, outputs: nat)
    ensures Repeat(Grow(w, fan, x, count), outputs) == Repeat(x * Pow(w, count + 1) * Pow(fan, count), outputs)
  {
    GrowClosedForm(w, fan, x, count);
  }

  /** `new(w, count, width, outputs)` run on inputs adding up to `x` returns `outputs` copies
      of x * w^(count+1) * width^count. */
  lemma UniformOutputs(w: real, count: nat, width: nat, outputs: nat, x: real)
    requires count > 0
    ensures Outputs(Uniform(w, count, width), Repeat(w, outputs), x)
      == Repeat(x * Pow(w, count + 1) * Pow(width as real, count), outputs)
  {
    RepeatClosedForm(w, width as real, x, count, outputs);
    UniformGrowth(w, count, width, outputs, x);
  }

  /** The same, with the growth left unexpanded. */
  lemma UniformGrowth(w: real, count: nat, width: nat, outputs: nat, x: real)
    requires count > 0
    ensures Outputs(Uniform(w, count, width), Repeat(w, outputs), x)
      == Repeat(Grow(w, width as real, x, count), outputs)
  {
    UniformFilled(w, count, width);
    FilledOutputs(Uniform(w, count, width), w, count, width, width as real, outputs, x);
  }

  // ---------------------------------------------------------------- mutation

  predicate Bounded(deltas: seq<real>, rate: real)
  {
    forall i :: 0 <= i < |deltas| ==> -rate <= deltas[i] <= rate
  }

  /** One delta per neuron of the network. */
  predicate Matches(deltas: seq<seq<real>>, layers: seq<seq<Neuron>>)
  {
    |deltas| == |layers| && forall l :: 0 <= l < |layers| ==> |deltas[l]| == |layers[l]|
  }

  /** The deltas have the network's shape and each lies in [-rate, rate]. */
  predicate Fits(deltas: seq<seq<real>>, layers: seq<seq<Neuron>>, rate: real)
  {
    Matches(deltas, layers) && forall l :: 0 <= l < |layers| ==> Bounded(deltas[l], rate)
  }

  /** A draw usable by one mutation of a network with these layers and output weights;
      output deltas are only drawn when the output weights are mutated too. */
  predicate DrawFits(draw: Draw, layers: seq<seq<Neuron>>, outputWeights: seq<real>, rate: real, outputs: bool)
  {
    Fits(draw.hidden, layers, rate) &&
    (outputs ==> |draw.outputs| == |outputWeights| && Bounded(draw.outputs, rate))
  }

  function Nudge(n: Neuron, delta: real): Neuron
  {
    n.(weight := n.weight + delta)
  }

  function PerturbLayer(layer: seq<Neuron>, deltas: seq<real>): seq<Neuron>
    requires |deltas| == |layer|
  {
    seq(|layer|, m requires 0 <= m < |layer| => Nudge(layer[m], deltas[m]))
  }

  function Perturb(layers: seq<seq<Neuron>>, deltas: seq<seq<real>>): seq<seq<Neuron>>
    requires Matches(deltas, layers)
  {
    seq(|layers|, l requires 0 <= l < |layers| => PerturbLayer(layers[l], deltas[l]))
  }

  function Shift(weights: seq<real>, deltas: seq<real>): seq<real>
    requires |deltas| == |weights|
  {
    seq(|weights|, o requires 0 <= o < |weights| => weights[o] + deltas[o])
  }

  /** `layers` and `outputWeights` are what mutating `parent` and `parentOutputs` with `draw`
      gives; the output weights only move when `outputs` is set. */
  predicate MutatedBy(layers: seq<seq<Neuron>>, outputWeights: seq<real>,
                      parent: seq<seq<Neuron>>, parentOutputs: seq<real>, draw: Draw, outputs: bool)
  {
    Matches(draw.hidden, parent) && layers == Perturb(parent, draw.hidden) &&
    if outputs then |draw.outputs| == |parentOutputs| && outputWeights == Shift(parentOutputs, draw.outputs)
    else outputWeights == parentOutputs
  }

  /** A mutation keeps the shape and every activation, and moves each weight by at most
      the mutation rate. */
  lemma PerturbWithinRate(layers: seq<seq<Neuron>>, deltas: seq<seq<real>>, rate: real)
    requires Fits(deltas, layers, rate)
    ensures SameShape(Perturb(layers, deltas), layers)
    ensures forall l, n :: 0 <= l < |layers| && 0 <= n < |layers[l]| ==>
      Perturb(layers, deltas)[l][n].activation == layers[l][n].activation &&
      -rate <= Perturb(layers, deltas)[l][n].weight - layers[l][n].weight <= rate
  {
  }

  lemma ShiftWithinRate(weights: seq<real>, deltas: seq<real>, rate: real)
    requires |deltas| == |weights| && Bounded(deltas, rate)
    ensures |Shift(weights, deltas)| == |weights|
    ensures forall o :: 0 <= o < |weights| ==> -rate <= Shift(weights, deltas)[o] - weights[o] <= rate
  {
  }

  function Negate(deltas: seq<seq<real>>): seq<seq<real>>
  {
    seq(|deltas|, l requires 0 <= l < |deltas| => seq(|deltas[l]|, m requires 0 <= m < |deltas[l]| => -deltas[l][m]))
  }

  /** Mutation is invertible: perturbing by the negated deltas restores the network. */
  lemma PerturbUndone(layers: seq<seq<Neuron>>, deltas: seq<seq<real>>, rate: real)
    requires Fits(deltas, layers, rate)
    ensures Fits(Negate(deltas), Perturb(layers, deltas), rate)
    ensures Perturb(Perturb(layers, deltas), Negate(deltas)) == layers
  {
    var p := Perturb(layers, deltas);
    var q := Perturb(p, Negate(deltas));
    forall l | 0 <= l < |layers|
      ensures q[l] == layers[l]
    {
      forall m | 0 <= m < |layers[l]|
        ensures q[l][m] == layers[l][m]
      {
      }
    }
  }

  /** With a rate of zero every output delta is zero and the output weights stay as they were. */
  lemma ShiftAtRateZero(weights: seq<real>, deltas: seq<real>)
    requires |deltas| == |weights| && Bounded(deltas, 0.0)
    ensures Shift(weights, deltas) == weights
  {
    assert forall o :: 0 <= o < |weights| ==> Shift(weights, deltas)[o] == weights[o];
  }

  /** With a rate of zero every delta is zero and the hidden-weight perturbation changes nothing. */
  lemma PerturbAtRateZero(layers: seq<seq<Neuron>>, deltas: seq<seq<real>>)
    requires Fits(deltas, layers, 0.0)
    ensures Perturb(layers, deltas) == layers
  {
    var p := Perturb(layers, deltas);
    forall l | 0 <= l < |layers|
      ensures p[l] == layers[l]
    {
      forall m | 0 <= m < |layers[l]|
        ensures p[l][m] == layers[l][m]
      {
      }
    }
  }
}
