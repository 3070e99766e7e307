/**
 * The network objects: a Layer holds its weights, biases and the caches of its
 * last forward pass and is updated in place; a NeuralNetwork owns a sequence of
 * distinct layers. Each method is proved to compute the functions of module Backprop.
 */
module NeuralNetworks {
  import opened Activations
  import opened Data
  import opened Backprop

  class Layer {
    var weights: seq<seq<real>>
    var biases: seq<real>
    const activation: Activation
    /** The vector given to the last forward pass, and what that pass returned. */
    var inputs: seq<real>
    var outputs: seq<real>

    function Params(): LayerParams
      reads this
    {
      LayerParams(weights, biases, activation)
    }

    /** `rows` neurons, each with one bias and `cols` weights. */
    ghost predicate Shaped(rows: nat, cols: nat)
      reads this
    {
      |weights| == rows && |biases| == rows && forall j | 0 <= j < rows :: |weights[j]| == cols
    }

    /** Empty caches, and every weight and bias in [-1, 1), as a new layer has them. */
    ghost predicate Fresh()
      reads this
    {
      && inputs == [] && outputs == []
      && (forall j, k | 0 <= j < |weights| && 0 <= k < |weights[j]| :: -1.0 <= weights[j][k] < 1.0)
      && (forall j | 0 <= j < |biases| :: -1.0 <= biases[j] < 1.0)
    }

    /**
     * A layer of `outputSize` neurons over `inputSize` inputs. The random numbers
     * are drawn from position `offset` of the stream `noise`, weights row by row
     * and then the biases, each scaled from [0, 1) to [-1, 1).
     */
    constructor (inputSize: nat, outputSize: nat, activation: Activation, noise: Noise, offset: nat)
      ensures this.activation == activation && inputs == [] && outputs == []
      ensures |weights| == outputSize && |biases| == outputSize
      ensures forall i | 0 <= i < outputSize :: |weights[i]| == inputSize
      ensures forall i, j | 0 <= i < outputSize && 0 <= j < inputSize ::
                weights[i][j] == 2.0 * noise(offset + i * inputSize + j) - 1.0
      ensures forall i | 0 <= i < outputSize :: biases[i] == 2.0 * noise(offset + outputSize * inputSize + i) - 1.0
      ensures forall i, j | 0 <= i < outputSize && 0 <= j < inputSize :: -1.0 <= weights[i][j] < 1.0
      ensures forall i | 0 <= i < outputSize :: -1.0 <= biases[i] < 1.0
    {
      weights := seq(outputSize, i requires 0 <= i < outputSize =>
        seq(inputSize, j requires 0 <= j < inputSize => 2.0 * noise(offset + i * inputSize + j) - 1.0));
      biases := seq(outputSize, i requires 0 <= i < outputSize => 2.0 * noise(offset + outputSize * inputSize + i) - 1.0);
      this.activation := activation;
      inputs := [];
      outputs := [];
    }

    /** Evaluates every neuron on `x` and remembers `x` and the result for back-propagation. */
    method Forward(x: seq<real>, math: Transcendentals) returns (y: seq<real>)
      requires |biases| == |weights|
      requires forall j | 0 <= j < |weights| :: |weights[j]| <= |x|
      modifies this
      ensures weights == old(weights) && biases == old(biases)
      ensures inputs == x && outputs == y
      ensures |y| == |weights|
      ensures forall i | 0 <= i < |y| :: y[i] == Activate(activation, Dot(weights[i], x) + biases[i], math)
      ensures y == LayerOutput(Params(), x, math)
    {
      inputs := x;
      outputs := LayerOutput(Params(), x, math);
      y := outputs;
    }

    /**
     * One layer of the backward pass, given the error signal `errors` that
     * reaches this layer's neurons. For each neuron j and input k, the error for
     * the previous layer first accumulates weight[j][k] * g_j, and only then is
     * weight[j][k] moved by lr * g_j * input_k; the bias moves by lr * g_j.
     */
    method Backpropagate(errors: seq<real>, lr: real) returns (nextErrors: seq<real>)
      requires |biases| == |weights| == |outputs| <= |errors|
      requires forall j | 0 <= j < |weights| :: |weights[j]| == |inputs|
      modifies this
      ensures inputs == old(inputs) && outputs == old(outputs)
      ensures nextErrors == ErrorsBack(old(weights), Gradients(errors, outputs, activation), |inputs|)
      ensures Params() == UpdatedLayer(old(Params()), Gradients(errors, outputs, activation), inputs, lr)
    {
      var g := Gradients(errors, outputs, activation);
      var q;
      q, nextErrors := UpdateLayer(Params(), g, inputs, lr);
      weights, biases := q.weights, q.biases;
    }
  }

  /**
   * The loop of the backward pass over the neurons of one layer with gradients
   * `g` and cached inputs `xs`: for each neuron j in order, its weights are read
   * into the error for the previous layer and then updated, and then its bias moves
   * by lr * g_j.
   */
  method UpdateLayer(p: LayerParams, g: seq<real>, xs: seq<real>, lr: real) returns (q: LayerParams, nextErrors: seq<real>)
    requires |g| == |p.weights| == |p.biases|
    requires forall j | 0 <= j < |p.weights| :: |p.weights[j]| == |xs|
    ensures q == UpdatedLayer(p, g, xs, lr)
    ensures nextErrors == ErrorsBack(p.weights, g, |xs|)
  {
    var w, b := p.weights, p.biases;
    nextErrors := seq(|xs|, _ => 0.0);
    var j := 0;
    while j < |g|
      invariant 0 <= j <= |g|
      invariant |w| == |p.weights| && |b| == |p.biases| && |nextErrors| == |xs|
      invariant forall j' | 0 <= j' < j :: w[j'] == UpdatedRow(p.weights[j'], g[j'], xs, lr)
      invariant forall j' | j <= j' < |w| :: w[j'] == p.weights[j']
      invariant forall j' | 0 <= j' < j :: b[j'] == p.biases[j'] + lr * g[j']
      invariant forall j' | j <= j' < |b| :: b[j'] == p.biases[j']
      invariant forall k | 0 <= k < |xs| :: nextErrors[k] == PartialError(p.weights, g, j, k)
    {
      var row;
      ghost var acc := nextErrors;
      row, nextErrors := UpdateNeuron(w[j], g[j], xs, lr, nextErrors);
      assert forall k | 0 <= k < |xs| :: nextErrors[k] == PartialError(p.weights, g, j + 1, k) by {
        forall k | 0 <= k < |xs| ensures nextErrors[k] == PartialError(p.weights, g, j + 1, k) {
          assert nextErrors[k] == acc[k] + p.weights[j][k] * g[j];
        }
      }
      w := w[j := row];
      b := b[j := b[j] + lr * g[j]];
      j := j + 1;
    }
    assert forall k | 0 <= k < |xs| :: nextErrors[k] == ErrorsBack(p.weights, g, |xs|)[k];
    UpdatedLayerFrom(p, g, xs, lr, w, b);
    q := LayerParams(w, b, p.activation);
  }

  /**
   * The inner loop of the backward pass for one neuron with gradient `gj`: for each
   * input k in turn, the neuron's current weight k is added (times `gj`) to the
   * error for the previous layer and then moved by lr * gj * input_k.
   */
  method UpdateNeuron(row: seq<real>, gj: real, xs: seq<real>, lr: real, acc: seq<real>)
    returns (row': seq<real>, acc': seq<real>)
    requires |row| == |xs| == |acc|
    ensures row' == UpdatedRow(row, gj, xs, lr)
    ensures |acc'| == |acc| && forall k | 0 <= k < |acc| :: acc'[k] == acc[k] + row[k] * gj
  {
    row', acc' := row, acc;
    for k := 0 to |xs|
      invariant |row'| == |xs| && |acc'| == |acc|
      invariant forall k' | 0 <= k' < k :: row'[k'] == row[k'] + lr * gj * xs[k'] && acc'[k'] == acc[k'] + row[k'] * gj
      invariant forall k' | k <= k' < |xs| :: row'[k'] == row[k'] && acc'[k'] == acc[k']
    {
      acc' := acc'[k := acc'[k] + row'[k] * gj];
      row' := row'[k := row'[k] + lr * gj * xs[k]];
    }
    assert forall k | 0 <= k < |row| :: row'[k] == UpdatedRow(row, gj, xs, lr)[k];
  }

  /** One layer's part of the visualization snapshot. */
  datatype NeuronState = NeuronState(activation: real)
  datatype LayerState = LayerState(neurons: seq<NeuronState>, weights: seq<seq<real>>, biases: seq<real>)
  datatype NetworkState = NetworkState(layers: seq<LayerState>)

  /** How many random numbers a layer of `rows` neurons with `cols` inputs consumes. */
  function Draws(rows: nat, cols: nat): nat {
    rows * cols + rows
  }

  /** A new layer for `def` reading `inputSize` values, seen only through its shape and ranges. */
  method NewLayer(inputSize: nat, def: LayerDefinition, noise: Noise, offset: nat) returns (layer: Layer)
    ensures fresh(layer)
    ensures layer.activation == def.activation
    ensures layer.Shaped(def.neurons, inputSize) && layer.Fresh()
  {
    layer := new Layer(inputSize, def.neurons, def.activation, noise, offset);
  }

  /** The number of inputs of layer i when the network's layers are built from `defs`. */
  function FanIn(defs: seq<LayerDefinition>, inputSize: nat, i: nat): nat
    requires i <= |defs|
  {
    if i == 0 then inputSize else defs[i - 1].neurons
  }

  /**
   * The layers of a network built from `defs` on `inputSize` inputs, in order, each
   * reading the neurons of the one before it; each layer draws its weights and
   * biases from `noise` after those of the layers before it.
   */
  method BuildLayers(inputSize: nat, defs: seq<LayerDefinition>, noise: Noise) returns (built: seq<Layer>, ghost rank: map<Layer, nat>)
    ensures |built| == |defs|
    ensures forall i | 0 <= i < |defs| :: fresh(built[i])
    ensures forall i | 0 <= i < |defs| :: built[i] in rank && rank[built[i]] == i
    ensures forall l | l in rank :: rank[l] < |built| && built[rank[l]] == l
    ensures forall i {:trigger built[i]} | 0 <= i < |defs| :: built[i].activation == defs[i].activation
    ensures forall i {:trigger built[i]} | 0 <= i < |defs| :: built[i].Shaped(defs[i].neurons, FanIn(defs, inputSize, i))
    ensures forall i | 0 <= i < |defs| :: built[i].Fresh()
  {
    built, rank := [], map[];
    var currentInputSize := inputSize;
    var drawn: nat := 0;
    for i := 0 to |defs|
      invariant |built| == i
      invariant currentInputSize == FanIn(defs, inputSize, i)
      invariant forall m | 0 <= m < i :: fresh(built[m])
      invariant forall m | 0 <= m < i :: built[m] in rank && rank[built[m]] == m
      invariant forall l | l in rank :: rank[l] < i && built[rank[l]] == l
      invariant forall m {:trigger built[m]} | 0 <= m < i :: built[m].activation == defs[m].activation
      invariant forall m {:trigger built[m]} | 0 <= m < i :: built[m].Shaped(defs[m].neurons, FanIn(defs, inputSize, m))
      invariant forall m | 0 <= m < i :: built[m].Fresh()
    {
      var layer := NewLayer(currentInputSize, defs[i], noise, drawn);
      built, rank := built + [layer], rank[layer := i];
      drawn := drawn + Draws(defs[i].neurons, currentInputSize);
      currentInputSize := defs[i].neurons;
    }
  }

  class NeuralNetwork {
    const layers: seq<Layer>
    const learningRate: real
    /** The exp and tanh the activations use. */
    const math: Transcendentals
    /** The input dimension the network was built for. */
    ghost const inputSize: nat
    /** The layer objects. */
    ghost const Repr: set<Layer>
    /** The position of each layer in `layers`; it shows that no layer object occurs twice. */
    ghost const rank: map<Layer, nat>

    /** What the layers from position k on hold, in order. */
    ghost function ParamsFrom(k: nat): (ps: seq<LayerParams>)
      requires Distinct() && k <= |layers|
      reads this, Repr
      ensures |ps| == |layers| - k
      ensures forall i {:trigger layers[i]} | k <= i < |layers| :: ps[i - k] == layers[i].Params()
      decreases |layers| - k
    {
      if k == |layers| then [] else [layers[k].Params()] + ParamsFrom(k + 1)
    }

    /** What every layer holds, in order. */
    ghost function Params(): (ps: seq<LayerParams>)
      requires Distinct()
      reads this, Repr
      ensures |ps| == |layers|
      ensures forall i {:trigger layers[i]} | 0 <= i < |layers| :: ps[i] == layers[i].Params()
    {
      ParamsFrom(0)
    }

    /** The layers are distinct objects, `rank` maps each one back to its own position, and `Repr` holds them. */
    ghost predicate Distinct() {
      && Repr == rank.Keys
      && (forall i | 0 <= i < |layers| :: layers[i] in rank && rank[layers[i]] == i)
      && (forall l | l in rank :: rank[l] < |layers| && layers[rank[l]] == l)
    }

    ghost predicate Valid()
      reads this, Repr
    {
      Distinct() && WellShaped(Params(), inputSize)
    }

    /**
     * Every layer's caches hold its part of the forward trace `t`: layer l last
     * read t[l] and produced t[l+1].
     */
    ghost predicate CachesAre(t: seq<seq<real>>)
      requires Distinct() && |t| == |layers| + 1
      reads this, Repr
    {
      forall l {:trigger layers[l]} | 0 <= l < |layers| :: layers[l].inputs == t[l] && layers[l].outputs == t[l + 1]
    }

    /**
     * One layer per definition, in order; layer i reads the neurons of layer i-1
     * (the network inputs for layer 0). Weights and biases are drawn from `noise`.
     */
    constructor (inputSize: nat, defs: seq<LayerDefinition>, learningRate: real, math: Transcendentals, noise: Noise)
      ensures Valid() && this.inputSize == inputSize
      ensures this.learningRate == learningRate && this.math == math
      ensures |layers| == |defs|
      ensures forall i | 0 <= i < |defs| :: fresh(layers[i])
      ensures forall i {:trigger layers[i]} | 0 <= i < |defs| :: layers[i].activation == defs[i].activation
      ensures forall i {:trigger layers[i]} | 0 <= i < |defs| :: layers[i].Shaped(defs[i].neurons, FanIn(defs, inputSize, i))
      ensures forall i | 0 <= i < |defs| :: layers[i].Fresh()
    {
      var built;
      ghost var positions;
      built, positions := BuildLayers(inputSize, defs, noise);
      layers := built;
      rank := positions;
      Repr := positions.Keys;
      this.learningRate := learningRate;
      this.math := math;
      this.inputSize := inputSize;
      new;
      ghost var ps := Params();
      forall i | 0 <= i < |ps| ensures |ps[i].biases| == |ps[i].weights| {
        assert layers[i].Shaped(defs[i].neurons, FanIn(defs, inputSize, i));
      }
      forall i, j | 0 <= i < |ps| && 0 <= j < |ps[i].weights|
        ensures |ps[i].weights[j]| == Width(ps, inputSize, i)
      {
        assert layers[i].Shaped(defs[i].neurons, FanIn(defs, inputSize, i));
        assert i > 0 ==> layers[i - 1].Shaped(defs[i - 1].neurons, FanIn(defs, inputSize, i - 1));
      }
    }

    /** Layer l's part of the forward pass: it reads t[l], caches it, and produces t[l+1]. */
    method ForwardStep(ghost ps: seq<LayerParams>, ghost t: seq<seq<real>>, l: nat, y: seq<real>) returns (y': seq<real>)
      requires Distinct() && WellShaped(ps, inputSize) && TraceFits(ps, inputSize, t) && l < |ps| == |layers|
      requires layers[l].Params() == ps[l] && y == t[l] && t[l + 1] == LayerOutput(ps[l], t[l], math)
      modifies layers[l]
      ensures y' == t[l + 1]
      ensures layers[l].Params() == ps[l] && layers[l].inputs == t[l] && layers[l].outputs == t[l + 1]
      ensures forall m {:trigger layers[m]} | 0 <= m < |layers| && m != l ::
                && layers[m].Params() == old(layers[m].Params())
                && layers[m].inputs == old(layers[m].inputs) && layers[m].outputs == old(layers[m].outputs)
    {
      y' := layers[l].Forward(y, math);
    }

    /** Runs `x` through every layer in order, refreshing each layer's caches. */
    method ForwardPass(x: seq<real>) returns (y: seq<real>)
      requires Valid() && |x| == inputSize
      modifies Repr
      ensures Valid() && Params() == old(Params())
      ensures y == LayerInput(Params(), inputSize, x, |layers|, math)
      ensures CachesAre(Trace(Params(), inputSize, x, math))
    {
      ghost var ps := Params();
      ghost var t := Trace(ps, inputSize, x, math);
      y := x;
      for l := 0 to |layers|
        invariant y == t[l]
        invariant forall m {:trigger layers[m]} | 0 <= m < |layers| ::
                    layers[m].Params() == ps[m] && (m < l ==> layers[m].inputs == t[m] && layers[m].outputs == t[m + 1])
      {
        TraceStep(ps, inputSize, x, math, l);
        y := ForwardStep(ps, t, l, y);
      }
      forall m | 0 <= m < |layers| ensures Params()[m] == ps[m] {
        assert layers[m].Params() == ps[m];
      }
    }

    /** The network's score for `x`: element 0 of the last layer's output. */
    method Predict(x: seq<real>) returns (r: real)
      requires Valid() && |x| == inputSize && Width(Params(), inputSize, |layers|) >= 1
      modifies Repr
      ensures Valid() && Params() == old(Params())
      ensures r == Output(Params(), inputSize, x, math)
      ensures CachesAre(Trace(Params(), inputSize, x, math))
    {
      var y := ForwardPass(x);
      r := y[0];
    }

    /** Layer i's part of the backward pass: it is updated, and it hands back the signal for layer i-1. */
    method BackStep(ghost ps: seq<LayerParams>, ghost t: seq<seq<real>>, ghost error: real, i: nat, errors: seq<real>)
      returns (next: seq<real>)
      requires Distinct() && Trainable(ps, inputSize) && TraceFits(ps, inputSize, t) && i < |ps| == |layers|
      requires layers[i].Params() == ps[i] && layers[i].inputs == t[i] && layers[i].outputs == t[i + 1]
      requires errors == Signal(ps, inputSize, t, error, i)
      modifies layers[i]
      ensures layers[i].Params() == UpdatedLayer(ps[i], Gradient(ps, inputSize, t, error, i), t[i], learningRate)
      ensures layers[i].inputs == old(layers[i].inputs) && layers[i].outputs == old(layers[i].outputs)
      ensures forall m {:trigger layers[m]} | 0 <= m < |layers| && m != i ::
                && layers[m].Params() == old(layers[m].Params())
                && layers[m].inputs == old(layers[m].inputs) && layers[m].outputs == old(layers[m].outputs)
      ensures 0 < i ==> next == Signal(ps, inputSize, t, error, i - 1)
    {
      next := layers[i].Backpropagate(errors, learningRate);
    }

    /**
     * The backward pass of `error` through the network `ps` whose caches hold the
     * forward trace `t`: from the output layer down to the first, each layer is
     * updated in place and hands its error signal to the layer before it.
     */
    method BackwardPass(ghost ps: seq<LayerParams>, ghost t: seq<seq<real>>, error: real)
      requires Distinct() && Trainable(ps, inputSize) && TraceFits(ps, inputSize, t) && |ps| == |layers|
      requires forall m {:trigger layers[m]} | 0 <= m < |layers| :: layers[m].Params() == ps[m]
      requires CachesAre(t)
      modifies Repr
      ensures CachesAre(t)
      ensures Params() == Backward(ps, inputSize, t, error, learningRate)
    {
      var errors := [error];
      var i := |layers|;
      while i > 0
        invariant 0 <= i <= |layers|
        invariant 0 < i ==> errors == Signal(ps, inputSize, t, error, i - 1)
        invariant CachesAre(t)
        invariant forall m {:trigger layers[m]} | 0 <= m < i :: layers[m].Params() == ps[m]
        invariant forall m {:trigger layers[m]} | i <= m < |layers| ::
                    layers[m].Params() == UpdatedLayer(ps[m], Gradient(ps, inputSize, t, error, m), t[m], learningRate)
      {
        i := i - 1;
        errors := BackStep(ps, t, error, i, errors);
      }
      ghost var qs := Backward(ps, inputSize, t, error, learningRate);
      forall m | 0 <= m < |layers| ensures Params()[m] == qs[m] {
        assert layers[m].Params() == qs[m];
      }
    }

    /**
     * Training on one sample: a forward pass, the signed error of element 0 of
     * the output against the sample's class, and the backward pass of that error.
     * Returns the squared error and whether the rounded prediction was right.
     */
    method TrainSample(x: seq<real>, y: nat) returns (loss: real, hit: bool)
      requires Valid() && Trainable(Params(), inputSize) && |x| == inputSize
      modifies Repr
      ensures Valid() && Params() == SampleStep(old(Params()), inputSize, x, y, learningRate, math)
      ensures CachesAre(Trace(old(Params()), inputSize, x, math))
      ensures var out := Output(old(Params()), inputSize, x, math);
              loss == Squared(SampleError(y, out)) && (hit <==> Round(out) == y)
    {
      ghost var ps := Params();
      var output := ForwardPass(x);
      ghost var t := Trace(ps, inputSize, x, math);
      var finalOutput := output[0];
      var error := SampleError(y, finalOutput);
      loss := Squared(error);
      hit := Round(finalOutput) == y;
      BackwardPass(ps, t, error);
    }

    /**
     * Sample `s` of an epoch whose running totals are `totalLoss` and `correct`:
     * the network trains on it, and its squared error and hit are added.
     */
    method EpochStep(s: DataPoint, totalLoss: real, correct: nat) returns (totalLoss': real, correct': nat)
      requires Valid() && Trainable(Params(), inputSize) && |s.inputs| == inputSize
      modifies Repr
      ensures Valid()
      ensures EpochTally(Params(), totalLoss', correct')
              == TallyStep(EpochTally(old(Params()), totalLoss, correct), inputSize, s, learningRate, math)
    {
      ghost var before := EpochTally(Params(), totalLoss, correct);
      ghost var out := Output(before.params, inputSize, s.inputs, math);
      var loss, hit := TrainSample(s.inputs, s.category);
      totalLoss' := totalLoss + loss;
      correct' := correct + if hit then 1 else 0;
      ghost var after := TallyStep(before, inputSize, s, learningRate, math);
      assert after.params == Params();
      assert after.loss == totalLoss' && after.correct == correct';
    }

    /**
     * One epoch of online training over `shuffled`, a reordering of `data` that
     * stands for the source's random shuffle of a copy of the data. Returns the
     * mean squared error and the fraction of samples whose rounded prediction
     * was right, both measured before each sample's own update.
     */
    method TrainEpoch(data: seq<DataPoint>, shuffled: seq<DataPoint>) returns (averageLoss: real, accuracy: real)
      requires Valid() && Trainable(Params(), inputSize)
      requires |data| > 0 && multiset(shuffled) == multiset(data) && Dimensioned(data, inputSize)
      modifies Repr
      ensures Valid() && |shuffled| == |data|
      ensures (ReorderedKeepsDimensions(data, shuffled, inputSize);
               var r := Epoch(old(Params()), inputSize, shuffled, learningRate, math);
               && Params() == r.params
               && averageLoss == Mean(r.loss, |data|)
               && accuracy == Fraction(r.correct, |data|))
      ensures SameShape(old(Params()), Params())
      ensures averageLoss >= 0.0 && 0.0 <= accuracy <= 1.0
    {
      ReorderedKeepsDimensions(data, shuffled, inputSize);
      EpochKeepsShape(Params(), inputSize, shuffled, learningRate, math);
      ghost var tallies := [EpochTally(Params(), 0.0, 0)];
      var totalLoss := 0.0;
      var correctPredictions: nat := 0;
      for i := 0 to |shuffled|
        invariant Valid() && Trainable(Params(), inputSize)
        invariant |tallies| == i + 1 && tallies[i] == EpochTally(Params(), totalLoss, correctPredictions)
        invariant tallies[0] == EpochTally(old(Params()), 0.0, 0)
        invariant Chained(tallies, inputSize, shuffled, i, learningRate, math)
      {
        totalLoss, correctPredictions := EpochStep(shuffled[i], totalLoss, correctPredictions);
        ghost var next := EpochTally(Params(), totalLoss, correctPredictions);
        ChainedExtend(tallies, next, inputSize, shuffled, i, learningRate, math);
        tallies := tallies + [next];
      }
      ChainedEpoch(tallies, inputSize, shuffled, learningRate, math);
      averageLoss := Mean(totalLoss, |data|);
      accuracy := Fraction(correctPredictions, |data|);
    }

    /** The visualization snapshot: per layer, its last outputs as neuron activations, its weights and its biases. */
    function GetState(): (s: NetworkState)
      requires Distinct()
      reads this, Repr
      ensures |s.layers| == |layers|
      ensures forall i | 0 <= i < |layers| ::
                && |s.layers[i].neurons| == |layers[i].outputs|
                && (forall j | 0 <= j < |layers[i].outputs| :: s.layers[i].neurons[j].activation == layers[i].outputs[j])
                && s.layers[i].weights == layers[i].weights
                && s.layers[i].biases == layers[i].biases
    {
      NetworkState(seq(|layers|, i requires 0 <= i < |layers| reads Repr =>
        LayerState(seq(|layers[i].outputs|, j requires 0 <= j < |layers[i].outputs| reads layers[i] =>
                     NeuronState(layers[i].outputs[j])),
                   layers[i].weights, layers[i].biases)))
    }
  }
}
