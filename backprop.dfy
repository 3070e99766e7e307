/**
 * The mathematics of the feed-forward network as pure functions: the forward
 * trace through the layers, the gradient of each neuron, the error signal handed
 * back to the previous layer, the online update of weights and biases, and one
 * epoch of training as a fold over the shuffled samples. The classes in module
 * NeuralNetworks are proved to compute exactly these functions.
 */
module Backprop {
  import opened Activations
  import opened Data

  /** What one layer holds: a weight row per neuron, a bias per neuron and its activation kind. */
  datatype LayerParams = LayerParams(weights: seq<seq<real>>, biases: seq<real>, activation: Activation)

  /** The number of values entering layer i (i == |ps| gives the network's output width). */
  function Width(ps: seq<LayerParams>, inputSize: nat, i: nat): nat
    requires i <= |ps|
  {
    if i == 0 then inputSize else |ps[i - 1].weights|
  }

  /**
   * Layer i has one bias per neuron, and each neuron has one weight per neuron of
   * layer i-1 (per network input for layer 0).
   */
  predicate WellShaped(ps: seq<LayerParams>, inputSize: nat) {
    && (forall i | 0 <= i < |ps| :: |ps[i].biases| == |ps[i].weights|)
    && (forall i, j | 0 <= i < |ps| && 0 <= j < |ps[i].weights| :: |ps[i].weights[j]| == Width(ps, inputSize, i))
  }

  /** A well-shaped network whose output is a single value (the input itself when there are no layers). */
  predicate Trainable(ps: seq<LayerParams>, inputSize: nat) {
    && WellShaped(ps, inputSize)
    && Width(ps, inputSize, |ps|) >= 1
    && (|ps| > 0 ==> Width(ps, inputSize, |ps|) == 1)
  }

  /** `q` has exactly the dimensions and the activation kind of `p`. */
  predicate SameLayerShape(p: LayerParams, q: LayerParams) {
    && q.activation == p.activation
    && |q.weights| == |p.weights|
    && |q.biases| == |p.biases|
    && forall j | 0 <= j < |p.weights| :: |q.weights[j]| == |p.weights[j]|
  }

  /** `qs` has exactly the dimensions and activation kinds of `ps`. */
  predicate SameShape(ps: seq<LayerParams>, qs: seq<LayerParams>) {
    |qs| == |ps| && forall i | 0 <= i < |ps| :: SameLayerShape(ps[i], qs[i])
  }

  lemma SameShapeKeepsWidths(ps: seq<LayerParams>, qs: seq<LayerParams>, inputSize: nat)
    requires SameShape(ps, qs)
    ensures forall i | 0 <= i <= |ps| :: Width(qs, inputSize, i) == Width(ps, inputSize, i)
    ensures WellShaped(ps, inputSize) ==> WellShaped(qs, inputSize)
    ensures Trainable(ps, inputSize) ==> Trainable(qs, inputSize)
  {
    assert forall i | 0 <= i <= |ps| :: Width(qs, inputSize, i) == Width(ps, inputSize, i);
  }

  lemma SameShapeTransitive(ps: seq<LayerParams>, qs: seq<LayerParams>, rs: seq<LayerParams>)
    requires SameShape(ps, qs) && SameShape(qs, rs)
    ensures SameShape(ps, rs)
  {
  }

  // ---------------------------------------------------------------- forward

  /** The outputs of one layer: per neuron, the activation of its weighted input sum plus its bias. */
  function LayerOutput(p: LayerParams, x: seq<real>, math: Transcendentals): (y: seq<real>)
    requires |p.biases| == |p.weights|
    requires forall j | 0 <= j < |p.weights| :: |p.weights[j]| <= |x|
    ensures |y| == |p.weights|
  {
    seq(|p.weights|, i requires 0 <= i < |p.weights| =>
      Activate(p.activation, Dot(p.weights[i], x) + p.biases[i], math))
  }

  /** The vector that enters layer l when `x` enters the network (l == |ps| gives the network's output). */
  function LayerInput(ps: seq<LayerParams>, inputSize: nat, x: seq<real>, l: nat, math: Transcendentals): (v: seq<real>)
    requires WellShaped(ps, inputSize) && |x| == inputSize && l <= |ps|
    ensures |v| == Width(ps, inputSize, l)
    decreases l
  {
    if l == 0 then x
    else LayerOutput(ps[l - 1], LayerInput(ps, inputSize, x, l - 1, math), math)
  }

  /** Every intermediate vector of one forward pass: entry l enters layer l, the last one leaves the network. */
  function Trace(ps: seq<LayerParams>, inputSize: nat, x: seq<real>, math: Transcendentals): (t: seq<seq<real>>)
    requires WellShaped(ps, inputSize) && |x| == inputSize
    ensures |t| == |ps| + 1
    ensures forall l | 0 <= l <= |ps| :: |t[l]| == Width(ps, inputSize, l)
  {
    seq(|ps| + 1, l requires 0 <= l <= |ps| => LayerInput(ps, inputSize, x, l, math))
  }

  /** Entry i of the trace enters layer i, and entry i+1 is what layer i makes of it. */
  lemma TraceStep(ps: seq<LayerParams>, inputSize: nat, x: seq<real>, math: Transcendentals, i: nat)
    requires WellShaped(ps, inputSize) && |x| == inputSize && i < |ps|
    ensures var t := Trace(ps, inputSize, x, math);
            t[i] == LayerInput(ps, inputSize, x, i, math) && t[i + 1] == LayerOutput(ps[i], t[i], math)
  {
    var t := Trace(ps, inputSize, x, math);
    assert t[i + 1] == LayerInput(ps, inputSize, x, i + 1, math);
  }

  /**
   * The network's prediction: element 0 of the last vector of the forward pass.
   * Behind a sigmoid output layer it lies strictly between 0 and 1.
   */
  function Output(ps: seq<LayerParams>, inputSize: nat, x: seq<real>, math: Transcendentals): (y: real)
    requires WellShaped(ps, inputSize) && |x| == inputSize && Width(ps, inputSize, |ps|) >= 1
    ensures |ps| > 0 && ps[|ps| - 1].activation == Sigmoid ==> 0.0 < y < 1.0
  {
    LayerInput(ps, inputSize, x, |ps|, math)[0]
  }

  // --------------------------------------------------------------- backward

  /** Per neuron j of a layer: the error signal reaching j times the derivative at j's output. */
  function Gradients(errors: seq<real>, outputs: seq<real>, act: Activation): (g: seq<real>)
    requires |outputs| <= |errors|
    ensures |g| == |outputs|
  {
    seq(|outputs|, j requires 0 <= j < |outputs| => errors[j] * Derivative(act, outputs[j]))
  }

  /**
   * The error signal for input k of a layer, accumulated over its first j neurons
   * in neuron order: the sum of weights[j'][k] * g[j'] for j' < j.
   */
  function PartialError(weights: seq<seq<real>>, g: seq<real>, j: nat, k: nat): real
    requires j <= |g| && j <= |weights|
    requires forall j' | 0 <= j' < j :: k < |weights[j']|
  {
    if j == 0 then 0.0 else PartialError(weights, g, j - 1, k) + weights[j - 1][k] * g[j - 1]
  }

  /** Neurons whose gradient is zero (a relu that did not fire, say) send no error back, whatever their weights. */
  lemma {:induction false} NoGradientNoError(weights: seq<seq<real>>, g: seq<real>, j: nat, k: nat)
    requires j <= |g| && j <= |weights|
    requires forall j' | 0 <= j' < j :: k < |weights[j']|
    requires forall j' | 0 <= j' < j :: g[j'] == 0.0
    ensures PartialError(weights, g, j, k) == 0.0
  {
    if j > 0 {
      NoGradientNoError(weights, g, j - 1, k);
      assert weights[j - 1][k] * g[j - 1] == 0.0;
    }
  }

  /** The error vector handed to the previous layer, one entry per input of this layer. */
  function ErrorsBack(weights: seq<seq<real>>, g: seq<real>, width: nat): (e: seq<real>)
    requires |g| <= |weights|
    requires forall j | 0 <= j < |g| :: width <= |weights[j]|
    ensures |e| == width
  {
    seq(width, k requires 0 <= k < width => PartialError(weights, g, |g|, k))
  }

  /** One neuron's weight row after the update: weight k moves by lr * g_j * input_k. */
  function UpdatedRow(row: seq<real>, gj: real, inputs: seq<real>, lr: real): (r: seq<real>)
    requires |row| <= |inputs|
    ensures |r| == |row|
  {
    seq(|row|, k requires 0 <= k < |row| => row[k] + lr * gj * inputs[k])
  }

  /** A layer after its online update; its shape and activation kind are those it had. */
  function UpdatedLayer(p: LayerParams, g: seq<real>, inputs: seq<real>, lr: real): (q: LayerParams)
    requires |g| == |p.weights| == |p.biases|
    requires forall j | 0 <= j < |p.weights| :: |p.weights[j]| == |inputs|
    ensures q.activation == p.activation && |q.weights| == |p.weights| && |q.biases| == |p.biases|
    ensures forall j | 0 <= j < |q.weights| :: |q.weights[j]| == |p.weights[j]|
  {
    LayerParams(
      seq(|p.weights|, j requires 0 <= j < |p.weights| => UpdatedRow(p.weights[j], g[j], inputs, lr)),
      seq(|p.biases|, j requires 0 <= j < |p.biases| => p.biases[j] + lr * g[j]),
      p.activation)
  }

  /** Rows and biases that each hold their neuron's update make up the updated layer. */
  lemma UpdatedLayerFrom(p: LayerParams, g: seq<real>, inputs: seq<real>, lr: real, w: seq<seq<real>>, b: seq<real>)
    requires |g| == |p.weights| == |p.biases| == |w| == |b|
    requires forall j | 0 <= j < |p.weights| :: |p.weights[j]| == |inputs|
    requires forall j | 0 <= j < |w| :: w[j] == UpdatedRow(p.weights[j], g[j], inputs, lr)
    requires forall j | 0 <= j < |b| :: b[j] == p.biases[j] + lr * g[j]
    ensures LayerParams(w, b, p.activation) == UpdatedLayer(p, g, inputs, lr)
  {
    var q := UpdatedLayer(p, g, inputs, lr);
    assert forall j | 0 <= j < |w| :: w[j] == q.weights[j];
    assert forall j | 0 <= j < |b| :: b[j] == q.biases[j];
  }

  /** The forward trace `t` fits the dimensions of `ps`. */
  predicate TraceFits(ps: seq<LayerParams>, inputSize: nat, t: seq<seq<real>>) {
    |t| == |ps| + 1 && forall l | 0 <= l <= |ps| :: |t[l]| == Width(ps, inputSize, l)
  }

  /**
   * The error signal reaching the neurons of layer i when `error` is the error
   * of the network's single output and `t` the forward trace of the sample: the
   * output layer receives [error], and every other layer receives what the layer
   * above it hands back, computed from that layer's weights BEFORE its update.
   */
  function Signal(ps: seq<LayerParams>, inputSize: nat, t: seq<seq<real>>, error: real, i: nat): (e: seq<real>)
    requires Trainable(ps, inputSize) && TraceFits(ps, inputSize, t) && i < |ps|
    ensures |e| == |ps[i].weights|
    decreases |ps| - i, 0
  {
    if i == |ps| - 1 then [error]
    else ErrorsBack(ps[i + 1].weights, Gradient(ps, inputSize, t, error, i + 1), |t[i + 1]|)
  }

  /** The gradients of the neurons of layer i: their error signal times the derivative at their cached outputs. */
  function Gradient(ps: seq<LayerParams>, inputSize: nat, t: seq<seq<real>>, error: real, i: nat): (g: seq<real>)
    requires Trainable(ps, inputSize) && TraceFits(ps, inputSize, t) && i < |ps|
    ensures |g| == |ps[i].weights|
    decreases |ps| - i, 1
  {
    Gradients(Signal(ps, inputSize, t, error, i), t[i + 1], ps[i].activation)
  }

  /**
   * The network after back-propagating `error` for the sample whose forward
   * trace is `t`: each layer m moves by its own gradients and its own cached
   * inputs t[m], and those gradients come from the weights of the layers above
   * it as they were BEFORE their update.
   */
  function Backward(ps: seq<LayerParams>, inputSize: nat, t: seq<seq<real>>, error: real, lr: real)
    : (qs: seq<LayerParams>)
    requires Trainable(ps, inputSize) && TraceFits(ps, inputSize, t)
    ensures SameShape(ps, qs) && Trainable(qs, inputSize)
  {
    var qs := seq(|ps|, m requires 0 <= m < |ps| => UpdatedLayer(ps[m], Gradient(ps, inputSize, t, error, m), t[m], lr));
    SameShapeKeepsWidths(ps, qs, inputSize);
    qs
  }

  /** The error of a prediction `out` for a sample of class `y`: the signed difference, not its square. */
  function SampleError(y: nat, out: real): real {
    y as real - out
  }

  /** The network after training on one sample: a forward pass, then back-propagation of the output error. */
  function SampleStep(ps: seq<LayerParams>, inputSize: nat, x: seq<real>, y: nat, lr: real, math: Transcendentals)
    : (qs: seq<LayerParams>)
    requires Trainable(ps, inputSize) && |x| == inputSize
    ensures SameShape(ps, qs) && Trainable(qs, inputSize)
  {
    var t := Trace(ps, inputSize, x, math);
    Backward(ps, inputSize, t, SampleError(y, t[|ps|][0]), lr)
  }

  /** Math.round: the nearest integer, halves rounded up. */
  function Round(v: real): int {
    (v + 0.5).Floor
  }

  /** Round picks the integer within half of v, and the upper one at a tie. */
  lemma RoundIsNearest(v: real)
    ensures Round(v) as real - 0.5 <= v < Round(v) as real + 0.5
  {
  }

  /** The state of an epoch: the network so far, the summed squared error and the count of correct predictions. */
  datatype EpochTally = EpochTally(params: seq<LayerParams>, loss: real, correct: nat)

  /**
   * One sample of an epoch: the sample is predicted with the network as the
   * samples before it left it, its squared error is added to the loss, it counts
   * as correct when its rounded prediction equals its class, and then the network
   * is trained on it.
   */
  function TallyStep(r: EpochTally, inputSize: nat, s: DataPoint, lr: real, math: Transcendentals): (r': EpochTally)
    requires Trainable(r.params, inputSize) && |s.inputs| == inputSize
    ensures SameShape(r.params, r'.params) && Trainable(r'.params, inputSize)
    ensures r'.loss >= r.loss && r.correct <= r'.correct <= r.correct + 1
  {
    var out := Output(r.params, inputSize, s.inputs, math);
    EpochTally(SampleStep(r.params, inputSize, s.inputs, s.category, lr, math),
               r.loss + Squared(SampleError(s.category, out)),
               r.correct + if Round(out) == s.category then 1 else 0)
  }

  /** Continuing an epoch from tally r with samples k, k+1, ... in order. */
  function EpochFrom(r: EpochTally, inputSize: nat, samples: seq<DataPoint>, k: nat, lr: real, math: Transcendentals)
    : (r': EpochTally)
    requires Trainable(r.params, inputSize) && Dimensioned(samples, inputSize) && k <= |samples|
    ensures Trainable(r'.params, inputSize)
    ensures r'.loss >= r.loss && r.correct <= r'.correct <= r.correct + (|samples| - k)
    decreases |samples| - k
  {
    if k == |samples| then r
    else EpochFrom(TallyStep(r, inputSize, samples[k], lr, math), inputSize, samples, k + 1, lr, math)
  }

  /** A whole epoch over `samples`, starting from the network ps with no loss and no hits. */
  function Epoch(ps: seq<LayerParams>, inputSize: nat, samples: seq<DataPoint>, lr: real, math: Transcendentals)
    : (r: EpochTally)
    requires Trainable(ps, inputSize) && Dimensioned(samples, inputSize)
    ensures Trainable(r.params, inputSize)
    ensures r.loss >= 0.0 && r.correct <= |samples|
  {
    EpochFrom(EpochTally(ps, 0.0, 0), inputSize, samples, 0, lr, math)
  }

  /** Continuing an epoch never changes the dimensions or activation kinds of the network. */
  lemma {:induction false} EpochFromKeepsShape(r: EpochTally, inputSize: nat, samples: seq<DataPoint>, k: nat, lr: real, math: Transcendentals)
    requires Trainable(r.params, inputSize) && Dimensioned(samples, inputSize) && k <= |samples|
    ensures SameShape(r.params, EpochFrom(r, inputSize, samples, k, lr, math).params)
    decreases |samples| - k
  {
    if k < |samples| {
      var next := TallyStep(r, inputSize, samples[k], lr, math);
      EpochFromKeepsShape(next, inputSize, samples, k + 1, lr, math);
      SameShapeTransitive(r.params, next.params, EpochFrom(next, inputSize, samples, k + 1, lr, math).params);
    }
  }

  /** Training for an epoch never changes the dimensions or activation kinds of the network. */
  lemma EpochKeepsShape(ps: seq<LayerParams>, inputSize: nat, samples: seq<DataPoint>, lr: real, math: Transcendentals)
    requires Trainable(ps, inputSize) && Dimensioned(samples, inputSize)
    ensures SameShape(ps, Epoch(ps, inputSize, samples, lr, math).params)
  {
    EpochFromKeepsShape(EpochTally(ps, 0.0, 0), inputSize, samples, 0, lr, math);
  }

  /**
   * ts[0], ts[1], ..., ts[k] are the tallies of an epoch over `samples` after
   * 0, 1, ..., k samples: each is the TallyStep of the one before it.
   */
  ghost predicate Chained(ts: seq<EpochTally>, inputSize: nat, samples: seq<DataPoint>, k: nat, lr: real, math: Transcendentals)
    decreases k
  {
    && k < |ts| && k <= |samples| && Dimensioned(samples, inputSize) && Trainable(ts[0].params, inputSize)
    && (k > 0 ==>
          && Chained(ts, inputSize, samples, k - 1, lr, math)
          && Trainable(ts[k - 1].params, inputSize)
          && ts[k] == TallyStep(ts[k - 1], inputSize, samples[k - 1], lr, math))
  }

  /** A chain stays one when more tallies are appended after it. */
  lemma {:induction false} ChainedPrefix(ts: seq<EpochTally>, more: seq<EpochTally>, inputSize: nat, samples: seq<DataPoint>, k: nat, lr: real, math: Transcendentals)
    requires Chained(ts, inputSize, samples, k, lr, math)
    ensures Chained(ts + more, inputSize, samples, k, lr, math)
    decreases k
  {
    if k > 0 {
      ChainedPrefix(ts, more, inputSize, samples, k - 1, lr, math);
    }
  }

  /** Extending a chain of k samples by the tally after sample k gives a chain of k+1 samples. */
  lemma ChainedExtend(ts: seq<EpochTally>, next: EpochTally, inputSize: nat, samples: seq<DataPoint>, k: nat, lr: real, math: Transcendentals)
    requires Chained(ts, inputSize, samples, k, lr, math) && |ts| == k + 1 && k < |samples|
    requires Trainable(ts[k].params, inputSize) && next == TallyStep(ts[k], inputSize, samples[k], lr, math)
    ensures Chained(ts + [next], inputSize, samples, k + 1, lr, math)
  {
    ChainedPrefix(ts, [next], inputSize, samples, k, lr, math);
  }

  /** Every tally of a chain continues the epoch begun at its first one towards the same end. */
  lemma {:induction false} ChainedFrom(ts: seq<EpochTally>, inputSize: nat, samples: seq<DataPoint>, k: nat, lr: real, math: Transcendentals)
    requires Chained(ts, inputSize, samples, k, lr, math)
    ensures Trainable(ts[k].params, inputSize)
    ensures EpochFrom(ts[0], inputSize, samples, 0, lr, math) == EpochFrom(ts[k], inputSize, samples, k, lr, math)
    decreases k
  {
    if k > 0 {
      ChainedFrom(ts, inputSize, samples, k - 1, lr, math);
    }
  }

  /** A chain over all the samples ends in the tally of the whole epoch from its first network. */
  lemma ChainedEpoch(ts: seq<EpochTally>, inputSize: nat, samples: seq<DataPoint>, lr: real, math: Transcendentals)
    requires Chained(ts, inputSize, samples, |samples|, lr, math) && ts[0].loss == 0.0 && ts[0].correct == 0
    ensures ts[|samples|] == Epoch(ts[0].params, inputSize, samples, lr, math)
  {
    ChainedFrom(ts, inputSize, samples, |samples|, lr, math);
  }
}
