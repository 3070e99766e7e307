/**
 * The linear support vector machine: a weight per input and a bias, trained by
 * stochastic sub-gradient descent on the hinge loss with L2 regularisation. The
 * pure functions state what one sample step and one epoch compute; the SVM class
 * updates its fields in place and is proved to compute exactly those functions.
 */
module Svm {
  import opened Data

  /** The weights and bias of the machine as a value. */
  datatype Model = Model(weights: seq<real>, bias: real)

  /**
   * The raw score `Σ inputs[i] * weights[i] + bias`, summed over the inputs: only
   * the weights at the inputs' own positions are read.
   */
  function Decision(m: Model, x: seq<real>): (d: real)
    requires |x| <= |m.weights|
    ensures d == Dot(x, m.weights[..|x|]) + m.bias
  {
    DotPrefix(x, m.weights, m.weights[..|x|]);
    Dot(x, m.weights) + m.bias
  }

  /**
   * The predicted class: 1 when the score is non-negative, 0 otherwise. An input
   * with more coordinates than there are weights reads a missing weight, which
   * makes the score NaN; NaN >= 0 is false, so such an input is class 0.
   */
  function Predicted(m: Model, x: seq<real>): (guess: nat)
    ensures guess == 1 <==> |x| <= |m.weights| && Decision(m, x) >= 0.0
    ensures guess <= 1
  {
    if |x| <= |m.weights| && Decision(m, x) >= 0.0 then 1 else 0
  }

  /** Class 1 is the positive side, every other label the negative side. */
  function Target(category: nat): (t: real)
    ensures t == 1.0 || t == -1.0
    ensures t == 1.0 <==> category == 1
  {
    if category == 1 then 1.0 else -1.0
  }

  /** The hinge loss max(0, 1 - t * d) of score d against target t. */
  function Hinge(t: real, d: real): (loss: real)
    ensures loss >= 0.0 && loss >= 1.0 - t * d
    ensures loss == 0.0 <==> t * d >= 1.0
    ensures loss > 0.0 ==> loss == 1.0 - t * d
  {
    if 1.0 - t * d > 0.0 then 1.0 - t * d else 0.0
  }

  /**
   * Math.sign(decision) === Math.sign(trueLabel): the score lies strictly on the
   * side of the target. A score of exactly 0 agrees with neither side.
   */
  predicate SameSign(d: real, t: real)
    requires t == 1.0 || t == -1.0
  {
    if t == 1.0 then d > 0.0 else d < 0.0
  }

  /** The weights on first use: `inputSize` draws of Math.random scaled by 0.01, unless weights already exist. */
  function Initialized(w: seq<real>, inputSize: nat, noise: Noise): (r: seq<real>)
    ensures |w| > 0 ==> r == w
    ensures |w| == 0 ==> |r| == inputSize && forall i | 0 <= i < inputSize :: 0.0 <= r[i] < 0.01
  {
    if |w| == 0 then seq(inputSize, i requires 0 <= i < inputSize => 0.01 * noise(i)) else w
  }

  /**
   * The weights after predicting every point of `data` in order: each prediction
   * creates the weights from its own input length when there are none yet, so
   * the first point with inputs fixes them.
   */
  function InitializedBy(w: seq<real>, data: seq<DataPoint>, noise: Noise): (r: seq<real>)
    ensures |w| > 0 ==> r == w
    ensures (forall i | 0 <= i < |data| :: |data[i].inputs| <= |w|) ==> r == w
  {
    if |data| == 0 then w
    else
      var init := data[..|data| - 1];
      assert forall i | 0 <= i < |init| :: init[i] == data[i];
      Initialized(InitializedBy(w, init, noise), |data[|data| - 1].inputs|, noise)
  }

  /**
   * One weight after a sample with target t and hinge loss `loss`, for a data set
   * of n points: on a loss it moves by lr * (c * t * x_i - w_i / n); otherwise it
   * only decays by lr * w_i / n.
   */
  function StepWeight(wi: real, xi: real, t: real, loss: real, lr: real, c: real, n: nat): real
    requires n > 0
  {
    if loss > 0.0 then wi + lr * (c * t * xi - wi / n as real)
    else wi + lr * (-wi / n as real)
  }

  /** Every weight after one sample. */
  function StepWeights(w: seq<real>, x: seq<real>, t: real, loss: real, lr: real, c: real, n: nat): (r: seq<real>)
    requires |x| == |w| && n > 0
    ensures |r| == |w|
  {
    seq(|w|, i requires 0 <= i < |w| => StepWeight(w[i], x[i], t, loss, lr, c, n))
  }

  /** The bias after one sample: it moves by lr * c * t on a loss and is left alone otherwise. */
  function StepBias(b: real, t: real, loss: real, lr: real, c: real): real {
    if loss > 0.0 then b + lr * c * t else b
  }

  /** One step of stochastic gradient descent on sample s, for a data set of n points. */
  function SampleUpdate(m: Model, s: DataPoint, lr: real, c: real, n: nat): (m': Model)
    requires |s.inputs| == |m.weights| && n > 0
    ensures |m'.weights| == |m.weights|
  {
    var t := Target(s.category);
    var loss := Hinge(t, Decision(m, s.inputs));
    Model(StepWeights(m.weights, s.inputs, t, loss, lr, c, n), StepBias(m.bias, t, loss, lr, c))
  }

  /** The state of an epoch: the machine so far and the summed hinge loss. */
  datatype Tally = Tally(model: Model, loss: real)

  /**
   * Continuing an epoch from tally r with samples k, k+1, ... in order. The
   * decay divides by the number of samples, which is the size of the data set.
   */
  function EpochFrom(r: Tally, samples: seq<DataPoint>, k: nat, lr: real, c: real): (r': Tally)
    requires Dimensioned(samples, |r.model.weights|) && k <= |samples|
    ensures |r'.model.weights| == |r.model.weights|
    ensures r'.loss >= r.loss
    decreases |samples| - k
  {
    if k == |samples| then r
    else
      var s := samples[k];
      var loss := Hinge(Target(s.category), Decision(r.model, s.inputs));
      EpochFrom(Tally(SampleUpdate(r.model, s, lr, c, |samples|), r.loss + loss), samples, k + 1, lr, c)
  }

  /** A whole epoch over `samples` from machine m: the machine it leaves and the summed hinge loss. */
  function Epoch(m: Model, samples: seq<DataPoint>, lr: real, c: real): (r: Tally)
    requires Dimensioned(samples, |m.weights|) && |samples| > 0
    ensures |r.model.weights| == |m.weights| && r.loss >= 0.0
  {
    EpochFrom(Tally(m, 0.0), samples, 0, lr, c)
  }

  /** How many of `data` the machine classifies correctly. */
  function Hits(m: Model, data: seq<DataPoint>): (n: nat)
    ensures n <= |data|
  {
    if |data| == 0 then 0
    else Hits(m, data[..|data| - 1]) + if Predicted(m, data[|data| - 1].inputs) == data[|data| - 1].category then 1 else 0
  }

  /** The share of `data` the machine classifies correctly, 0 for no data. */
  function Accuracy(m: Model, data: seq<DataPoint>): (a: real)
    ensures 0.0 <= a <= 1.0
  {
    Fraction(Hits(m, data), |data|)
  }

  // ---------------------------------------------------------------- properties

  /** A sample with no hinge loss lies on the right side of the boundary, outside the margin, and is predicted correctly. */
  lemma NoLossIsCorrect(m: Model, s: DataPoint)
    requires |s.inputs| <= |m.weights| && s.category <= 1
    requires Hinge(Target(s.category), Decision(m, s.inputs)) == 0.0
    ensures SameSign(Decision(m, s.inputs), Target(s.category))
    ensures Predicted(m, s.inputs) == s.category
  {
    var d := Decision(m, s.inputs);
    if s.category == 1 {
      assert d >= 1.0;
    } else {
      assert -1.0 * d >= 1.0;
    }
  }

  /** A sample scored on the wrong side of the boundary, or exactly on it, always has a loss of at least 1. */
  lemma WrongSideHasLoss(m: Model, s: DataPoint)
    requires |s.inputs| <= |m.weights|
    requires !SameSign(Decision(m, s.inputs), Target(s.category))
    ensures Hinge(Target(s.category), Decision(m, s.inputs)) >= 1.0
  {
    var t, d := Target(s.category), Decision(m, s.inputs);
    assert t * d <= 0.0 by {
      if t == 1.0 { assert d <= 0.0; } else { assert d >= 0.0; }
    }
  }

  /** A sample with no loss only decays the weights, by the factor 1 - lr / n, and keeps the bias. */
  lemma NoLossOnlyDecays(m: Model, s: DataPoint, lr: real, c: real, n: nat)
    requires |s.inputs| == |m.weights| && n > 0
    requires Hinge(Target(s.category), Decision(m, s.inputs)) == 0.0
    ensures var m' := SampleUpdate(m, s, lr, c, n);
            && m'.bias == m.bias
            && forall i | 0 <= i < |m.weights| :: m'.weights[i] == (1.0 - lr / n as real) * m.weights[i]
  {
  }

  /** The arithmetic of one weight update, rewritten as a decay of w plus a pull towards x_i. */
  lemma WeightUpdate(w: real, xi: real, lr: real, c: real, t: real, loss: real, n: nat)
    requires n > 0
    ensures StepWeight(w, xi, t, loss, lr, c, n) == (1.0 - lr / n as real) * w + (if loss > 0.0 then lr * c * t else 0.0) * xi
  {
    var q := n as real;
    assert lr * (w / q) == (lr / q) * w;
    assert lr * (-w / q) == -(lr * (w / q));
  }

  /** Full accuracy means every point is classified correctly, and conversely. */
  lemma {:induction false} AllHits(m: Model, data: seq<DataPoint>)
    ensures Hits(m, data) == |data| <==> forall i | 0 <= i < |data| :: Predicted(m, data[i].inputs) == data[i].category
  {
    if |data| > 0 {
      var init := data[..|data| - 1];
      AllHits(m, init);
      assert forall i | 0 <= i < |init| :: init[i] == data[i];
    }
  }

  /** Points without inputs are scored by the bias alone, so the weights do not matter to them. */
  lemma {:induction false} HitsOnEmptyInputs(m: Model, m': Model, data: seq<DataPoint>)
    requires m.bias == m'.bias
    requires forall i | 0 <= i < |data| :: |data[i].inputs| == 0
    ensures Hits(m, data) == Hits(m', data)
  {
    if |data| > 0 {
      var init := data[..|data| - 1];
      assert forall i | 0 <= i < |init| :: init[i] == data[i];
      HitsOnEmptyInputs(m, m', init);
      assert Decision(m, data[|data| - 1].inputs) == m.bias;
      assert Decision(m', data[|data| - 1].inputs) == m'.bias;
    }
  }

  // ---------------------------------------------------------------- the class

  class SVM {
    const learningRate: real
    /** The regularisation constant C. */
    const c: real
    var weights: seq<real>
    var bias: real

    function Current(): Model
      reads this
    {
      Model(weights, bias)
    }

    /** No weights until the first input fixes their number, and a zero bias. */
    constructor (learningRate: real, c: real)
      ensures this.learningRate == learningRate && this.c == c
      ensures weights == [] && bias == 0.0
    {
      this.learningRate := learningRate;
      this.c := c;
      weights := [];
      bias := 0.0;
    }

    /** Draws `inputSize` small random weights, only when there are no weights yet. */
    method InitializeWeights(inputSize: nat, noise: Noise)
      modifies this
      ensures weights == Initialized(old(weights), inputSize, noise) && bias == old(bias)
    {
      if |weights| == 0 {
        weights := seq(inputSize, i requires 0 <= i < inputSize => 0.01 * noise(i));
      }
    }

    /**
     * The class of `x`, after creating the weights if there are none. When `x`
     * has more coordinates than the weights, the source's score is NaN and the
     * class is 0.
     */
    method Predict(x: seq<real>, noise: Noise) returns (guess: nat)
      modifies this
      ensures weights == Initialized(old(weights), |x|, noise) && bias == old(bias)
      ensures guess == Predicted(Current(), x)
    {
      InitializeWeights(|x|, noise);
      if |x| <= |weights| {
        var decision := Dot(x, weights) + bias;
        guess := if decision >= 0.0 then 1 else 0;
      } else {
        guess := 0;
      }
    }

    /** The weight and bias update of one sample with target t and hinge loss `loss`, for a data set of n points. */
    method ApplyStep(x: seq<real>, t: real, loss: real, n: nat)
      requires |x| == |weights| && n > 0
      modifies this
      ensures weights == StepWeights(old(weights), x, t, loss, learningRate, c, n)
      ensures bias == StepBias(old(bias), t, loss, learningRate, c)
    {
      ghost var w0 := weights;
      if loss > 0.0 {
        for i := 0 to |weights|
          invariant |weights| == |w0| && bias == old(bias)
          invariant forall j | 0 <= j < i :: weights[j] == StepWeight(w0[j], x[j], t, loss, learningRate, c, n)
          invariant forall j | i <= j < |weights| :: weights[j] == w0[j]
        {
          weights := weights[i := weights[i] + learningRate * (c * t * x[i] - weights[i] / n as real)];
        }
        bias := bias + learningRate * c * t;
      } else {
        for i := 0 to |weights|
          invariant |weights| == |w0| && bias == old(bias)
          invariant forall j | 0 <= j < i :: weights[j] == StepWeight(w0[j], x[j], t, loss, learningRate, c, n)
          invariant forall j | i <= j < |weights| :: weights[j] == w0[j]
        {
          weights := weights[i := weights[i] + learningRate * (-weights[i] / n as real)];
        }
      }
    }

    /** The share of `testData` classified correctly, 0 when there is none; the first prediction may create the weights. */
    method GetAccuracy(testData: seq<DataPoint>, noise: Noise) returns (accuracy: real)
      modifies this
      ensures weights == InitializedBy(old(weights), testData, noise) && bias == old(bias)
      ensures accuracy == Accuracy(Current(), testData)
    {
      if |testData| == 0 {
        return 0.0;
      }
      var correct := 0;
      for i := 0 to |testData|
        invariant weights == InitializedBy(old(weights), testData[..i], noise) && bias == old(bias)
        invariant |weights| == 0 ==> forall j | 0 <= j < i :: |testData[j].inputs| == 0
        invariant correct == Hits(Current(), testData[..i])
      {
        ghost var before := Current();
        var guess := Predict(testData[i].inputs, noise);
        assert testData[..i + 1][..i] == testData[..i];
        if before.weights != weights {
          HitsOnEmptyInputs(before, Current(), testData[..i]);
        }
        if guess == testData[i].category {
          correct := correct + 1;
        }
      }
      assert testData[..|testData|] == testData;
      accuracy := correct as real / |testData| as real;
    }

    /**
     * One epoch of training over `shuffled`, a reordering of `data` that stands
     * for the source's random shuffle. An empty data set changes nothing and
     * reports zeros; otherwise the weights are created from the first point if
     * needed, every sample takes one step, and the result is the mean hinge
     * loss together with the accuracy on the whole data set afterwards.
     */
    method TrainEpoch(data: seq<DataPoint>, shuffled: seq<DataPoint>, noise: Noise) returns (averageLoss: real, accuracy: real)
      requires multiset(shuffled) == multiset(data)
      requires data != [] ==> Dimensioned(data, |Initialized(weights, |data[0].inputs|, noise)|)
      modifies this
      ensures data == [] ==> averageLoss == 0.0 && accuracy == 0.0 && weights == old(weights) && bias == old(bias)
      ensures data != [] ==>
                (ReorderedKeepsDimensions(data, shuffled, |Initialized(old(weights), |data[0].inputs|, noise)|);
                 var r := Epoch(Model(Initialized(old(weights), |data[0].inputs|, noise), old(bias)), shuffled, learningRate, c);
                 && Current() == r.model
                 && averageLoss == r.loss / |data| as real
                 && accuracy == Accuracy(r.model, data))
    {
      if |data| == 0 {
        return 0.0, 0.0;
      }
      InitializeWeights(|data[0].inputs|, noise);
      ReorderedKeepsDimensions(data, shuffled, |weights|);
      ghost var dim := |weights|;
      ghost var goal := Epoch(Current(), shuffled, learningRate, c);
      var totalLoss := 0.0;
      for i := 0 to |shuffled|
        invariant |weights| == dim
        invariant EpochFrom(Tally(Current(), totalLoss), shuffled, i, learningRate, c) == goal
      {
        var x := shuffled[i].inputs;
        var t := Target(shuffled[i].category);
        var decision := Dot(x, weights) + bias;
        var loss := Hinge(t, decision);
        totalLoss := totalLoss + loss;
        ApplyStep(x, t, loss, |data|);
      }
      averageLoss := totalLoss / |data| as real;
      accuracy := GetAccuracy(data, noise);
    }
  }
}
