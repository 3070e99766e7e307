/**
 * The activation table of the network: for each activation kind the forward
 * transform and its derivative expressed through the transform's OUTPUT, as the
 * back-propagation step uses it.
 */
module Activations {

  /** A strictly positive real: the range of the exponential function. */
  type Positive = r: real | r > 0.0 witness 1.0

  /**
   * The transcendental functions the table needs. They are supplied by the
   * caller and left uninterpreted, except that `exp` only returns positive values.
   */
  datatype Transcendentals = Transcendentals(exp: real -> Positive, tanh: real -> real)

  datatype Activation = Relu | Sigmoid | Tanh

  /** The logistic function 1 / (1 + e^-x); always strictly between 0 and 1. */
  function Logistic(x: real, math: Transcendentals): (y: real)
    ensures 0.0 < y < 1.0
  {
    1.0 / (1.0 + math.exp(-x))
  }

  /** The forward transform of an activation kind. */
  function Activate(act: Activation, x: real, math: Transcendentals): (y: real)
    ensures act == Relu ==> y >= 0.0 && (x >= 0.0 ==> y == x) && (x <= 0.0 ==> y == 0.0)
    ensures act == Sigmoid ==> 0.0 < y < 1.0 && y * (1.0 + math.exp(-x)) == 1.0
    ensures act == Tanh ==> y == math.tanh(x)
  {
    match act
    case Relu => if 0.0 < x then x else 0.0
    case Sigmoid => Logistic(x, math)
    case Tanh => math.tanh(x)
  }

  /** The derivative of an activation, written as a function of its output `y`. */
  function Derivative(act: Activation, y: real): (d: real)
    ensures act == Relu ==> (d == 1.0 <==> y > 0.0) && (d == 0.0 <==> y <= 0.0)
    ensures act == Sigmoid ==> d + (y - 0.5) * (y - 0.5) == 0.25
    ensures act == Tanh ==> d + y * y == 1.0
  {
    match act
    case Relu => if y > 0.0 then 1.0 else 0.0
    case Sigmoid => y * (1.0 - y)
    case Tanh => 1.0 - y * y
  }

  /**
   * Expressing the derivative through the output is exact for the logistic
   * function: at y = 1/(1+e^-x) it equals e^-x / (1+e^-x)^2, the derivative
   * of the logistic function at x.
   */
  lemma SigmoidDerivativeFromOutput(x: real, math: Transcendentals)
    ensures var e := math.exp(-x);
            Derivative(Sigmoid, Activate(Sigmoid, x, math)) == e / ((1.0 + e) * (1.0 + e))
  {
    var e := math.exp(-x);
    var y := 1.0 / (1.0 + e);
    assert 1.0 - y == e / (1.0 + e);
    calc {
      y * (1.0 - y);
      (1.0 / (1.0 + e)) * (e / (1.0 + e));
      e / ((1.0 + e) * (1.0 + e));
    }
  }

  /** The sigmoid derivative lies in (0, 1/4] at every output of the sigmoid. */
  lemma SigmoidDerivativeBounds(x: real, math: Transcendentals)
    ensures 0.0 < Derivative(Sigmoid, Activate(Sigmoid, x, math)) <= 0.25
  {
    var y := Activate(Sigmoid, x, math);
    assert 0.0 < y < 1.0;
    assert 0.0 < 1.0 - y;
  }

  /** The relu derivative taken at relu's output is the step function of the input. */
  lemma ReluDerivativeFromOutput(x: real, math: Transcendentals)
    ensures Derivative(Relu, Activate(Relu, x, math)) == if x > 0.0 then 1.0 else 0.0
  {
  }
}
