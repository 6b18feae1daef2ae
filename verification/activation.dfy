/**
 * The activation strategies (ActivationFunction.java): a closed set of
 * variants, each a value/derivative pair, identified by the name of its enum
 * constant when a network is saved.
 */
module Activation {
  import opened Wrappers

  datatype ActivationOption = Sigmoid | ReLU | LeakyReLU

  /**
   * The logistic function 1 / (1 + e^-x). It needs the exponential function,
   * which this model does not interpret: the constant is an arbitrary total
   * function about which nothing is assumed.
   */
  const SigmoidFn: real -> real

  /** ReLU: x when x is positive, else 0, i.e. the larger of x and 0. */
  function Relu(x: real): (y: real)
    ensures y >= 0.0 && y >= x
    ensures y == x || y == 0.0
  {
    if x > 0.0 then x else 0.0
  }

  /** Leaky ReLU: x when x is positive, else a tenth of x, i.e. the larger of x and x/10. */
  function LeakyRelu(x: real): (y: real)
    ensures y >= x && y >= x / 10.0
    ensures y == x || y == x / 10.0
    ensures (y > 0.0) == (x > 0.0)
  {
    if x > 0.0 then x else 0.1 * x
  }

  /** calculateOriginal of the selected variant. */
  function Original(af: ActivationOption, x: real): real
  {
    match af
    case Sigmoid => SigmoidFn(x)
    case ReLU => Relu(x)
    case LeakyReLU => LeakyRelu(x)
  }

  /**
   * calculateDerivative of the selected variant. For sigmoid it is s(1 - s)
   * with s the sigmoid value; the two piecewise-linear variants are
   * positively homogeneous, so their value is their slope times the input.
   */
  function Derivative(af: ActivationOption, x: real): (d: real)
    ensures af == Sigmoid ==> d == Original(af, x) * (1.0 - Original(af, x))
    ensures af != Sigmoid ==> Original(af, x) == d * x
    ensures af == ReLU ==> (d == 1.0 <==> x > 0.0) && (d == 0.0 <==> x <= 0.0)
    ensures af == LeakyReLU ==> (d == 1.0 <==> x > 0.0) && (d == 0.1 <==> x <= 0.0)
  {
    match af
    case Sigmoid => SigmoidFn(x) * (1.0 - SigmoidFn(x))
    case ReLU => if x > 0.0 then 1.0 else 0.0
    case LeakyReLU => if x > 0.0 then 1.0 else 0.1
  }

  /** ReLU applied twice is ReLU applied once. */
  lemma ReluIdempotent(x: real)
    ensures Relu(Relu(x)) == Relu(x)
  {
  }

  /** Sample values of ReLU and leaky ReLU. */
  lemma ActivationExamples()
    ensures Relu(-3.0) == 0.0 && Relu(3.0) == 3.0
    ensures LeakyRelu(-10.0) == -1.0
  {
  }

  /** getAo: the name of the enum constant. */
  function Tag(af: ActivationOption): string
  {
    match af
    case Sigmoid => "SIGMOID"
    case ReLU => "RE_LU"
    case LeakyReLU => "LEAKY_RE_LU"
  }

  /**
   * convertStringToObject: valueOf on the enum. A name that is no constant
   * makes valueOf throw; that is None here.
   */
  function FromTag(s: string): (r: Option<ActivationOption>)
    ensures forall af :: r == Some(af) <==> Tag(af) == s
  {
    if s == "SIGMOID" then Some(Sigmoid)
    else if s == "RE_LU" then Some(ReLU)
    else if s == "LEAKY_RE_LU" then Some(LeakyReLU)
    else None
  }
}
