/** The tuning constants of the network (src/Other/Constants.java). */
module Constants {
  /** Lower end of the range random weights and biases are drawn from. */
  const MinNeuronRange: real := -0.5
  /** Upper end (exclusive) of the range random weights and biases are drawn from. */
  const MaxNeuronRange: real := 0.5
  /** Step size of gradient descent. */
  const LearningRate: real := 0.1
  /** Fraction by which an averaged weight gradient is shrunk (L2 regularisation). */
  const L2RegConstant: real := 0.02
  /** Number of examples between two parameter updates in the training driver. */
  const BatchSize: nat := 256
}
