/**
 * A neuron (src/NetworkClasses/Neuron.java): a weight vector with one entry
 * per neuron of the next layer, a bias and a value, all updated in place.
 * The source draws random numbers with java.util.Random; here every draw
 * is passed in as a value in [0, 1).
 */
module Neurons {
  import opened Constants

  /** A value as Random.nextDouble returns it. */
  type Draw = r: real | 0.0 <= r < 1.0

  /** A draw mapped into [MinNeuronRange, MaxNeuronRange). */
  function DrawToRange(r: Draw): (x: real)
    ensures MinNeuronRange <= x < MaxNeuronRange
    ensures x == -0.5 + r
  {
    MinNeuronRange + (MaxNeuronRange - MinNeuronRange) * r
  }

  class Neuron {
    var w: seq<real>
    var b: real
    var val: real

    /**
     * Neuron(randomize, nextLayerNeuronCount). A randomised neuron takes its
     * weights from the first draws, in order, and its bias from the last; an
     * unrandomised one is all zeros.
     */
    constructor (randomize: bool, nextLayerNeuronCount: nat, draws: seq<Draw>)
      requires randomize ==> |draws| == nextLayerNeuronCount + 1
      ensures |w| == nextLayerNeuronCount && val == 0.0
      ensures randomize ==> (forall i :: 0 <= i < |w| ==> w[i] == DrawToRange(draws[i]))
                            && b == DrawToRange(draws[nextLayerNeuronCount])
      ensures !randomize ==> (forall i :: 0 <= i < |w| ==> w[i] == 0.0) && b == 0.0
    {
      var ws := seq(nextLayerNeuronCount, _ => 0.0);
      var i := 0;
      while i < nextLayerNeuronCount
        invariant 0 <= i <= nextLayerNeuronCount && |ws| == nextLayerNeuronCount
        invariant forall k :: 0 <= k < |ws| ==>
          ws[k] == if randomize && k < i then DrawToRange(draws[k]) else 0.0
      {
        if randomize {
          ws := ws[i := MinNeuronRange + (MaxNeuronRange - MinNeuronRange) * draws[i]];
        }
        i := i + 1;
      }
      w := ws;
      b := if randomize then DrawToRange(draws[nextLayerNeuronCount]) else 0.0;
      val := 0.0;
    }

    /** Neuron(randomize): a neuron of the output layer, with no weights. */
    constructor Terminal(randomize: bool, draw: Draw)
      ensures w == [] && val == 0.0
      ensures b == if randomize then DrawToRange(draw) else 0.0
    {
      w := [];
      b := if randomize then DrawToRange(draw) else 0.0;
      val := 0.0;
    }

    /** setWeights: replaces the weight vector. */
    method SetWeights(ws: seq<real>)
      modifies this
      ensures w == ws && b == old(b) && val == old(val)
    {
      w := ws;
    }

    /** setWeight: one cell of the weight vector; the index must be in range. */
    method SetWeight(index: nat, x: real)
      requires index < |w|
      modifies this
      ensures w == old(w)[index := x] && b == old(b) && val == old(val)
    {
      w := w[index := x];
    }

    /** setBias. */
    method SetBias(x: real)
      modifies this
      ensures b == x && w == old(w) && val == old(val)
    {
      b := x;
    }

    /** setVal. */
    method SetVal(x: real)
      modifies this
      ensures val == x && w == old(w) && b == old(b)
    {
      val := x;
    }
  }
}
