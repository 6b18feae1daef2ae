/**
 * A layer (src/NetworkClasses/Layer.java): a fixed queue of neurons, the
 * activation used to feed the next layer, and the gradient samples recorded
 * by backpropagation until the next parameter update.
 *
 * The source keeps the samples in HashSets of arrays, whose membership is by
 * object identity; every sample the network records is a fresh array, so
 * each one counts and the model keeps them in a sequence.
 */
module Layers {
  import opened Activation
  import opened Util
  import opened Constants
  import opened Neurons

  /** No neuron occurs twice. */
  predicate Distinct(ns: seq<Neuron>)
  {
    forall i, j :: 0 <= i < j < |ns| ==> ns[i] != ns[j]
  }

  // ------------------------------------------------- the forward pass, as values

  /**
   * Column j of a weight matrix, cut to n entries; a row too short to have
   * entry j contributes 0 (the forward pass requires rows long enough).
   */
  function Column(w: Matrix, j: nat, n: nat): (c: Vector)
    ensures |c| == n
  {
    seq(n, i requires 0 <= i < n => if i < |w| && j < |w[i]| then w[i][j] else 0.0)
  }

  /**
   * What activateLayer writes into the next layer: for neuron j, the
   * activation of the source layer applied to its bias plus the sum of
   * vals[i] * w[i][j].
   */
  function Activate(af: ActivationOption, vals: Vector, w: Matrix, biases: Vector): (r: Vector)
    ensures |r| == |biases|
    ensures forall j :: 0 <= j < |biases| ==>
      r[j] == Original(af, Dot(vals, Column(w, j, |vals|)) + biases[j])
  {
    seq(|biases|, j requires 0 <= j < |biases| =>
      Original(af, Dot(vals, Column(w, j, |vals|)) + biases[j]))
  }

  /** A ReLU layer never writes a negative value into the next layer. */
  lemma ReluActivationNonNegative(vals: Vector, w: Matrix, biases: Vector)
    ensures forall j :: 0 <= j < |biases| ==> Activate(ReLU, vals, w, biases)[j] >= 0.0
  {
  }

  /** A dot product with a zero vector is 0. */
  lemma {:induction false} DotZeroLeft(a: Vector, b: Vector)
    requires |a| <= |b|
    requires forall i :: 0 <= i < |a| ==> a[i] == 0.0
    ensures Dot(a, b) == 0.0
  {
    if |a| > 0 {
      DotZeroLeft(a[..|a| - 1], b);
    }
  }

  /** When every value of the source layer is 0, neuron j of the next layer gets af(bias j). */
  lemma ActivateZeroInput(af: ActivationOption, vals: Vector, w: Matrix, biases: Vector)
    requires forall i :: 0 <= i < |vals| ==> vals[i] == 0.0
    ensures forall j :: 0 <= j < |biases| ==> Activate(af, vals, w, biases)[j] == Original(af, biases[j])
  {
    forall j | 0 <= j < |biases|
      ensures Activate(af, vals, w, biases)[j] == Original(af, biases[j])
    {
      DotZeroLeft(vals, Column(w, j, |vals|));
    }
  }

  // ------------------------------------------- the parameter update, as values

  /** Entry [i][j] of one weight sample, 0 where the sample has none. */
  function SampleEntry(s: Matrix, i: nat, j: nat): real
  {
    if i < |s| && j < |s[i]| then s[i][j] else 0.0
  }

  /** Sum of entry [i][j] over the weight samples, in recording order. */
  function SampleSum(samples: seq<Matrix>, i: nat, j: nat): real
  {
    if |samples| == 0 then 0.0 else
      SampleSum(samples[..|samples| - 1], i, j) + SampleEntry(samples[|samples| - 1], i, j)
  }

  /** Entry i of one bias sample, 0 where the sample has none. */
  function BiasEntry(s: Vector, i: nat): real
  {
    if i < |s| then s[i] else 0.0
  }

  /** Sum of entry i over the bias samples, in recording order. */
  function BiasSum(samples: seq<Vector>, i: nat): real
  {
    if |samples| == 0 then 0.0 else
      BiasSum(samples[..|samples| - 1], i) + BiasEntry(samples[|samples| - 1], i)
  }

  /**
   * The biases after adjustWB: without samples unchanged; otherwise bias c
   * moves by the learning rate times the mean of entry c of the samples
   * (in the direction of the gradient: the source adds).
   */
  function AdjustedBiases(biases: Vector, samples: seq<Vector>): (r: Vector)
    ensures |r| == |biases|
    ensures |samples| == 0 ==> r == biases
    ensures |samples| > 0 ==> forall c :: 0 <= c < |biases| ==>
      r[c] == biases[c] + LearningRate * (BiasSum(samples, c) / |samples| as real)
  {
    if |samples| == 0 then biases else
      seq(|biases|, c requires 0 <= c < |biases| =>
        biases[c] + (BiasSum(samples, c) / |samples| as real) * LearningRate)
  }

  /**
   * The weights after adjustWB: without samples unchanged; otherwise the
   * first cols weights of neuron c move against the mean sample, shrunk by
   * L2 regularisation and scaled by the learning rate. Weights past cols are
   * left alone.
   */
  function AdjustedWeights(w: Matrix, samples: seq<Matrix>, cols: int): (r: Matrix)
    ensures |r| == |w| && forall c :: 0 <= c < |w| ==> |r[c]| == |w[c]|
    ensures |samples| == 0 ==> r == w
    ensures |samples| > 0 ==> forall c, i :: 0 <= c < |w| && 0 <= i < |w[c]| ==>
      r[c][i] == if i < cols
                 then w[c][i] - LearningRate * (1.0 - L2RegConstant) * (SampleSum(samples, c, i) / |samples| as real)
                 else w[c][i]
  {
    if |samples| == 0 then w else
      seq(|w|, c requires 0 <= c < |w| =>
        seq(|w[c]|, i requires 0 <= i < |w[c]| =>
          if i < cols then w[c][i] - Shrink(SampleSum(samples, c, i) / |samples| as real) * LearningRate
          else w[c][i]))
  }

  /** n copies of one sample. */
  function Repeat<T>(s: T, n: nat): (r: seq<T>)
    ensures |r| == n && forall k :: 0 <= k < n ==> r[k] == s
  {
    seq(n, _ => s)
  }

  lemma {:induction false} SampleSumRepeat(s: Matrix, n: nat, i: nat, j: nat)
    ensures SampleSum(Repeat(s, n), i, j) == n as real * SampleEntry(s, i, j)
  {
    if n > 0 {
      assert Repeat(s, n)[..n - 1] == Repeat(s, n - 1);
      SampleSumRepeat(s, n - 1, i, j);
    }
  }

  lemma {:induction false} BiasSumRepeat(s: Vector, n: nat, i: nat)
    ensures BiasSum(Repeat(s, n), i) == n as real * BiasEntry(s, i)
  {
    if n > 0 {
      assert Repeat(s, n)[..n - 1] == Repeat(s, n - 1);
      BiasSumRepeat(s, n - 1, i);
    }
  }

  lemma MeanOfCopies(x: real, n: nat)
    requires n > 0
    ensures (n as real * x) / n as real == x
  {
  }

  /** The mean of n copies of a weight sample is that sample. */
  lemma SampleMeanRepeat(s: Matrix, n: nat, i: nat, j: nat)
    requires n > 0
    ensures SampleSum(Repeat(s, n), i, j) / n as real == SampleEntry(s, i, j)
  {
    SampleSumRepeat(s, n, i, j);
    MeanOfCopies(SampleEntry(s, i, j), n);
  }

  /** The mean of n copies of a bias sample is that sample. */
  lemma BiasMeanRepeat(s: Vector, n: nat, i: nat)
    requires n > 0
    ensures BiasSum(Repeat(s, n), i) / n as real == BiasEntry(s, i)
  {
    BiasSumRepeat(s, n, i);
    MeanOfCopies(BiasEntry(s, i), n);
  }

  /**
   * Recording one weight sample n times and then updating gives the same
   * weights as recording it once: the update uses the mean.
   */
  lemma RepeatedWeightSample(w: Matrix, dW: Matrix, cols: int, n: nat)
    requires n > 0
    ensures AdjustedWeights(w, Repeat(dW, n), cols) == AdjustedWeights(w, [dW], cols)
  {
    assert Repeat(dW, 1) == [dW];
    var r, r1 := AdjustedWeights(w, Repeat(dW, n), cols), AdjustedWeights(w, [dW], cols);
    forall c | 0 <= c < |w|
      ensures r[c] == r1[c]
    {
      forall i | 0 <= i < |w[c]|
        ensures r[c][i] == r1[c][i]
      {
        SampleMeanRepeat(dW, n, c, i);
        SampleMeanRepeat(dW, 1, c, i);
      }
    }
  }

  /**
   * Recording one bias sample n times and then updating gives the same
   * biases as recording it once.
   */
  lemma RepeatedBiasSample(biases: Vector, dB: Vector, n: nat)
    requires n > 0
    ensures AdjustedBiases(biases, Repeat(dB, n)) == AdjustedBiases(biases, [dB])
  {
    assert Repeat(dB, 1) == [dB];
    var r, r1 := AdjustedBiases(biases, Repeat(dB, n)), AdjustedBiases(biases, [dB]);
    forall c | 0 <= c < |biases|
      ensures r[c] == r1[c]
    {
      BiasMeanRepeat(dB, n, c);
      BiasMeanRepeat(dB, 1, c);
    }
  }

  // ------------------------------------------------------------ the class

  /**
   * What a layer holds apart from its gradient bookkeeping: values, weight
   * rows and biases in neuron order, its activation and nextNodesNum.
   */
  datatype LayerImage = LayerImage(values: Vector, weights: Matrix, biases: Vector,
                                   af: ActivationOption, next: int)

  /** Every neuron of every layer in ls. */
  function NeuronsOf(ls: seq<Layer>): set<Neuron>
  {
    set l, n | l in ls && n in l.neuronQueue :: n
  }

  class Layer {
    const neuronQueue: seq<Neuron>
    var dWSet: seq<Matrix>
    var dBSet: seq<Vector>
    const matrixDims: array<int>
    var hasWeights: bool
    var hasBiases: bool
    const af: ActivationOption
    const nextNodesNum: int

    function Neurons(): set<Neuron>
    {
      set n | n in neuronQueue
    }

    /** The bookkeeping invariant: two dimensions, and each flag says whether samples are pending. */
    ghost predicate Valid()
      reads this, matrixDims
    {
      matrixDims.Length == 2 && matrixDims[0] >= 0 && matrixDims[1] >= 0
      && Distinct(neuronQueue)
      && hasWeights == (|dWSet| > 0) && hasBiases == (|dBSet| > 0)
    }

    /** The neuron values, in queue order. */
    function Values(): (v: Vector)
      reads Neurons()
      ensures |v| == |neuronQueue|
    {
      seq(|neuronQueue|, i requires 0 <= i < |neuronQueue| reads neuronQueue => neuronQueue[i].val)
    }

    /** The weight vectors, one row per neuron, in queue order. */
    function Weights(): (m: Matrix)
      reads Neurons()
      ensures |m| == |neuronQueue|
    {
      seq(|neuronQueue|, i requires 0 <= i < |neuronQueue| reads neuronQueue => neuronQueue[i].w)
    }

    /** The biases, in queue order. */
    function Biases(): (v: Vector)
      reads Neurons()
      ensures |v| == |neuronQueue|
    {
      seq(|neuronQueue|, i requires 0 <= i < |neuronQueue| reads neuronQueue => neuronQueue[i].b)
    }

    /** The layer as a value. */
    function Image(): LayerImage
      reads Neurons()
    {
      LayerImage(Values(), Weights(), Biases(), af, nextNodesNum)
    }

    /** Layer(nodesNum, nextNodesNum, af): randomised neurons with nextNodesNum weights each. */
    constructor Hidden(nodesNum: nat, nextNodesNum: nat, af: ActivationOption, draws: seq<seq<Draw>>)
      requires |draws| == nodesNum && forall i :: 0 <= i < nodesNum ==> |draws[i]| == nextNodesNum + 1
      ensures Valid() && fresh(matrixDims) && matrixDims[..] == [0, 0]
      ensures |neuronQueue| == nodesNum && forall i :: 0 <= i < nodesNum ==> fresh(neuronQueue[i])
      ensures forall i :: 0 <= i < nodesNum ==>
        |neuronQueue[i].w| == nextNodesNum && neuronQueue[i].val == 0.0
        && neuronQueue[i].b == DrawToRange(draws[i][nextNodesNum])
        && forall k :: 0 <= k < nextNodesNum ==> neuronQueue[i].w[k] == DrawToRange(draws[i][k])
      ensures dWSet == [] && dBSet == [] && this.af == af && this.nextNodesNum == nextNodesNum
    {
      var ns: seq<Neuron> := [];
      var i := 0;
      while i < nodesNum
        invariant 0 <= i <= nodesNum && |ns| == i
        invariant Distinct(ns) && forall k :: 0 <= k < i ==> fresh(ns[k])
        invariant forall k :: 0 <= k < i ==>
          |ns[k].w| == nextNodesNum && ns[k].val == 0.0
          && ns[k].b == DrawToRange(draws[k][nextNodesNum])
          && forall m :: 0 <= m < nextNodesNum ==> ns[k].w[m] == DrawToRange(draws[k][m])
      {
        var n := new Neuron(true, nextNodesNum, draws[i]);
        ns := ns + [n];
        i := i + 1;
      }
      neuronQueue := ns;
      dWSet, dBSet := [], [];
      matrixDims := new int[2](_ => 0);
      hasWeights, hasBiases := false, false;
      this.af := af;
      this.nextNodesNum := nextNodesNum;
    }

    /** Layer(nodesNum, af): the output layer; randomised neurons without weights. */
    constructor Output(nodesNum: nat, af: ActivationOption, draws: seq<Draw>)
      requires |draws| == nodesNum
      ensures Valid() && fresh(matrixDims) && matrixDims[..] == [0, 0]
      ensures |neuronQueue| == nodesNum && forall i :: 0 <= i < nodesNum ==> fresh(neuronQueue[i])
      ensures forall i :: 0 <= i < nodesNum ==>
        neuronQueue[i].w == [] && neuronQueue[i].val == 0.0 && neuronQueue[i].b == DrawToRange(draws[i])
      ensures dWSet == [] && dBSet == [] && this.af == af && nextNodesNum == 0
    {
      var ns: seq<Neuron> := [];
      var i := 0;
      while i < nodesNum
        invariant 0 <= i <= nodesNum && |ns| == i
        invariant Distinct(ns) && forall k :: 0 <= k < i ==> fresh(ns[k])
        invariant forall k :: 0 <= k < i ==>
          ns[k].w == [] && ns[k].val == 0.0 && ns[k].b == DrawToRange(draws[k])
      {
        var n := new Neuron.Terminal(true, draws[i]);
        ns := ns + [n];
        i := i + 1;
      }
      neuronQueue := ns;
      dWSet, dBSet := [], [];
      matrixDims := new int[2](_ => 0);
      hasWeights, hasBiases := false, false;
      this.af := af;
      nextNodesNum := 0;
    }

    /** Layer(neuronSet, af, nextNodesNum): a layer around neurons built elsewhere. */
    constructor FromNeurons(neurons: seq<Neuron>, af: ActivationOption, nextNodesNum: int)
      requires Distinct(neurons)
      ensures Valid() && fresh(matrixDims) && matrixDims[..] == [0, 0]
      ensures neuronQueue == neurons && dWSet == [] && dBSet == []
      ensures this.af == af && this.nextNodesNum == nextNodesNum
    {
      neuronQueue := neurons;
      dWSet, dBSet := [], [];
      matrixDims := new int[2](_ => 0);
      hasWeights, hasBiases := false, false;
      this.af := af;
      this.nextNodesNum := nextNodesNum;
    }

    /** getValuesAsVector: the loop that copies the values out in queue order. */
    method GetValuesAsVector() returns (v: Vector)
      ensures v == Values()
    {
      v := seq(|neuronQueue|, _ => 0.0);
      var counter := 0;
      while counter < |neuronQueue|
        invariant 0 <= counter <= |neuronQueue| && |v| == |neuronQueue|
        invariant forall k :: 0 <= k < counter ==> v[k] == neuronQueue[k].val
      {
        v := v[counter := neuronQueue[counter].val];
        counter := counter + 1;
      }
    }

    /** getWeightsAsMatrix: the loop that collects each neuron's weight vector. */
    method GetWeightsAsMatrix() returns (m: Matrix)
      ensures m == Weights()
    {
      m := seq(|neuronQueue|, _ => []);
      var counter := 0;
      while counter < |neuronQueue|
        invariant 0 <= counter <= |neuronQueue| && |m| == |neuronQueue|
        invariant forall k :: 0 <= k < counter ==> m[k] == neuronQueue[k].w
      {
        m := m[counter := neuronQueue[counter].w];
        counter := counter + 1;
      }
    }

    /**
     * activateLayer: writes into each neuron of the next layer the value
     * Activate computes from this layer's values and weights, the next
     * layer's biases and THIS layer's activation. Every weight of this layer
     * must have an entry for every neuron of the next.
     */
    method ActivateLayer(next: Layer)
      requires Neurons() !! next.Neurons() && Distinct(next.neuronQueue)
      requires forall i :: 0 <= i < |neuronQueue| ==> |neuronQueue[i].w| >= |next.neuronQueue|
      modifies next.Neurons()
      ensures next.Values() == Activate(af, old(Values()), old(Weights()), old(next.Biases()))
      ensures next.Weights() == old(next.Weights()) && next.Biases() == old(next.Biases())
    {
      ghost var vals, w, target := Values(), Weights(), Activate(af, Values(), Weights(), next.Biases());
      var counter := 0;
      while counter < |next.neuronQueue|
        invariant 0 <= counter <= |next.neuronQueue|
        invariant Values() == vals && Weights() == w
        invariant forall k :: 0 <= k < counter ==> next.neuronQueue[k].val == target[k]
        invariant forall k :: 0 <= k < |next.neuronQueue| ==> next.neuronQueue[k].w == old(next.neuronQueue[k].w)
        invariant forall k :: 0 <= k < |next.neuronQueue| ==> next.neuronQueue[k].b == old(next.neuronQueue[k].b)
      {
        assert forall k :: 0 <= k < |next.neuronQueue| && k != counter ==>
          next.neuronQueue[k] != next.neuronQueue[counter];
        ActivateNeuron(next, counter, target);
        counter := counter + 1;
      }
      assert forall k :: 0 <= k < |next.neuronQueue| ==> next.Values()[k] == target[k];
    }

    /** One pass of activateLayer's outer loop: neuron j of the next layer gets its activated value. */
    method ActivateNeuron(next: Layer, j: nat, ghost target: Vector)
      requires Neurons() !! next.Neurons() && j < |next.neuronQueue|
      requires forall i :: 0 <= i < |neuronQueue| ==> |neuronQueue[i].w| > j
      requires |target| == |next.neuronQueue|
      requires target[j] == Original(af, Dot(Values(), Column(Weights(), j, |neuronQueue|)) + next.neuronQueue[j].b)
      modifies next.neuronQueue[j]
      ensures Values() == old(Values()) && Weights() == old(Weights())
      ensures next.neuronQueue[j].val == target[j]
      ensures next.neuronQueue[j].w == old(next.neuronQueue[j].w) && next.neuronQueue[j].b == old(next.neuronQueue[j].b)
    {
      var b := next.neuronQueue[j];
      var sum := WeightedSum(j);
      sum := Original(af, sum + b.b);
      assert b !in Neurons();
      b.SetVal(sum);
    }

    /** The inner loop of activateLayer: the dot product of the values with column j of the weights. */
    method WeightedSum(j: nat) returns (sum: real)
      requires forall i :: 0 <= i < |neuronQueue| ==> |neuronQueue[i].w| > j
      ensures sum == Dot(Values(), Column(Weights(), j, |neuronQueue|))
    {
      ghost var vals, col := Values(), Column(Weights(), j, |neuronQueue|);
      sum := 0.0;
      var i := 0;
      while i < |neuronQueue|
        invariant 0 <= i <= |neuronQueue|
        invariant sum == Dot(vals[..i], col)
      {
        assert vals[..i + 1][..i] == vals[..i];
        sum := sum + neuronQueue[i].val * neuronQueue[i].w[j];
        i := i + 1;
      }
      assert vals[..i] == vals;
    }

    /**
     * addWeightDeltas: records one weight sample and raises hasWeights. The
     * dimensions are taken from the sample only when none was pending; the
     * source reads its first row, so a first sample must have one.
     */
    method AddWeightDeltas(dW: Matrix)
      requires Valid()
      requires |dWSet| > 0 || |dW| > 0
      modifies this`dWSet, this`hasWeights, matrixDims
      ensures Valid()
      ensures dWSet == old(dWSet) + [dW] && hasWeights
      ensures old(|dWSet|) == 0 ==> matrixDims[..] == [|dW|, |dW[0]|]
      ensures old(|dWSet|) > 0 ==> matrixDims[..] == old(matrixDims[..])
    {
      if |dWSet| == 0 {
        matrixDims[0] := |dW|;
        matrixDims[1] := |dW[0]|;
      }
      dWSet := dWSet + [dW];
      hasWeights := true;
    }

    /** addBiasDeltas: records one bias sample and raises hasBiases. */
    method AddBiasDeltas(dB: Vector)
      requires Valid()
      modifies this`dBSet, this`hasBiases
      ensures Valid()
      ensures dBSet == old(dBSet) + [dB] && hasBiases
    {
      dBSet := dBSet + [dB];
      hasBiases := true;
    }

    /**
     * What adjustWB needs to stay inside its arrays: every sample fits the
     * recorded dimensions and the neuron count, and when weights are to move,
     * there is a row per neuron and no neuron has fewer weights than a row.
     */
    ghost predicate CanAdjust()
      reads this, matrixDims, Neurons()
      requires Valid()
    {
      (forall k :: 0 <= k < |dWSet| ==>
         |dWSet[k]| <= matrixDims[0] && forall i :: 0 <= i < |dWSet[k]| ==> |dWSet[k][i]| <= matrixDims[1])
      && (forall k :: 0 <= k < |dBSet| ==> |dBSet[k]| <= |neuronQueue|)
      && (hasWeights ==>
            matrixDims[0] >= |neuronQueue| && forall c :: 0 <= c < |neuronQueue| ==> |neuronQueue[c].w| >= matrixDims[1])
    }

    /**
     * adjustWB: averages the samples, moves the biases (when hasBiases) and
     * the L2-regularised weights (when hasWeights), then forgets every sample.
     */
    method AdjustWB()
      requires Valid() && CanAdjust()
      modifies this`dWSet, this`dBSet, this`hasWeights, this`hasBiases, Neurons()
      ensures Valid() && matrixDims[..] == old(matrixDims[..])
      ensures dWSet == [] && dBSet == [] && !hasWeights && !hasBiases
      ensures Biases() == AdjustedBiases(old(Biases()), old(dBSet))
      ensures Weights() == AdjustedWeights(old(Weights()), old(dWSet), matrixDims[1])
      ensures Values() == old(Values())
    {
      ghost var w0, b0, v0 := Weights(), Biases(), Values();
      AdjustBiases();
      assert Weights() == w0 && Values() == v0;
      ghost var b1 := Biases();
      AdjustWeights();
      assert Biases() == b1 && Values() == v0;
      dWSet, dBSet := [], [];
      hasWeights, hasBiases := false, false;
    }

    /** The bias half of adjustWB: the mean bias sample, then the bias loop when hasBiases. */
    method AdjustBiases()
      requires Valid() && CanAdjust()
      modifies Neurons()
      ensures Biases() == AdjustedBiases(old(Biases()), dBSet)
      ensures Values() == old(Values()) && Weights() == old(Weights())
      ensures forall c :: 0 <= c < |neuronQueue| ==> neuronQueue[c].w == old(neuronQueue[c].w)
    {
      var dB := MeanBiasSample(dBSet, |neuronQueue|);
      MoveBiasesIf(hasBiases, dB, dBSet);
    }

    /** The weight half of adjustWB: the mean weight sample, then the weight loop when hasWeights. */
    method AdjustWeights()
      requires Valid() && CanAdjust()
      modifies Neurons()
      ensures Weights() == AdjustedWeights(old(Weights()), dWSet, matrixDims[1])
      ensures Biases() == old(Biases()) && Values() == old(Values())
    {
      var dW := MeanWeightSample(dWSet, matrixDims[0], matrixDims[1]);
      MoveWeightsIf(hasWeights, dW, dWSet);
    }

    /** The guarded bias half of adjustWB; the guard is raised exactly when samples are pending. */
    method MoveBiasesIf(guard: bool, dB: array<real>, ghost samples: seq<Vector>)
      requires Distinct(neuronQueue) && dB.Length == |neuronQueue| && guard == (|samples| > 0)
      requires guard ==> forall c :: 0 <= c < dB.Length ==> dB[c] == BiasSum(samples, c) / |samples| as real
      modifies Neurons()
      ensures Biases() == AdjustedBiases(old(Biases()), samples)
      ensures Weights() == old(Weights()) && Values() == old(Values())
      ensures forall c :: 0 <= c < |neuronQueue| ==> neuronQueue[c].w == old(neuronQueue[c].w)
    {
      if guard {
        MoveBiases(dB, samples);
      }
    }

    /**
     * The guarded weight half of adjustWB: L2 regularisation of the mean,
     * then the weight loop.
     */
    method MoveWeightsIf(guard: bool, dW: array2<real>, ghost samples: seq<Matrix>)
      requires Distinct(neuronQueue) && guard == (|samples| > 0)
      requires guard ==> dW.Length0 >= |neuronQueue|
      requires guard ==> forall c :: 0 <= c < |neuronQueue| ==> |neuronQueue[c].w| >= dW.Length1
      requires guard ==> forall c, i :: 0 <= c < dW.Length0 && 0 <= i < dW.Length1 ==>
        dW[c, i] == SampleSum(samples, c, i) / |samples| as real
      modifies Neurons(), dW
      ensures Weights() == AdjustedWeights(old(Weights()), samples, dW.Length1)
      ensures Biases() == old(Biases()) && Values() == old(Values())
    {
      if guard {
        var r := L2RegularizeMatrix(dW);
        MoveWeights(r, samples);
      }
    }

    /** The bias loop of adjustWB: bias c gains dB[c], the mean of the samples, times the learning rate. */
    method MoveBiases(dB: array<real>, ghost samples: seq<Vector>)
      requires Distinct(neuronQueue) && dB.Length == |neuronQueue| && |samples| > 0
      requires forall c :: 0 <= c < dB.Length ==> dB[c] == BiasSum(samples, c) / |samples| as real
      modifies Neurons()
      ensures Biases() == AdjustedBiases(old(Biases()), samples)
      ensures Weights() == old(Weights()) && Values() == old(Values())
      ensures forall c :: 0 <= c < |neuronQueue| ==> neuronQueue[c].w == old(neuronQueue[c].w)
    {
      var counter := 0;
      while counter < |neuronQueue|
        invariant 0 <= counter <= |neuronQueue|
        invariant forall c :: 0 <= c < |neuronQueue| ==>
          neuronQueue[c].b == if c < counter then old(neuronQueue[c].b) + dB[c] * LearningRate else old(neuronQueue[c].b)
        invariant forall c :: 0 <= c < |neuronQueue| ==>
          neuronQueue[c].w == old(neuronQueue[c].w) && neuronQueue[c].val == old(neuronQueue[c].val)
      {
        var n := neuronQueue[counter];
        n.SetBias(n.b + dB[counter] * LearningRate);
        counter := counter + 1;
      }
      assert forall c :: 0 <= c < |neuronQueue| ==> Biases()[c] == AdjustedBiases(old(Biases()), samples)[c];
    }

    /**
     * The weight loop of adjustWB: weight i of neuron c loses dW[c, i], the
     * shrunk mean of the samples, times the learning rate.
     */
    method MoveWeights(dW: array2<real>, ghost samples: seq<Matrix>)
      requires Distinct(neuronQueue) && dW.Length0 >= |neuronQueue| && |samples| > 0
      requires forall c :: 0 <= c < |neuronQueue| ==> |neuronQueue[c].w| >= dW.Length1
      requires forall c, i :: 0 <= c < dW.Length0 && 0 <= i < dW.Length1 ==>
        dW[c, i] == Shrink(SampleSum(samples, c, i) / |samples| as real)
      modifies Neurons()
      ensures Weights() == AdjustedWeights(old(Weights()), samples, dW.Length1)
      ensures Biases() == old(Biases()) && Values() == old(Values())
    {
      ghost var target := AdjustedWeights(Weights(), samples, dW.Length1);
      var counter := 0;
      while counter < |neuronQueue|
        invariant 0 <= counter <= |neuronQueue|
        invariant forall c :: 0 <= c < |neuronQueue| ==>
          neuronQueue[c].w == if c < counter then target[c] else old(neuronQueue[c].w)
        invariant forall c :: 0 <= c < |neuronQueue| ==>
          neuronQueue[c].b == old(neuronQueue[c].b) && neuronQueue[c].val == old(neuronQueue[c].val)
      {
        var n := neuronQueue[counter];
        ghost var w0 := n.w;
        assert forall c :: 0 <= c < |neuronQueue| && c != counter ==> neuronQueue[c] != n;
        SubtractRow(n, dW, counter);
        assert forall i' :: 0 <= i' < |w0| ==> n.w[i'] == target[counter][i'];
        assert n.w == target[counter];
        counter := counter + 1;
      }
      assert forall c :: 0 <= c < |neuronQueue| ==> Weights()[c] == target[c];
    }
  }

  /**
   * The first half of adjustWB for weights: a fresh d0 by d1 array holding
   * the sum of the samples, divided by their number when there are any.
   */
  method MeanWeightSample(samples: seq<Matrix>, d0: nat, d1: nat) returns (dW: array2<real>)
    requires forall k :: 0 <= k < |samples| ==>
      |samples[k]| <= d0 && forall i :: 0 <= i < |samples[k]| ==> |samples[k][i]| <= d1
    ensures fresh(dW) && dW.Length0 == d0 && dW.Length1 == d1
    ensures |samples| > 0 ==> forall i, j :: 0 <= i < d0 && 0 <= j < d1 ==>
      dW[i, j] == SampleSum(samples, i, j) / |samples| as real
  {
    dW := new real[d0, d1]((i, j) => 0.0);
    var k := 0;
    while k < |samples|
      modifies dW
      invariant 0 <= k <= |samples|
      invariant forall i, j :: 0 <= i < d0 && 0 <= j < d1 ==> dW[i, j] == SampleSum(samples[..k], i, j)
    {
      assert samples[..k + 1][..k] == samples[..k];
      AccumulateMatrix(dW, samples[k]);
      k := k + 1;
    }
    assert samples[..k] == samples;
    if |samples| > 0 {
      DivideMatrix(dW, |samples| as real);
    }
  }

  /** The first half of adjustWB for biases, over a fresh array of n entries. */
  method MeanBiasSample(samples: seq<Vector>, n: nat) returns (dB: array<real>)
    requires forall k :: 0 <= k < |samples| ==> |samples[k]| <= n
    ensures fresh(dB) && dB.Length == n
    ensures |samples| > 0 ==> forall i :: 0 <= i < n ==> dB[i] == BiasSum(samples, i) / |samples| as real
  {
    dB := new real[n](_ => 0.0);
    var k := 0;
    while k < |samples|
      modifies dB
      invariant 0 <= k <= |samples|
      invariant forall i :: 0 <= i < n ==> dB[i] == BiasSum(samples[..k], i)
    {
      assert samples[..k + 1][..k] == samples[..k];
      AccumulateVector(dB, samples[k]);
      k := k + 1;
    }
    assert samples[..k] == samples;
    if |samples| > 0 {
      DivideVector(dB, |samples| as real);
    }
  }

  /** The inner weight loop of adjustWB: weight i of n loses row r of dW, entry i, times the learning rate. */
  method SubtractRow(n: Neuron, dW: array2<real>, r: nat)
    requires r < dW.Length0 && |n.w| >= dW.Length1
    modifies n
    ensures |n.w| == |old(n.w)| && n.b == old(n.b) && n.val == old(n.val)
    ensures forall i :: 0 <= i < |n.w| ==>
      n.w[i] == if i < dW.Length1 then old(n.w[i]) - dW[r, i] * LearningRate else old(n.w[i])
  {
    var i := 0;
    while i < dW.Length1
      invariant 0 <= i <= dW.Length1
      invariant |n.w| == |old(n.w)| && n.b == old(n.b) && n.val == old(n.val)
      invariant forall i' :: 0 <= i' < |n.w| ==>
        n.w[i'] == if i' < i then old(n.w[i']) - dW[r, i'] * LearningRate else old(n.w[i'])
    {
      n.SetWeight(i, n.w[i] - dW[r, i] * LearningRate);
      i := i + 1;
    }
  }

  /** Adds one weight sample into the running total, entry by entry. */
  method AccumulateMatrix(dW: array2<real>, a: Matrix)
    requires |a| <= dW.Length0 && forall i :: 0 <= i < |a| ==> |a[i]| <= dW.Length1
    modifies dW
    ensures forall i, j :: 0 <= i < dW.Length0 && 0 <= j < dW.Length1 ==>
      dW[i, j] == old(dW[i, j]) + SampleEntry(a, i, j)
  {
    var i := 0;
    while i < |a|
      invariant 0 <= i <= |a|
      invariant forall i', j :: 0 <= i' < dW.Length0 && 0 <= j < dW.Length1 ==>
        dW[i', j] == old(dW[i', j]) + (if i' < i then SampleEntry(a, i', j) else 0.0)
    {
      var j := 0;
      while j < |a[i]|
        invariant 0 <= j <= |a[i]|
        invariant forall i', j' :: 0 <= i' < dW.Length0 && 0 <= j' < dW.Length1 ==>
          dW[i', j'] == old(dW[i', j']) + (if i' < i || (i' == i && j' < j) then SampleEntry(a, i', j') else 0.0)
      {
        dW[i, j] := dW[i, j] + a[i][j];
        j := j + 1;
      }
      i := i + 1;
    }
  }

  /** Divides every entry by n. */
  method DivideMatrix(dW: array2<real>, n: real)
    requires n > 0.0
    modifies dW
    ensures forall i, j :: 0 <= i < dW.Length0 && 0 <= j < dW.Length1 ==> dW[i, j] == old(dW[i, j]) / n
  {
    var i := 0;
    while i < dW.Length0
      invariant 0 <= i <= dW.Length0
      invariant forall i', j :: 0 <= i' < dW.Length0 && 0 <= j < dW.Length1 ==>
        dW[i', j] == if i' < i then old(dW[i', j]) / n else old(dW[i', j])
    {
      var j := 0;
      while j < dW.Length1
        invariant 0 <= j <= dW.Length1
        invariant forall i', j' :: 0 <= i' < dW.Length0 && 0 <= j' < dW.Length1 ==>
          dW[i', j'] == if i' < i || (i' == i && j' < j) then old(dW[i', j']) / n else old(dW[i', j'])
      {
        dW[i, j] := dW[i, j] / n;
        j := j + 1;
      }
      i := i + 1;
    }
  }

  /** Adds one bias sample into the running total. */
  method AccumulateVector(dB: array<real>, a: Vector)
    requires |a| <= dB.Length
    modifies dB
    ensures forall i :: 0 <= i < dB.Length ==> dB[i] == old(dB[i]) + BiasEntry(a, i)
  {
    var i := 0;
    while i < |a|
      invariant 0 <= i <= |a|
      invariant forall i' :: 0 <= i' < dB.Length ==>
        dB[i'] == old(dB[i']) + (if i' < i then BiasEntry(a, i') else 0.0)
    {
      dB[i] := dB[i] + a[i];
      i := i + 1;
    }
  }

  /** Divides every entry by n. */
  method DivideVector(dB: array<real>, n: real)
    requires n > 0.0
    modifies dB
    ensures forall i :: 0 <= i < dB.Length ==> dB[i] == old(dB[i]) / n
  {
    var i := 0;
    while i < dB.Length
      invariant 0 <= i <= dB.Length
      invariant forall i' :: 0 <= i' < dB.Length ==> dB[i'] == if i' < i then old(dB[i']) / n else old(dB[i'])
    {
      dB[i] := dB[i] / n;
      i := i + 1;
    }
  }
}
