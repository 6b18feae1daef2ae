/**
 * The network (src/NetworkClasses/Network.java): a queue of at least two
 * layers, the first of which is the input layer, and a cost function.
 *
 * Every operation is specified on values: Image() is the network's layers
 * as a sequence of LayerImage values, and the pure functions below say what
 * a pulse, a backpropagation step and an update do to it.
 */
module Networks {
  import opened Activation
  import opened Cost
  import opened Util
  import opened Neurons
  import opened Layers
  import opened Constants
  import opened Gradients
  import SaveFormat
  import Text

  // ---------------------------------------------- the forward pass, as values

  /**
   * The values layer k holds after a pulse: the input layer keeps its own,
   * every later layer holds what activateLayer of its predecessor writes.
   */
  function Forward(ls: seq<LayerImage>, k: nat): (v: Vector)
    requires k < |ls|
    ensures k > 0 ==> |v| == |ls[k].biases|
  {
    if k == 0 then ls[0].values
    else Activate(ls[k - 1].af, Forward(ls, k - 1), ls[k - 1].weights, ls[k].biases)
  }

  /** The network part way through a pulse: layers up to n hold their forward values. */
  function PulsedUpTo(ls: seq<LayerImage>, n: nat): (r: seq<LayerImage>)
    ensures |r| == |ls|
    ensures forall k :: 0 <= k < |ls| ==>
      r[k].weights == ls[k].weights && r[k].biases == ls[k].biases
      && r[k].af == ls[k].af && r[k].next == ls[k].next
    ensures forall k :: 0 <= k < |ls| ==> r[k].values == if k <= n then Forward(ls, k) else ls[k].values
  {
    seq(|ls|, k requires 0 <= k < |ls| => if k <= n then ls[k].(values := Forward(ls, k)) else ls[k])
  }

  /** The network after layer i has activated layer i + 1 (activateLayer on values). */
  function ActivatedAt(ls: seq<LayerImage>, i: nat): (r: seq<LayerImage>)
    requires i + 1 < |ls|
    ensures |r| == |ls|
  {
    ls[i + 1 := ls[i + 1].(values := Activate(ls[i].af, ls[i].values, ls[i].weights, ls[i + 1].biases))]
  }

  /** One more activation extends a partial pulse by one layer. */
  lemma {:induction false} PulsedUpToStep(ls: seq<LayerImage>, n: nat)
    requires n + 1 < |ls|
    ensures PulsedUpTo(ls, n + 1) == ActivatedAt(PulsedUpTo(ls, n), n)
  {
    var a, b := PulsedUpTo(ls, n + 1), ActivatedAt(PulsedUpTo(ls, n), n);
    forall k | 0 <= k < |ls|
      ensures a[k] == b[k]
    {
      if k == n + 1 {
        assert a[k].values == Forward(ls, n + 1);
      }
    }
  }

  /** Part way through a pulse of a network that feeds forward, the next activation is possible. */
  lemma FeedsForwardUpTo(ls: seq<LayerImage>, n: nat)
    requires FeedsForward(ls) && n + 1 < |ls|
    ensures forall r :: 0 <= r < |PulsedUpTo(ls, n)[n].weights| ==>
      |PulsedUpTo(ls, n)[n].weights[r]| >= |PulsedUpTo(ls, n)[n + 1].values|
  {
  }

  /** Before the first activation nothing has changed. */
  lemma PulsedUpToStart(ls: seq<LayerImage>)
    ensures PulsedUpTo(ls, 0) == ls
  {
    assert forall k :: 0 <= k < |ls| ==> PulsedUpTo(ls, 0)[k] == ls[k];
  }

  /** After the activation of the last layer the pulse is complete. */
  lemma PulsedUpToEnd(ls: seq<LayerImage>)
    requires |ls| > 0
    ensures PulsedUpTo(ls, |ls| - 1) == Pulsed(ls)
  {
    assert forall k :: 0 <= k < |ls| ==> PulsedUpTo(ls, |ls| - 1)[k] == Pulsed(ls)[k];
  }

  /**
   * The network after a pulse: the input layer is kept, every later layer
   * holds its forward values, and no weight, bias or activation changes.
   */
  function Pulsed(ls: seq<LayerImage>): (r: seq<LayerImage>)
    ensures |r| == |ls|
    ensures |ls| > 0 ==> r[0] == ls[0]
    ensures forall k :: 0 <= k < |ls| ==>
      r[k].weights == ls[k].weights && r[k].biases == ls[k].biases
      && r[k].af == ls[k].af && r[k].next == ls[k].next
  {
    PulsedUpTo(ls, |ls|)
  }

  /**
   * The pulse works layer by layer: layer k ends up holding what layer
   * k - 1, with its values after the pulse, its weights and its activation,
   * writes together with layer k's biases.
   */
  lemma PulseInOrder(ls: seq<LayerImage>, k: nat)
    requires 0 < k < |ls|
    ensures Pulsed(ls)[k].values == Activate(ls[k - 1].af, Pulsed(ls)[k - 1].values, ls[k - 1].weights, ls[k].biases)
  {
  }

  /** The forward values depend on the input values and the parameters only. */
  lemma {:induction false} ForwardOfPulsed(ls: seq<LayerImage>, k: nat)
    requires k < |ls|
    ensures Forward(Pulsed(ls), k) == Forward(ls, k)
  {
    if k > 0 {
      ForwardOfPulsed(ls, k - 1);
    }
  }

  /** Pulsing twice without new input gives what pulsing once gives. */
  lemma PulseIdempotent(ls: seq<LayerImage>)
    ensures Pulsed(Pulsed(ls)) == Pulsed(ls)
  {
    var p := Pulsed(ls);
    forall k | 0 <= k < |ls|
      ensures Pulsed(p)[k] == p[k]
    {
      ForwardOfPulsed(ls, k);
    }
  }

  /** The output layer. */
  function Last(ls: seq<LayerImage>): LayerImage
    requires |ls| > 0
  {
    ls[|ls| - 1]
  }

  /** When the layer before the output uses ReLU, no output value is negative. */
  lemma ReluOutputNonNegative(ls: seq<LayerImage>)
    requires |ls| >= 2 && ls[|ls| - 2].af == ReLU
    ensures forall j :: 0 <= j < |Last(ls).biases| ==> Last(Pulsed(ls)).values[j] >= 0.0
  {
    var p := Pulsed(ls);
    ReluActivationNonNegative(p[|ls| - 2].values, ls[|ls| - 2].weights, ls[|ls| - 1].biases);
  }

  /**
   * What activateLayer needs at every step of a pulse: each weight row of
   * a layer has an entry for every neuron of the next.
   */
  predicate FeedsForward(ls: seq<LayerImage>)
  {
    forall k, r :: 0 <= k < |ls| - 1 && 0 <= r < |ls[k].weights| ==> |ls[k].weights[r]| >= |ls[k + 1].values|
  }

  /**
   * Layers that pulse, learnFrom and updateLayers can work on: they feed
   * forward and back, and no layer below the output is empty (learnFrom
   * reads the first row of each weight sample it records).
   */
  predicate Learnable(ls: seq<LayerImage>)
  {
    FeedsForward(ls) && FeedsBack(ls) && forall k :: 0 <= k < |ls| - 1 ==> |ls[k].values| > 0
  }

  /**
   * Layers with these pending samples and dimensions can go round the
   * training loop: they are learnable, and the samples have the shapes
   * learnFrom gives them.
   */
  predicate Trains(ls: seq<LayerImage>, B: seq<seq<Vector>>, W: seq<seq<Matrix>>, D: seq<seq<int>>)
  {
    Learnable(ls) && Shaped(ls, B, W, D)
  }

  // ------------------------------------------------------------ construction

  /** Layers that share no neuron, no dimension array and no identity. */
  predicate Separate(ls: seq<Layer>)
  {
    forall i, j :: 0 <= i < j < |ls| ==>
      ls[i] != ls[j] && ls[i].matrixDims != ls[j].matrixDims && ls[i].Neurons() !! ls[j].Neurons()
  }

  /**
   * Layers made one after another, stated layer by layer in the order they
   * were made: each is valid, has the image given for it and no samples
   * pending, and shares nothing with the layers made before it.
   */
  ghost predicate BuiltAs(q: seq<Layer>, ims: seq<LayerImage>)
    reads set l | l in q
    reads set l | l in q :: l.matrixDims
    reads NeuronsOf(q)
    decreases |q|
  {
    |q| == |ims|
    && (|q| > 0 ==>
         var k := |q| - 1;
         BuiltAs(q[..k], ims[..k])
         && q[k].Valid() && q[k].Image() == ims[k] && q[k].dWSet == [] && q[k].dBSet == []
         && forall i :: 0 <= i < k ==>
              q[i] != q[k] && q[i].matrixDims != q[k].matrixDims && q[i].Neurons() !! q[k].Neurons())
  }

  /** Layers made one after another, taken all together: separate, and each as made. */
  lemma {:induction false} BuiltAsAll(q: seq<Layer>, ims: seq<LayerImage>)
    requires BuiltAs(q, ims)
    ensures |q| == |ims| && Separate(q)
    ensures forall k :: 0 <= k < |q| ==>
      q[k].Valid() && q[k].Image() == ims[k] && q[k].dWSet == [] && q[k].dBSet == []
    decreases |q|
  {
    if |q| > 0 {
      var k := |q| - 1;
      BuiltAsAll(q[..k], ims[..k]);
      assert forall i :: 0 <= i < k ==> q[..k][i] == q[i] && ims[..k][i] == ims[i];
    }
  }

  /** The layers as values, in order. */
  function ImageOf(ls: seq<Layer>): (im: seq<LayerImage>)
    reads NeuronsOf(ls)
    ensures |im| == |ls|
    ensures forall k :: 0 <= k < |ls| ==> im[k] == ls[k].Image()
  {
    seq(|ls|, k requires 0 <= k < |ls| reads NeuronsOf(ls) => ls[k].Image())
  }

  /** Number of neurons in the layer after layer k; the last layer has none after it. */
  function NextCount(counts: seq<nat>, k: nat): nat
  {
    if k + 1 < |counts| then counts[k + 1] else 0
  }

  /** The draws a network of these layer sizes consumes: per neuron one per weight, then one for the bias. */
  predicate DrawsFit(counts: seq<nat>, draws: seq<seq<seq<Draw>>>)
  {
    |draws| == |counts|
    && forall k :: 0 <= k < |counts| ==>
         |draws[k]| == counts[k] && forall j :: 0 <= j < counts[k] ==> |draws[k][j]| == NextCount(counts, k) + 1
  }

  /** Layer k of a freshly built network: zero values, weights and bias from the draws. */
  function InitialLayer(counts: seq<nat>, afs: seq<ActivationOption>, draws: seq<seq<seq<Draw>>>, k: nat): (l: LayerImage)
    requires k < |counts| && k < |afs| && DrawsFit(counts, draws)
    ensures |l.values| == |l.weights| == |l.biases| == counts[k]
    ensures forall j :: 0 <= j < counts[k] ==> |l.weights[j]| == NextCount(counts, k)
  {
    var next := NextCount(counts, k);
    LayerImage(seq(counts[k], _ => 0.0),
               seq(counts[k], j requires 0 <= j < counts[k] =>
                 seq(next, m requires 0 <= m < next => DrawToRange(draws[k][j][m]))),
               seq(counts[k], j requires 0 <= j < counts[k] => DrawToRange(draws[k][j][next])),
               afs[k], next)
  }

  /** A freshly built network, layer by layer. */
  function InitialImage(counts: seq<nat>, afs: seq<ActivationOption>, draws: seq<seq<seq<Draw>>>): (ls: seq<LayerImage>)
    requires |afs| >= |counts| && DrawsFit(counts, draws)
    ensures |ls| == |counts|
  {
    seq(|counts|, k requires 0 <= k < |counts| => InitialLayer(counts, afs, draws, k))
  }

  /**
   * A freshly built network can be pulsed and back-propagated: one weight
   * row per neuron, every row exactly as long as the next layer, the output layer has no weights and nextNodesNum
   * 0, and every parameter lies in [MinNeuronRange, MaxNeuronRange).
   */
  lemma InitialShape(counts: seq<nat>, afs: seq<ActivationOption>, draws: seq<seq<seq<Draw>>>)
    requires |counts| >= 2 && |afs| >= |counts| && DrawsFit(counts, draws)
    ensures FeedsForward(InitialImage(counts, afs, draws)) && FeedsBack(InitialImage(counts, afs, draws))
    ensures forall k, r :: 0 <= k < |counts| - 1 && 0 <= r < counts[k] ==>
      |InitialImage(counts, afs, draws)[k].weights[r]| == counts[k + 1]
    ensures Last(InitialImage(counts, afs, draws)).next == 0
    ensures forall r :: 0 <= r < counts[|counts| - 1] ==> Last(InitialImage(counts, afs, draws)).weights[r] == []
    ensures forall k, r, m :: 0 <= k < |counts| && 0 <= r < counts[k] && 0 <= m < NextCount(counts, k) ==>
      MinNeuronRange <= InitialImage(counts, afs, draws)[k].weights[r][m] < MaxNeuronRange
    ensures forall k, r :: 0 <= k < |counts| && 0 <= r < counts[k] ==>
      MinNeuronRange <= InitialImage(counts, afs, draws)[k].biases[r] < MaxNeuronRange
  {
  }

  /** A freshly built network is learnable exactly when no layer below the output is empty. */
  lemma InitialLearnable(counts: seq<nat>, afs: seq<ActivationOption>, draws: seq<seq<seq<Draw>>>)
    requires |counts| >= 2 && |afs| >= |counts| && DrawsFit(counts, draws)
    ensures Learnable(InitialImage(counts, afs, draws)) <==> forall k :: 0 <= k < |counts| - 1 ==> counts[k] > 0
  {
    InitialShape(counts, afs, draws);
    var ls := InitialImage(counts, afs, draws);
    assert forall k :: 0 <= k < |counts| ==> |ls[k].values| == counts[k] by {
      forall k | 0 <= k < |counts| ensures |ls[k].values| == counts[k] {
        assert ls[k] == InitialLayer(counts, afs, draws, k);
      }
    }
  }

  /** The outcome of a constructor that throws TooFewLayersException below two layers. */
  datatype Construction = Built(net: Network) | TooFewLayers

  class Network {
    var layerQueue: seq<Layer>
    const inputLayer: Layer
    const numLayers: nat
    const cf: CostOption
    ghost const LayerSet: set<Layer>
    ghost const NeuronSet: set<Neuron>
    ghost const DimSet: set<array<int>>

    /**
     * At least two layers, the first is the input layer, the layers are
     * separate and each one's bookkeeping is consistent. The ghost sets are
     * the footprint: they do not change as the queue rotates.
     */
    ghost predicate Valid()
      reads this, LayerSet, DimSet
    {
      numLayers == |layerQueue| && numLayers >= 2 && inputLayer == layerQueue[0]
      && LayerSet == (set l | l in layerQueue)
      && DimSet == (set l | l in layerQueue :: l.matrixDims)
      && NeuronSet == NeuronsOf(layerQueue)
      && Separate(layerQueue)
      && forall k :: 0 <= k < |layerQueue| ==> layerQueue[k].Valid()
    }

    /** The layers as values, in queue order. */
    function Image(): (im: seq<LayerImage>)
      reads this, NeuronsOf(layerQueue)
      ensures |im| == |layerQueue|
    {
      ImageOf(layerQueue)
    }

    /**
     * What the training loop keeps: the network is valid, can be pulsed and
     * back-propagated, and its pending samples and dimensions have the
     * shapes learnFrom gives them.
     */
    ghost predicate Trainable()
      reads this, LayerSet, DimSet, NeuronSet
    {
      Valid() && Trains(Image(), BiasSamples(layerQueue), WeightSamples(layerQueue), DimsOf(layerQueue))
    }

    /** Trainable, on the layers and their samples as values. */
    lemma TrainableOf(img: seq<LayerImage>, B: seq<seq<Vector>>, W: seq<seq<Matrix>>, D: seq<seq<int>>)
      requires Valid() && Image() == img
      requires BiasSamples(layerQueue) == B && WeightSamples(layerQueue) == W && DimsOf(layerQueue) == D
      ensures Trainable() <==> Trains(img, B, W, D)
    {
    }

    /** A trainable network can be updated: every layer meets what adjustWB needs. */
    lemma TrainableAdjusts()
      requires Trainable()
      ensures forall k :: 0 <= k < |layerQueue| ==> layerQueue[k].CanAdjust()
    {
      forall k | 0 <= k < |layerQueue| ensures layerQueue[k].CanAdjust() {
        ShapedLayerAdjusts(layerQueue[k], Image(), k);
      }
    }

    /** A network with no samples pending is trainable exactly when its layers are learnable. */
    lemma UntrainedTrainable(img: seq<LayerImage>)
      requires Valid() && Image() == img
      requires forall k :: 0 <= k < |layerQueue| ==> layerQueue[k].dWSet == [] && layerQueue[k].dBSet == []
      ensures Trainable() <==> Learnable(img)
    {
      NoSamplesShaped(img, BiasSamples(layerQueue), WeightSamples(layerQueue), DimsOf(layerQueue));
    }

    /** Network(layerQueue, cf) once the layer count has been checked. */
    constructor Of(queue: seq<Layer>, cf: CostOption)
      requires |queue| >= 2 && Separate(queue)
      requires forall k :: 0 <= k < |queue| ==> queue[k].Valid()
      ensures Valid() && layerQueue == queue && this.cf == cf
    {
      layerQueue := queue;
      inputLayer := queue[0];
      numLayers := |queue|;
      this.cf := cf;
      LayerSet := set l | l in queue;
      DimSet := set l | l in queue :: l.matrixDims;
      NeuronSet := NeuronsOf(queue);
    }

    /**
     * Network(layerQueue, cf): fewer than two layers is TooFewLayers;
     * otherwise a network over exactly these layers.
     */
    static method FromLayers(queue: seq<Layer>, cf: CostOption) returns (r: Construction)
      requires Separate(queue)
      requires forall k :: 0 <= k < |queue| ==> queue[k].Valid()
      ensures r.TooFewLayers? <==> |queue| < 2
      ensures r.Built? ==> fresh(r.net) && r.net.Valid() && r.net.layerQueue == queue && r.net.cf == cf
    {
      if |queue| < 2 {
        return TooFewLayers;
      }
      var n := new Network.Of(queue, cf);
      r := Built(n);
    }

    /**
     * saveToFile: the lines of the file, the cost tag and the layer count
     * first, then each layer's block in queue order. Creating and writing the
     * file is left out; fmt stands for Double.toString.
     */
    method SaveToFile(fmt: real -> string) returns (lines: seq<string>)
      ensures lines == SaveFormat.SaveLayout(cf, SaveFormat.SavedAll(Image()), fmt)
    {
      ghost var saved := SaveFormat.SavedAll(Image());
      assert forall n :: n in NeuronsOf(layerQueue) ==> allocated(n);
      var blocks := SaveFormat.WriteLayers(layerQueue, saved, fmt);
      lines := [Cost.Tag(cf), Text.IntToString(|layerQueue|)] + blocks;
    }

    /**
     * Network(layerNodeCounts, afArr, costOp): fewer than two counts is
     * TooFewLayers; otherwise layer k has counts[k] randomised neurons with
     * one weight per neuron of layer k + 1, and the last layer has none.
     */
    static method FromCounts(counts: seq<nat>, afs: seq<ActivationOption>, costOp: CostOption,
                             draws: seq<seq<seq<Draw>>>) returns (r: Construction)
      requires |counts| >= 2 ==> |afs| >= |counts|
      requires DrawsFit(counts, draws)
      ensures r.TooFewLayers? <==> |counts| < 2
      ensures r.Built? ==> fresh(r.net) && r.net.Valid() && r.net.cf == costOp
      ensures r.Built? ==> r.net.Image() == InitialImage(counts, afs, draws)
      ensures r.Built? ==> forall k :: 0 <= k < |counts| ==>
        r.net.layerQueue[k].dWSet == [] && r.net.layerQueue[k].dBSet == []
      ensures r.Built? ==> (r.net.Trainable() <==> forall k :: 0 <= k < |counts| - 1 ==> counts[k] > 0)
    {
      if |counts| < 2 {
        return TooFewLayers;
      }
      var q := BuildLayers(counts, afs, draws);
      var n := new Network.Of(q, costOp);
      r := Built(n);
      InitialLearnable(counts, afs, draws);
      n.UntrainedTrainable(InitialImage(counts, afs, draws));
    }

    /**
     * initializeNetwork(values): input neuron i takes values[i] while there
     * are values; surplus values are ignored and the remaining neurons keep
     * theirs (the source reports the missing index and carries on).
     */
    method InitializeNetwork(values: Vector)
      requires Valid()
      modifies inputLayer.Neurons()
      ensures Valid() && Image() == Loaded(old(Image()), values)
    {
      ghost var before := Image();
      LoadValues(inputLayer.neuronQueue, values);
      forall k | 1 <= k < |layerQueue|
        ensures layerQueue[k].Image() == before[k]
      {
        assert layerQueue[0].Neurons() !! layerQueue[k].Neurons();
      }
      assert layerQueue[0].Values() == Overlay(old(inputLayer.Values()), values);
      assert layerQueue[0].Weights() == before[0].weights && layerQueue[0].Biases() == before[0].biases;
      assert forall k :: 0 <= k < |layerQueue| ==> Image()[k] == Loaded(before, values)[k];
    }

    /**
     * pulse: numLayers - 1 times the head of the queue activates the layer
     * behind it and moves to the back, then one more rotation restores the
     * order. Afterwards the queue is as before and every layer holds its
     * forward values.
     */
    method Pulse()
      requires Valid() && FeedsForward(Image())
      modifies this`layerQueue, NeuronSet
      ensures Valid() && layerQueue == old(layerQueue)
      ensures Image() == Pulsed(old(Image()))
    {
      ghost var img := Image();
      ghost var ns: set<object> := NeuronSet;
      assert forall k :: 0 <= k < |layerQueue| ==> layerQueue[k] !in ns && layerQueue[k].matrixDims !in ns;
      var queue := PulseQueue(layerQueue, img);
      assert queue == layerQueue;
      layerQueue := queue;
      assert Image() == ImageOf(queue);
    }

    /**
     * pulseWithResult: the same loop as pulse, then the values of the layer
     * activated last (the output layer), in queue order.
     */
    method PulseWithResult() returns (result: Vector)
      requires Valid() && FeedsForward(Image())
      modifies this`layerQueue, NeuronSet
      ensures Valid() && layerQueue == old(layerQueue)
      ensures Image() == Pulsed(old(Image()))
      ensures result == Last(Image()).values
    {
      Pulse();
      result := OutputValues();
    }

    /** The values of the output layer, read neuron by neuron in queue order. */
    method OutputValues() returns (result: Vector)
      requires Valid()
      ensures Valid() && result == Last(Image()).values
    {
      var output := layerQueue[numLayers - 1];
      result := output.GetValuesAsVector();
      assert Image()[numLayers - 1] == output.Image();
    }

    /** pulseWithInput: the loop of initializeNetwork, then the loop of pulse. */
    method PulseWithInput(values: Vector)
      requires Valid() && FeedsForward(Image())
      modifies this, NeuronSet
      ensures Valid() && layerQueue == old(layerQueue)
      ensures Image() == Pulsed(Loaded(old(Image()), values))
    {
      ghost var before := Image();
      InitializeNetwork(values);
      LoadedFeedsForward(before, values);
      Pulse();
    }

    /** pulseWithInput keeps a network trainable. */
    method PulseTrainable(values: Vector)
      requires Trainable()
      modifies this, NeuronSet
      ensures Trainable() && layerQueue == old(layerQueue)
      ensures Image() == Pulsed(Loaded(old(Image()), values))
      ensures BiasSamples(layerQueue) == old(BiasSamples(layerQueue)) && WeightSamples(layerQueue) == old(WeightSamples(layerQueue))
    {
      ghost var before := Image();
      ghost var B, W, D := BiasSamples(layerQueue), WeightSamples(layerQueue), DimsOf(layerQueue);
      PulseKeepsTraining(before, values, B, W, D);
      PulseKeepingSamples(values);
    }

    /** pulseWithInput leaves every pending sample and every recorded dimension alone. */
    method PulseKeepingSamples(values: Vector)
      requires Valid() && FeedsForward(Image())
      modifies this, NeuronSet
      ensures Valid() && layerQueue == old(layerQueue)
      ensures Image() == Pulsed(Loaded(old(Image()), values))
      ensures BiasSamples(layerQueue) == old(BiasSamples(layerQueue)) && WeightSamples(layerQueue) == old(WeightSamples(layerQueue))
      ensures DimsOf(layerQueue) == old(DimsOf(layerQueue))
    {
      ghost var q := layerQueue;
      PulseWithInput(values);
      assert unchanged(LayerSet) && unchanged(DimSet);
      assert BiasSamples(q) == old(BiasSamples(q));
      assert WeightSamples(q) == old(WeightSamples(q));
      assert DimsOf(q) == old(DimsOf(q));
    }

    /**
     * learnFrom(expected): walks the layers from the output back to the
     * input. On the way every layer above the input records its dCdz as a
     * bias sample, and every layer below the output records the outer
     * product of the dCdz above it with its own values as a weight sample.
     * Nothing else changes; no weight or bias moves until updateLayers.
     */
    method LearnFrom(expected: Vector)
      requires Valid() && FeedsBack(Image())
      requires forall k :: 0 <= k < numLayers - 1 ==> |layerQueue[k].dWSet| > 0 || |layerQueue[k].neuronQueue| > 0
      modifies LayerSet, DimSet
      ensures Valid() && Image() == old(Image())
      ensures forall k :: 0 <= k < numLayers ==>
        layerQueue[k].dBSet == old(layerQueue[k].dBSet) + BiasRecords(old(Image()), expected, cf, 0)[k]
        && layerQueue[k].dWSet == old(layerQueue[k].dWSet) + WeightRecords(old(Image()), expected, cf, 0)[k]
      ensures forall k :: 0 <= k < numLayers ==>
        layerQueue[k].matrixDims[..] == DimsRecorded(old(DimsOf(layerQueue)), old(WeightSamples(layerQueue)), old(Image()), 0)[k]
    {
      BackPropagate(layerQueue, Image(), expected, cf);
    }

    /** learnFrom can be called on a trainable network, and keeps it trainable. */
    method LearnTrainable(expected: Vector)
      requires Trainable()
      modifies LayerSet, DimSet
      ensures Trainable() && Image() == old(Image()) && layerQueue == old(layerQueue)
      ensures forall k :: 0 <= k < numLayers ==>
        layerQueue[k].dBSet == old(layerQueue[k].dBSet) + BiasRecords(old(Image()), expected, cf, 0)[k]
        && layerQueue[k].dWSet == old(layerQueue[k].dWSet) + WeightRecords(old(Image()), expected, cf, 0)[k]
      ensures BiasSamples(layerQueue) == Appended(old(BiasSamples(layerQueue)), BiasRecords(old(Image()), expected, cf, 0))
      ensures WeightSamples(layerQueue) == Appended(old(WeightSamples(layerQueue)), WeightRecords(old(Image()), expected, cf, 0))
    {
      ghost var img, B, W, D := Image(), BiasSamples(layerQueue), WeightSamples(layerQueue), DimsOf(layerQueue);
      LearnFrom(expected);
      SamplesRecorded(layerQueue, img, expected, cf, B, W, D);
      SamplesAppended(layerQueue, B, BiasRecords(img, expected, cf, 0), W, WeightRecords(img, expected, cf, 0));
    }

    /**
     * updateLayers: adjustWB on every layer. Each layer's weights and biases
     * move by its mean pending samples, and every sample is forgotten.
     */
    method UpdateLayers()
      requires Valid() && forall k :: 0 <= k < |layerQueue| ==> layerQueue[k].CanAdjust()
      modifies LayerSet, NeuronSet
      ensures Valid() && DimsOf(layerQueue) == old(DimsOf(layerQueue))
      ensures forall k :: 0 <= k < |layerQueue| ==> layerQueue[k].dWSet == [] && layerQueue[k].dBSet == []
      ensures Image() == Updated(old(Image()), old(BiasSamples(layerQueue)), old(WeightSamples(layerQueue)),
                                 Cols(old(DimsOf(layerQueue))))
    {
      AdjustAll(layerQueue, Image(), BiasSamples(layerQueue), WeightSamples(layerQueue), DimsOf(layerQueue));
    }

    /** updateLayers can be called on a trainable network, and keeps it trainable. */
    method UpdateTrainable()
      requires Trainable()
      modifies LayerSet, NeuronSet
      ensures Trainable() && layerQueue == old(layerQueue)
      ensures forall k :: 0 <= k < |layerQueue| ==> layerQueue[k].dWSet == [] && layerQueue[k].dBSet == []
      ensures Image() == Updated(old(Image()), old(BiasSamples(layerQueue)), old(WeightSamples(layerQueue)),
                                 Cols(old(DimsOf(layerQueue))))
    {
      ghost var img, B, W, D := Image(), BiasSamples(layerQueue), WeightSamples(layerQueue), DimsOf(layerQueue);
      TrainableOf(img, B, W, D);
      TrainableAdjusts();
      UpdateLayers();
      UpdateKeepsTraining(img, B, W, D, BiasSamples(layerQueue), WeightSamples(layerQueue), DimsOf(layerQueue));
      TrainableOf(Image(), BiasSamples(layerQueue), WeightSamples(layerQueue), DimsOf(layerQueue));
    }

    /**
     * One pass of the program's training loop: pulseWithInput on the input,
     * learnFrom the expected output and, on every batchSize-th pass
     * (update), updateLayers. A trainable network stays trainable, so every
     * pass of the loop can be made.
     */
    method TrainOn(input: Vector, expected: Vector, update: bool)
      requires Trainable()
      modifies this, LayerSet, NeuronSet, DimSet
      ensures Trainable() && layerQueue == old(layerQueue)
      ensures update ==> forall k :: 0 <= k < numLayers ==> layerQueue[k].dWSet == [] && layerQueue[k].dBSet == []
      ensures !update ==> Image() == Pulsed(Loaded(old(Image()), input))
      ensures !update ==> BiasSamples(layerQueue) == Appended(old(BiasSamples(layerQueue)), BiasRecords(Image(), expected, cf, 0))
      ensures !update ==> WeightSamples(layerQueue) == Appended(old(WeightSamples(layerQueue)), WeightRecords(Image(), expected, cf, 0))
    {
      LearnSample(input, expected);
      if update {
        UpdateTrainable();
      }
    }

    /** The first two steps of a pass: pulseWithInput on the input, then learnFrom the expected output. */
    method LearnSample(input: Vector, expected: Vector)
      requires Trainable()
      modifies this, LayerSet, NeuronSet, DimSet
      ensures Trainable() && layerQueue == old(layerQueue)
      ensures Image() == Pulsed(Loaded(old(Image()), input))
      ensures BiasSamples(layerQueue) == Appended(old(BiasSamples(layerQueue)), BiasRecords(Image(), expected, cf, 0))
      ensures WeightSamples(layerQueue) == Appended(old(WeightSamples(layerQueue)), WeightRecords(Image(), expected, cf, 0))
    {
      PulseTrainable(input);
      LearnTrainable(expected);
    }
  }

  /**
   * The loop of pulse over the queue: numLayers - 1 times the head
   * activates the layer behind it and moves to the back, then one more
   * rotation restores the order.
   */
  method PulseQueue(orig: seq<Layer>, ghost img: seq<LayerImage>) returns (queue: seq<Layer>)
    requires |orig| >= 2 && Separate(orig) && forall k :: 0 <= k < |orig| ==> Distinct(orig[k].neuronQueue)
    requires FeedsForward(img) && ImageOf(orig) == img
    modifies NeuronsOf(orig)
    ensures queue == orig && ImageOf(orig) == Pulsed(img)
  {
    PulsedUpToStart(img);
    queue := orig;
    var i := 0;
    while i < |orig| - 1
      invariant 0 <= i <= |orig| - 1
      invariant queue == orig[i..] + orig[..i]
      invariant ImageOf(orig) == PulsedUpTo(img, i)
    {
      var currentLayer := queue[0];
      queue := queue[1..];
      var nextLayer := queue[0];
      RotationStep(orig, i);
      FeedsForwardUpTo(img, i);
      ActivateNext(orig, i, currentLayer, nextLayer);
      PulsedUpToStep(img, i);
      queue := queue + [currentLayer];
      i := i + 1;
    }
    RotationStep(orig, i);
    PulsedUpToEnd(img);
    queue := queue[1..] + [queue[0]];
  }

  /** The input values after initializeNetwork: values[i] where there is one, the old value elsewhere. */
  function Overlay(prev: Vector, values: Vector): (r: Vector)
    ensures |r| == |prev|
    ensures |values| >= |prev| ==> r == values[..|prev|]
    ensures |values| <= |prev| ==> r[..|values|] == values && r[|values|..] == prev[|values|..]
  {
    seq(|prev|, i requires 0 <= i < |prev| => if i < |values| then values[i] else prev[i])
  }

  /** One step of a pulse: layer i of ls activates layer i + 1, and nothing else changes. */
  method ActivateNext(ghost ls: seq<Layer>, ghost i: nat, current: Layer, next: Layer)
    requires i + 1 < |ls| && current == ls[i] && next == ls[i + 1]
    requires Separate(ls) && Distinct(ls[i + 1].neuronQueue)
    requires forall r :: 0 <= r < |ImageOf(ls)[i].weights| ==> |ImageOf(ls)[i].weights[r]| >= |ImageOf(ls)[i + 1].values|
    modifies ls[i + 1].Neurons()
    ensures ImageOf(ls) == ActivatedAt(old(ImageOf(ls)), i)
  {
    ghost var before := ImageOf(ls);
    assert forall r :: 0 <= r < |current.neuronQueue| ==> current.Weights()[r] == current.neuronQueue[r].w;
    current.ActivateLayer(next);
    forall k | 0 <= k < |ls| && k != i + 1
      ensures ls[k].Image() == before[k]
    {
      if k < i + 1 {
        assert ls[k].Neurons() !! ls[i + 1].Neurons();
      } else {
        assert ls[i + 1].Neurons() !! ls[k].Neurons();
      }
    }
  }

  /** One rotation of the queue during a pulse: the head is orig[i], the one behind it orig[i + 1]. */
  lemma RotationStep(orig: seq<Layer>, i: nat)
    requires i < |orig|
    ensures (orig[i..] + orig[..i])[0] == orig[i]
    ensures i + 1 < |orig| ==> (orig[i..] + orig[..i])[1..][0] == orig[i + 1]
    ensures (orig[i..] + orig[..i])[1..] + [orig[i]] == orig[i + 1..] + orig[..i + 1]
    ensures i + 1 == |orig| ==> (orig[i..] + orig[..i])[1..] + [orig[i]] == orig
  {
    assert orig[..i + 1] == orig[..i] + [orig[i]];
  }

  /**
   * The loop of initializeNetwork over the input neurons: neuron j takes
   * values[j] while there are values, and keeps its value after that.
   */
  method LoadValues(nq: seq<Neuron>, values: Vector)
    requires Distinct(nq)
    modifies set n | n in nq
    ensures forall j :: 0 <= j < |nq| ==> nq[j].val == if j < |values| then values[j] else old(nq[j].val)
    ensures forall j :: 0 <= j < |nq| ==> nq[j].w == old(nq[j].w) && nq[j].b == old(nq[j].b)
  {
    var counter := 0;
    var idx := 0;
    while idx < |nq|
      invariant 0 <= idx <= |nq| && counter == if idx < |values| then idx else |values|
      invariant forall j :: 0 <= j < |nq| ==>
        nq[j].val == if j < idx && j < |values| then values[j] else old(nq[j].val)
      invariant forall j :: 0 <= j < |nq| ==> nq[j].w == old(nq[j].w) && nq[j].b == old(nq[j].b)
    {
      if counter < |values| {
        nq[idx].SetVal(values[counter]);
        counter := counter + 1;
      }
      idx := idx + 1;
    }
  }

  /** The layers of Network(layerNodeCounts, afArr, costOp), built in order. */
  method BuildLayers(counts: seq<nat>, afs: seq<ActivationOption>, draws: seq<seq<seq<Draw>>>)
    returns (q: seq<Layer>)
    requires |counts| >= 2 && |afs| >= |counts| && DrawsFit(counts, draws)
    ensures |q| == |counts| && Separate(q) && ImageOf(q) == InitialImage(counts, afs, draws)
    ensures forall k :: 0 <= k < |q| ==> fresh(q[k]) && q[k].Valid() && q[k].dWSet == [] && q[k].dBSet == []
  {
    q := [];
    ghost var ims: seq<LayerImage> := [];
    var i := 0;
    while i < |counts|
      invariant 0 <= i <= |counts| && |q| == i && BuiltAs(q, ims)
      invariant forall k :: 0 <= k < i ==> fresh(q[k]) && ims[k] == InitialLayer(counts, afs, draws, k)
    {
      q, ims := AppendLayer(counts, afs, draws, q, ims);
      i := i + 1;
    }
    BuiltAsAll(q, ims);
    assert ims == InitialImage(counts, afs, draws);
  }

  /** One turn of the construction loop: layer |q| is made and appended. */
  method AppendLayer(counts: seq<nat>, afs: seq<ActivationOption>, draws: seq<seq<seq<Draw>>>,
                     q: seq<Layer>, ghost ims: seq<LayerImage>)
    returns (q': seq<Layer>, ghost ims': seq<LayerImage>)
    requires |q| < |counts| && |afs| >= |counts| && DrawsFit(counts, draws)
    requires BuiltAs(q, ims)
    ensures BuiltAs(q', ims') && ims' == ims + [InitialLayer(counts, afs, draws, |q|)]
    ensures |q'| == |q| + 1 && fresh(q'[|q|]) && forall k :: 0 <= k < |q| ==> q'[k] == q[k]
  {
    var l := NewLayer(counts, afs, draws, |q|);
    q', ims' := q + [l], ims + [InitialLayer(counts, afs, draws, |q|)];
    assert q'[..|q|] == q && ims'[..|q|] == ims;
    assert forall n :: n in NeuronsOf(q) ==> old(allocated(n));
    assert BuiltAs(q, ims);
    forall i | 0 <= i < |q|
      ensures q[i] != l && q[i].matrixDims != l.matrixDims && q[i].Neurons() !! l.Neurons()
    {
      assert forall n :: n in q[i].neuronQueue ==> old(allocated(n));
    }
  }

  /**
   * Layer k of Network(layerNodeCounts, afArr, costOp): every layer but the
   * last has one weight per neuron of the next, the last has none.
   */
  method NewLayer(counts: seq<nat>, afs: seq<ActivationOption>, draws: seq<seq<seq<Draw>>>, k: nat)
    returns (l: Layer)
    requires k < |counts| && k < |afs| && DrawsFit(counts, draws)
    ensures fresh(l) && fresh(l.matrixDims) && l.Valid() && l.dWSet == [] && l.dBSet == []
    ensures forall n :: n in l.Neurons() ==> fresh(n)
    ensures l.Image() == InitialLayer(counts, afs, draws, k)
  {
    ghost var want := InitialLayer(counts, afs, draws, k);
    if k + 1 < |counts| {
      l := new Layer.Hidden(counts[k], counts[k + 1], afs[k], draws[k]);
      forall j | 0 <= j < counts[k]
        ensures l.Weights()[j] == want.weights[j]
      {
        assert l.Weights()[j] == l.neuronQueue[j].w;
      }
    } else {
      l := new Layer.Output(counts[k], afs[k], seq(counts[k], j requires 0 <= j < counts[k] => draws[k][j][0]));
      assert l.Weights() == want.weights;
    }
    assert l.Values() == want.values && l.Biases() == want.biases;
  }

  // ------------------------------------------- initializeNetwork, as values

  /** The network after initializeNetwork(values): only the input layer's values change. */
  function Loaded(ls: seq<LayerImage>, values: Vector): (r: seq<LayerImage>)
    requires |ls| > 0
    ensures |r| == |ls| && r[0].values == Overlay(ls[0].values, values)
    ensures r[0].weights == ls[0].weights && r[0].biases == ls[0].biases
    ensures forall k :: 1 <= k < |ls| ==> r[k] == ls[k]
  {
    ls[0 := ls[0].(values := Overlay(ls[0].values, values))]
  }

  /** Loading input values keeps a network able to pulse. */
  lemma LoadedFeedsForward(ls: seq<LayerImage>, values: Vector)
    requires |ls| > 0 && FeedsForward(ls)
    ensures FeedsForward(Loaded(ls, values))
  {
  }

  /** Two networks with the same parameters and the same input values have the same forward values. */
  lemma {:induction false} ForwardDependsOnInput(a: seq<LayerImage>, b: seq<LayerImage>, k: nat)
    requires |a| == |b| && k < |a| && a[0].values == b[0].values
    requires forall j :: 0 <= j < |a| ==> a[j].weights == b[j].weights && a[j].biases == b[j].biases && a[j].af == b[j].af
    ensures Forward(a, k) == Forward(b, k)
  {
    if k > 0 {
      ForwardDependsOnInput(a, b, k - 1);
    }
  }

  /**
   * pulseWithInput forgets whatever the non-input layers held before: the
   * output depends on the input values and the parameters only.
   */
  lemma PulseForgetsOldValues(a: seq<LayerImage>, b: seq<LayerImage>, values: Vector)
    requires |a| == |b| > 0 && a[0].values == b[0].values
    requires forall j :: 0 <= j < |a| ==> a[j].weights == b[j].weights && a[j].biases == b[j].biases && a[j].af == b[j].af
    ensures forall k :: 1 <= k < |a| ==> Pulsed(Loaded(a, values))[k].values == Pulsed(Loaded(b, values))[k].values
  {
    forall k | 1 <= k < |a|
      ensures Pulsed(Loaded(a, values))[k].values == Pulsed(Loaded(b, values))[k].values
    {
      ForwardDependsOnInput(Loaded(a, values), Loaded(b, values), k);
    }
  }

  // -------------------------------------------- learnFrom, on the layers

  /** The pending bias samples of each layer, in order. */
  function BiasSamples(ls: seq<Layer>): (r: seq<seq<Vector>>)
    reads ls
    ensures |r| == |ls| && forall k :: 0 <= k < |ls| ==> r[k] == ls[k].dBSet
  {
    seq(|ls|, k requires 0 <= k < |ls| reads ls => ls[k].dBSet)
  }

  /** Every layer's pending samples followed by the ones one more pass adds. */
  function Appended<T>(A: seq<seq<T>>, R: seq<seq<T>>): (r: seq<seq<T>>)
    requires |A| == |R|
    ensures |r| == |A| && forall k :: 0 <= k < |A| ==> r[k] == A[k] + R[k]
  {
    seq(|A|, k requires 0 <= k < |A| => A[k] + R[k])
  }

  /** Layers that each hold their old samples followed by new ones hold Appended of both. */
  lemma SamplesAppended(q: seq<Layer>, B: seq<seq<Vector>>, RB: seq<seq<Vector>>, W: seq<seq<Matrix>>, RW: seq<seq<Matrix>>)
    requires |q| == |B| == |RB| == |W| == |RW|
    requires forall k :: 0 <= k < |q| ==> q[k].dBSet == B[k] + RB[k] && q[k].dWSet == W[k] + RW[k]
    ensures BiasSamples(q) == Appended(B, RB) && WeightSamples(q) == Appended(W, RW)
  {
  }

  /** The pending weight samples of each layer, in order. */
  function WeightSamples(ls: seq<Layer>): (r: seq<seq<Matrix>>)
    reads ls
    ensures |r| == |ls| && forall k :: 0 <= k < |ls| ==> r[k] == ls[k].dWSet
  {
    seq(|ls|, k requires 0 <= k < |ls| reads ls => ls[k].dWSet)
  }

  /** The recorded matrix dimensions of each layer, in order. */
  function DimsOf(ls: seq<Layer>): (r: seq<seq<int>>)
    reads set l | l in ls :: l.matrixDims
    ensures |r| == |ls| && forall k :: 0 <= k < |ls| ==> r[k] == ls[k].matrixDims[..]
  {
    seq(|ls|, k requires 0 <= k < |ls| reads set l | l in ls :: l.matrixDims => ls[k].matrixDims[..])
  }

  /**
   * One step of learnFrom's loop: cur records its dCdz, prev (the layer
   * below it) records the outer product of that dCdz with its values, and
   * the dCda handed down is calculatedCda of prev's weights with that dCdz.
   */
  method BackStep(cur: Layer, prev: Layer, dCda: Vector) returns (dCdaPrev: Vector)
    requires cur != prev && cur.matrixDims != prev.matrixDims && cur.Valid() && prev.Valid()
    requires |cur.neuronQueue| <= |dCda|
    requires forall r :: 0 <= r < |prev.neuronQueue| ==> |prev.neuronQueue[r].w| <= |cur.neuronQueue|
    requires |prev.dWSet| > 0 || |prev.neuronQueue| > 0
    modifies cur`dBSet, cur`hasBiases, prev`dWSet, prev`hasWeights, prev.matrixDims
    ensures cur.Valid() && prev.Valid()
    ensures cur.dBSet == old(cur.dBSet) + [DCdz(old(cur.Values()), dCda, cur.af)]
    ensures prev.dWSet == old(prev.dWSet) + [Outer(DCdz(old(cur.Values()), dCda, cur.af), old(prev.Values()))]
    ensures prev.matrixDims[..] == if old(|prev.dWSet|) == 0 then [|prev.neuronQueue|, |cur.neuronQueue|]
                                   else old(prev.matrixDims[..])
    ensures RowsFit(old(prev.Weights()), DCdz(old(cur.Values()), dCda, cur.af))
    ensures dCdaPrev == DCda(old(prev.Weights()), DCdz(old(cur.Values()), dCda, cur.af))
  {
    var values := cur.GetValuesAsVector();
    assert values == old(cur.Values());
    var dCdz := CalculateDCdz(values, dCda, cur.af);
    assert dCdz == DCdz(old(cur.Values()), dCda, cur.af);
    var prevValues := prev.GetValuesAsVector();
    assert prevValues == old(prev.Values());
    var dCdW := OuterProduct(dCdz, prevValues);
    cur.AddBiasDeltas(dCdz);
    assert cur.dBSet == old(cur.dBSet) + [dCdz];
    prev.AddWeightDeltas(dCdW);
    var weights := prev.GetWeightsAsMatrix();
    assert forall j :: 0 <= j < |prev.neuronQueue| ==> weights[j] == old(prev.neuronQueue[j].w);
    assert weights == old(prev.Weights());
    dCdaPrev := CalculateDCda(weights, dCdz);
    assert cur.dBSet == old(cur.dBSet) + [dCdz];
    assert prev.dWSet == old(prev.dWSet) + [dCdW];
  }

  /**
   * The body of learnFrom over the layers in order: every layer is pushed
   * on a stack, the output layer is popped and gets the cost derivative as
   * dCda, then BackStep runs for each layer popped until the stack is empty.
   */
  method BackPropagate(orig: seq<Layer>, ghost img: seq<LayerImage>, expected: Vector, co: CostOption)
    requires |orig| >= 2 && Separate(orig) && forall k :: 0 <= k < |orig| ==> orig[k].Valid()
    requires ImageOf(orig) == img && FeedsBack(img)
    requires forall k :: 0 <= k < |orig| - 1 ==> |orig[k].dWSet| > 0 || |orig[k].neuronQueue| > 0
    modifies (set l | l in orig), (set l | l in orig :: l.matrixDims)
    ensures forall k :: 0 <= k < |orig| ==> orig[k].Valid()
    ensures forall k :: 0 <= k < |orig| ==>
      orig[k].dBSet == old(orig[k].dBSet) + BiasRecords(img, expected, co, 0)[k]
      && orig[k].dWSet == old(orig[k].dWSet) + WeightRecords(img, expected, co, 0)[k]
      && orig[k].matrixDims[..] == DimsRecorded(old(DimsOf(orig)), old(WeightSamples(orig)), img, 0)[k]
  {
    ghost var B, W, D := BiasSamples(orig), WeightSamples(orig), DimsOf(orig);
    var stack, cur, dCda := PopOutput(orig, expected, co);
    assert forall k :: 0 <= k < |orig| ==> orig[k].Image() == img[k];
    assert forall k :: 0 <= k < |orig| - 1 ==> |W[k]| > 0 || |img[k].values| > 0;
    BackLoop(orig, img, expected, co, B, W, D, stack, cur, dCda);
  }

  /**
   * The start of learnFrom: every layer is pushed on a stack, the output
   * layer is popped, and its dCda is the cost derivative at its values.
   */
  method PopOutput(orig: seq<Layer>, expected: Vector, co: CostOption) returns (stack: seq<Layer>, cur: Layer, dCda: Vector)
    requires |orig| >= 1
    ensures stack == orig[..|orig| - 1] && cur == orig[|orig| - 1]
    ensures dCda == DerivativeVector(co, cur.Values(), expected)
  {
    stack := [];
    var i := 0;
    while i < |orig|
      invariant 0 <= i <= |orig| && stack == orig[..i]
    {
      stack := stack + [orig[i]];
      i := i + 1;
    }
    cur := stack[|stack| - 1];
    stack := stack[..|stack| - 1];
    ghost var out := cur.Values();
    assert forall j :: 0 <= j < |out| ==> out[j] == cur.neuronQueue[j].val;
    var values := cur.GetValuesAsVector();
    assert forall j :: 0 <= j < |out| ==> values[j] == out[j];
    dCda := CalculateDerivative(co, values, expected);
  }

  /** The do-while loop of learnFrom: BackStep for each layer popped until the stack is empty. */
  method BackLoop(orig: seq<Layer>, ghost img: seq<LayerImage>, ghost expected: Vector, ghost co: CostOption,
                  ghost B: seq<seq<Vector>>, ghost W: seq<seq<Matrix>>, ghost D: seq<seq<int>>,
                  stack0: seq<Layer>, cur0: Layer, dCda0: Vector)
    requires |orig| >= 2 && Separate(orig) && FeedsBack(img) && |img| == |B| == |W| == |D| == |orig|
    requires stack0 == orig[..|orig| - 1] && cur0 == orig[|orig| - 1]
    requires dCda0 == DCdaAt(img, expected, co, |orig| - 1)
    requires forall k :: 0 <= k < |orig| ==> orig[k].Image() == img[k]
    requires forall k :: 0 <= k < |orig| - 1 ==> |W[k]| > 0 || |img[k].values| > 0
    requires forall k :: 0 <= k < |orig| ==>
      (orig[k].Valid() && orig[k].dBSet == B[k] && orig[k].dWSet == W[k] && orig[k].matrixDims[..] == D[k])
    modifies (set l | l in orig), (set l | l in orig :: l.matrixDims)
    ensures forall k :: 0 <= k < |orig| ==>
      (orig[k].Valid()
       && orig[k].dBSet == B[k] + BiasRecords(img, expected, co, 0)[k]
       && orig[k].dWSet == W[k] + WeightRecords(img, expected, co, 0)[k]
       && orig[k].matrixDims[..] == DimsRecorded(D, W, img, 0)[k])
  {
    var stack, cur, dCda := stack0, cur0, dCda0;
    ghost var c := |orig| - 1;
    RecordsStart(img, expected, co, D, W, c);
    while stack != []
      invariant c == |stack| && LoopState(orig, img, expected, co, B, W, D, c, stack, cur, dCda)
      decreases |stack|
    {
      var prev := stack[|stack| - 1];
      stack, cur, dCda, c := BackIteration(orig, img, expected, co, B, W, D, c, stack, cur, prev, dCda);
    }
  }

  /** One pass of the do-while loop of learnFrom: pop the layer below and step back to it. */
  method BackIteration(orig: seq<Layer>, ghost img: seq<LayerImage>, ghost expected: Vector, ghost co: CostOption,
                       ghost B: seq<seq<Vector>>, ghost W: seq<seq<Matrix>>, ghost D: seq<seq<int>>, ghost c: nat,
                       stack: seq<Layer>, cur: Layer, prev: Layer, dCda: Vector)
    returns (stack': seq<Layer>, cur': Layer, dCda': Vector, ghost c': nat)
    requires |orig| >= 2 && Separate(orig) && FeedsBack(img) && |img| == |B| == |W| == |D| == |orig|
    requires forall k :: 0 <= k < |orig| - 1 ==> |W[k]| > 0 || |img[k].values| > 0
    requires 0 < c == |stack| && LoopState(orig, img, expected, co, B, W, D, c, stack, cur, dCda)
    requires prev == stack[c - 1]
    modifies cur`dBSet, cur`hasBiases, prev`dWSet, prev`hasWeights, prev.matrixDims
    ensures c' == c - 1 && c' == |stack'| && LoopState(orig, img, expected, co, B, W, D, c', stack', cur', dCda')
  {
    assert prev == orig[c - 1] && cur == orig[c];
    dCda' := BackStepAt(orig, img, expected, co, B, W, D, c, cur, prev, dCda);
    cur' := prev;
    stack' := stack[..|stack| - 1];
    c' := c - 1;
    assert stack' == orig[..c'];
  }

  /** Where learnFrom's loop stands once it is back at layer c. */
  ghost predicate LoopState(orig: seq<Layer>, img: seq<LayerImage>, expected: Vector, co: CostOption,
                            B: seq<seq<Vector>>, W: seq<seq<Matrix>>, D: seq<seq<int>>, c: nat,
                            stack: seq<Layer>, cur: Layer, dCda: Vector)
    requires |img| == |B| == |W| == |D| == |orig| && FeedsBack(img)
    reads (set l | l in orig), (set l | l in orig :: l.matrixDims), NeuronsOf(orig)
  {
    c < |orig| && stack == orig[..c] && cur == orig[c] && dCda == DCdaAt(img, expected, co, c)
    && Recorded(orig, img, expected, co, B, W, D, c)
  }

  /**
   * The state of learnFrom's loop back at layer c: every layer holds the
   * samples it started with (B, W) followed by the ones recorded so far,
   * and the dimensions recorded so far.
   */
  ghost predicate Recorded(orig: seq<Layer>, img: seq<LayerImage>, expected: Vector, co: CostOption,
                           B: seq<seq<Vector>>, W: seq<seq<Matrix>>, D: seq<seq<int>>, c: nat)
    requires |img| == |B| == |W| == |D| == |orig| && FeedsBack(img)
    reads (set l | l in orig), (set l | l in orig :: l.matrixDims), NeuronsOf(orig)
  {
    (forall k :: 0 <= k < |orig| ==> orig[k].Valid() && orig[k].Image() == img[k])
    && RecordsHold(BiasSamples(orig), WeightSamples(orig), DimsOf(orig), img, expected, co, B, W, D, c)
  }


  /**
   * BackStep on layers c and c - 1 of a whole network: those two layers
   * record their samples, every other layer and every neuron is untouched.
   */
  method BackStepIn(ghost orig: seq<Layer>, ghost c: nat, cur: Layer, prev: Layer, dCda: Vector) returns (dCdaPrev: Vector)
    requires 0 < c < |orig| && cur == orig[c] && prev == orig[c - 1]
    requires Separate(orig) && forall k :: 0 <= k < |orig| ==> orig[k].Valid()
    requires |cur.neuronQueue| <= |dCda|
    requires forall r :: 0 <= r < |prev.neuronQueue| ==> |prev.neuronQueue[r].w| <= |cur.neuronQueue|
    requires |prev.dWSet| > 0 || |prev.neuronQueue| > 0
    modifies cur`dBSet, cur`hasBiases, prev`dWSet, prev`hasWeights, prev.matrixDims
    ensures unchanged(NeuronsOf(orig))
    ensures forall k :: 0 <= k < |orig| ==> orig[k].Valid() && orig[k].Image() == old(orig[k].Image())
    ensures BiasSamples(orig) == old(BiasSamples(orig))[c := old(cur.dBSet) + [DCdz(old(cur.Values()), dCda, cur.af)]]
    ensures WeightSamples(orig)
         == old(WeightSamples(orig))[c - 1 := old(prev.dWSet) + [Outer(DCdz(old(cur.Values()), dCda, cur.af), old(prev.Values()))]]
    ensures DimsOf(orig) == old(DimsOf(orig))[c - 1 := if old(|prev.dWSet|) == 0 then [|prev.neuronQueue|, |cur.neuronQueue|]
                                                      else old(prev.matrixDims[..])]
    ensures dCdaPrev == DCda(old(prev.Weights()), DCdz(old(cur.Values()), dCda, cur.af))
  {
    ghost var bs, ws, ds := BiasSamples(orig), WeightSamples(orig), DimsOf(orig);
    assert cur != prev && cur.matrixDims != prev.matrixDims;
    dCdaPrev := BackStep(cur, prev, dCda);
    ghost var bs', ws', ds' := bs[c := cur.dBSet], ws[c - 1 := prev.dWSet], ds[c - 1 := prev.matrixDims[..]];
    forall k | 0 <= k < |orig|
      ensures orig[k].dBSet == bs'[k] && orig[k].dWSet == ws'[k]
      ensures orig[k].matrixDims[..] == ds'[k] && orig[k].Valid()
    {
      if k < c - 1 {
        assert orig[k] != prev && orig[k] != cur && orig[k].matrixDims != prev.matrixDims;
      } else if k > c {
        assert orig[c] != orig[k] && orig[c - 1] != orig[k] && orig[c - 1].matrixDims != orig[k].matrixDims;
      }
    }
    assert BiasSamples(orig) == bs';
    assert WeightSamples(orig) == ws';
    assert DimsOf(orig) == ds';
  }

  /**
   * One pass of learnFrom's loop, in terms of the whole network: going back
   * from layer c to layer c - 1 records the samples the specification
   * records there and hands down dCda of layer c - 1.
   */
  method BackStepAt(ghost orig: seq<Layer>, ghost img: seq<LayerImage>, ghost expected: Vector, ghost co: CostOption,
                    ghost B: seq<seq<Vector>>, ghost W: seq<seq<Matrix>>, ghost D: seq<seq<int>>, ghost c: nat,
                    cur: Layer, prev: Layer, dCda: Vector) returns (dCdaPrev: Vector)
    requires 0 < c < |orig| && cur == orig[c] && prev == orig[c - 1]
    requires |img| == |B| == |W| == |D| == |orig| && FeedsBack(img)
    requires Separate(orig)
    requires |W[c - 1]| > 0 || |img[c - 1].values| > 0
    requires dCda == DCdaAt(img, expected, co, c)
    requires Recorded(orig, img, expected, co, B, W, D, c)
    modifies cur`dBSet, cur`hasBiases, prev`dWSet, prev`hasWeights, prev.matrixDims
    ensures dCdaPrev == DCdaAt(img, expected, co, c - 1)
    ensures Recorded(orig, img, expected, co, B, W, D, c - 1)
  {
    assert cur.Image() == img[c] && prev.Image() == img[c - 1];
    RecordsStep(img, expected, co, c);
    assert forall r :: 0 <= r < |prev.neuronQueue| ==> prev.neuronQueue[r].w == img[c - 1].weights[r];
    assert DCdz(cur.Values(), dCda, cur.af) == DCdzAt(img, expected, co, c);
    assert prev.Values() == img[c - 1].values;
    ghost var bs, ws, ds := BiasSamples(orig), WeightSamples(orig), DimsOf(orig);
    assert bs[c] == cur.dBSet && ws[c - 1] == prev.dWSet && ds[c - 1] == prev.matrixDims[..];
    dCdaPrev := BackStepIn(orig, c, cur, prev, dCda);
    RecordsNext(img, expected, co, B, W, D, c, bs, ws, ds);
  }

  // ------------------------------------------ updateLayers, as values

  /** The column count each layer recorded (matrixDims[1]), 0 where there is none. */
  function Cols(dims: seq<seq<int>>): (r: seq<int>)
    ensures |r| == |dims| && forall k :: 0 <= k < |dims| && |dims[k]| > 1 ==> r[k] == dims[k][1]
  {
    seq(|dims|, k requires 0 <= k < |dims| => if |dims[k]| > 1 then dims[k][1] else 0)
  }

  /** A layer after adjustWB with these pending samples and this recorded column count. */
  function Adjusted(l: LayerImage, bias: seq<Vector>, weight: seq<Matrix>, cols: int): (r: LayerImage)
    ensures r.values == l.values && r.af == l.af && r.next == l.next
    ensures |r.weights| == |l.weights| && forall j :: 0 <= j < |l.weights| ==> |r.weights[j]| == |l.weights[j]|
    ensures |bias| == 0 && |weight| == 0 ==> r == l
  {
    l.(weights := AdjustedWeights(l.weights, weight, cols), biases := AdjustedBiases(l.biases, bias))
  }

  /** The network part way through updateLayers: the layers below n are adjusted. */
  function UpdatedBelow(ls: seq<LayerImage>, bias: seq<seq<Vector>>, weight: seq<seq<Matrix>>, cols: seq<int>, n: nat)
    : (r: seq<LayerImage>)
    requires |bias| == |weight| == |cols| == |ls|
    ensures |r| == |ls|
  {
    seq(|ls|, k requires 0 <= k < |ls| => if k < n then Adjusted(ls[k], bias[k], weight[k], cols[k]) else ls[k])
  }

  /** The network after updateLayers: every layer adjusted with its own samples. */
  function Updated(ls: seq<LayerImage>, bias: seq<seq<Vector>>, weight: seq<seq<Matrix>>, cols: seq<int>)
    : (r: seq<LayerImage>)
    requires |bias| == |weight| == |cols| == |ls|
    ensures |r| == |ls|
  {
    UpdatedBelow(ls, bias, weight, cols, |ls|)
  }

  lemma UpdatedBelowStart(ls: seq<LayerImage>, bias: seq<seq<Vector>>, weight: seq<seq<Matrix>>, cols: seq<int>)
    requires |bias| == |weight| == |cols| == |ls|
    ensures UpdatedBelow(ls, bias, weight, cols, 0) == ls
  {
    assert forall k :: 0 <= k < |ls| ==> UpdatedBelow(ls, bias, weight, cols, 0)[k] == ls[k];
  }

  /** Adjusting layer n extends a partial update by one layer. */
  lemma UpdatedBelowStep(ls: seq<LayerImage>, bias: seq<seq<Vector>>, weight: seq<seq<Matrix>>, cols: seq<int>, n: nat)
    requires |bias| == |weight| == |cols| == |ls| && n < |ls|
    ensures UpdatedBelow(ls, bias, weight, cols, n)[n] == ls[n]
    ensures UpdatedBelow(ls, bias, weight, cols, n + 1)
         == UpdatedBelow(ls, bias, weight, cols, n)[n := Adjusted(ls[n], bias[n], weight[n], cols[n])]
  {
    var a, b := UpdatedBelow(ls, bias, weight, cols, n + 1),
                UpdatedBelow(ls, bias, weight, cols, n)[n := Adjusted(ls[n], bias[n], weight[n], cols[n])];
    assert forall k :: 0 <= k < |ls| ==> a[k] == b[k];
  }

  /** updateLayers without pending samples changes nothing. */
  lemma UpdateWithoutSamples(ls: seq<LayerImage>, bias: seq<seq<Vector>>, weight: seq<seq<Matrix>>, cols: seq<int>)
    requires |bias| == |weight| == |cols| == |ls|
    requires forall k :: 0 <= k < |ls| ==> bias[k] == [] && weight[k] == []
    ensures Updated(ls, bias, weight, cols) == ls
  {
    assert forall k :: 0 <= k < |ls| ==> Updated(ls, bias, weight, cols)[k] == ls[k];
  }

  /**
   * updateLayers keeps every value and every shape, so a network that could
   * pulse and learn still can.
   */
  lemma UpdateKeepsShape(ls: seq<LayerImage>, bias: seq<seq<Vector>>, weight: seq<seq<Matrix>>, cols: seq<int>)
    requires |bias| == |weight| == |cols| == |ls|
    ensures forall k :: 0 <= k < |ls| ==> Updated(ls, bias, weight, cols)[k].values == ls[k].values
    ensures FeedsForward(ls) ==> FeedsForward(Updated(ls, bias, weight, cols))
    ensures FeedsBack(ls) ==> FeedsBack(Updated(ls, bias, weight, cols))
  {
  }

  /** The samples on layers that have recorded one learnFrom keep the shapes learnFrom gives them. */
  lemma SamplesRecorded(q: seq<Layer>, img: seq<LayerImage>, expected: Vector, co: CostOption,
                        B: seq<seq<Vector>>, W: seq<seq<Matrix>>, D: seq<seq<int>>)
    requires |q| == |img| && FeedsBack(img) && Shaped(img, B, W, D)
    requires forall k :: 0 <= k < |q| ==>
      q[k].dBSet == B[k] + BiasRecords(img, expected, co, 0)[k]
      && q[k].dWSet == W[k] + WeightRecords(img, expected, co, 0)[k]
      && q[k].matrixDims[..] == DimsRecorded(D, W, img, 0)[k]
    ensures Shaped(img, BiasSamples(q), WeightSamples(q), DimsOf(q))
  {
    RecordsKeepShape(BiasSamples(q), WeightSamples(q), DimsOf(q), img, expected, co, B, W, D);
  }

  /** updateLayers keeps the sizes of the layers and forgets every sample, so the layers can still be trained. */
  lemma UpdateKeepsTraining(ls: seq<LayerImage>, B: seq<seq<Vector>>, W: seq<seq<Matrix>>, D: seq<seq<int>>,
                            B': seq<seq<Vector>>, W': seq<seq<Matrix>>, D': seq<seq<int>>)
    requires Trains(ls, B, W, D)
    requires |B'| == |W'| == |D'| == |ls| && forall k :: 0 <= k < |ls| ==> B'[k] == [] && W'[k] == []
    ensures Trains(Updated(ls, B, W, Cols(D)), B', W', D')
  {
    UpdateKeepsShape(ls, B, W, Cols(D));
    NoSamplesShaped(Updated(ls, B, W, Cols(D)), B', W', D');
  }

  /** A pulse keeps the size of every layer, so it keeps a network able to pulse and to learn. */
  lemma PulseKeepsTraining(ls: seq<LayerImage>, values: Vector, B: seq<seq<Vector>>, W: seq<seq<Matrix>>, D: seq<seq<int>>)
    requires |ls| > 0 && forall k :: 0 <= k < |ls| ==> |ls[k].biases| == |ls[k].values|
    requires Trains(ls, B, W, D)
    ensures forall k :: 0 <= k < |ls| ==> |Pulsed(Loaded(ls, values))[k].values| == |ls[k].values|
    ensures Trains(Pulsed(Loaded(ls, values)), B, W, D)
  {
    var p := Pulsed(Loaded(ls, values));
    forall k | 0 <= k < |ls| ensures |p[k].values| == |ls[k].values| {
      if k > 0 {
        assert p[k].values == Forward(Loaded(ls, values), k);
      }
    }
    SameSizesShaped(ls, p, B, W, D);
  }

  /** Whether samples are well shaped depends on the sizes of the layers only. */
  lemma SameSizesShaped(a: seq<LayerImage>, b: seq<LayerImage>, B: seq<seq<Vector>>, W: seq<seq<Matrix>>, D: seq<seq<int>>)
    requires |a| == |b| && forall k :: 0 <= k < |a| ==> |a[k].values| == |b[k].values|
    requires Shaped(a, B, W, D)
    ensures Shaped(b, B, W, D)
  {
    forall k | 0 <= k < |b| ensures ShapedAt(b, B[k], W[k], D[k], k) {
      assert ShapedAt(a, B[k], W[k], D[k], k);
      if k + 1 < |a| {
        assert |a[k + 1].values| == |b[k + 1].values|;
      }
    }
  }

  /**
   * What adjustWB needs of a layer follows from its shape: a layer that
   * feeds forward, with well shaped samples, can be adjusted.
   */
  lemma ShapedLayerAdjusts(l: Layer, ls: seq<LayerImage>, k: nat)
    requires l.Valid() && k < |ls| && l.Image() == ls[k]
    requires FeedsForward(ls) && ShapedAt(ls, l.dBSet, l.dWSet, l.matrixDims[..], k)
    ensures l.CanAdjust()
  {
    assert |ls[k].values| == |l.neuronQueue| && ls[k].weights == l.Weights();
    forall j | 0 <= j < |l.dWSet| ensures |l.dWSet[j]| <= l.matrixDims[0] {
      assert l.dWSet[j] in l.dWSet;
    }
    forall j, i | 0 <= j < |l.dWSet| && 0 <= i < |l.dWSet[j]| ensures |l.dWSet[j][i]| <= l.matrixDims[1] {
      assert l.dWSet[j] in l.dWSet;
    }
    forall j | 0 <= j < |l.dBSet| ensures |l.dBSet[j]| <= |l.neuronQueue| {
      assert l.dBSet[j] in l.dBSet;
    }
    if l.hasWeights {
      forall c | 0 <= c < |l.neuronQueue| ensures |l.neuronQueue[c].w| >= l.matrixDims[1] {
        assert l.Weights()[c] == l.neuronQueue[c].w;
      }
    }
  }

  /** One sample has itself as its mean. */
  lemma OneSampleMean(m: Matrix, v: Vector, r: nat, i: nat)
    ensures SampleSum([m], r, i) / 1 as real == SampleEntry(m, r, i)
    ensures BiasSum([v], i) / 1 as real == BiasEntry(v, i)
  {
    assert [m][..0] == [];
    assert [v][..0] == [];
  }

  /** The network after learnFrom then updateLayers, starting with no pending samples. */
  function AfterOneSample(ls: seq<LayerImage>, expected: Vector, co: CostOption, dims: seq<seq<int>>): (r: seq<LayerImage>)
    requires FeedsBack(ls) && |dims| == |ls|
    ensures |r| == |ls|
  {
    Updated(ls, BiasRecords(ls, expected, co, 0), WeightRecords(ls, expected, co, 0),
            Cols(DimsRecorded(dims, seq(|ls|, _ => []), ls, 0)))
  }

  /** With one sample, a bias above the input layer moves up by LearningRate times its dCdz. */
  lemma OneSampleBias(ls: seq<LayerImage>, expected: Vector, co: CostOption, dims: seq<seq<int>>, k: nat, i: nat)
    requires FeedsBack(ls) && |dims| == |ls| && 0 < k < |ls| && i < |ls[k].biases|
    ensures AfterOneSample(ls, expected, co, dims)[k].biases[i]
         == ls[k].biases[i] + LearningRate * BiasEntry(DCdzAt(ls, expected, co, k), i)
  {
    OneSampleMean([], DCdzAt(ls, expected, co, k), 0, i);
    assert BiasRecords(ls, expected, co, 0)[k] == [DCdzAt(ls, expected, co, k)];
  }

  /**
   * With one sample, weight i of neuron r below the output layer moves down
   * by LearningRate (1 - L2RegConstant) times the neuron's value times dCdz
   * of neuron i in the next layer.
   */
  lemma OneSampleWeight(ls: seq<LayerImage>, expected: Vector, co: CostOption, dims: seq<seq<int>>, k: nat, r: nat, i: nat)
    requires FeedsBack(ls) && |dims| == |ls| && k < |ls| - 1 && r < |ls[k].weights| && i < |ls[k].weights[r]|
    ensures AfterOneSample(ls, expected, co, dims)[k].weights[r][i]
         == ls[k].weights[r][i] - LearningRate * (1.0 - L2RegConstant) * Outer(DCdzAt(ls, expected, co, k + 1), ls[k].values)[r][i]
  {
    var d := DCdzAt(ls, expected, co, k + 1);
    var bias, weight := BiasRecords(ls, expected, co, 0), WeightRecords(ls, expected, co, 0);
    var cols := Cols(DimsRecorded(dims, seq(|ls|, _ => []), ls, 0));
    assert weight[k] == [Outer(d, ls[k].values)] && cols[k] == |ls[k + 1].values|;
    assert AfterOneSample(ls, expected, co, dims) == Updated(ls, bias, weight, cols);
    UpdatedWeightEntry(ls, bias, weight, cols, k, r, i, d);
  }

  /**
   * Updating a layer whose one weight sample is the outer product of d and
   * its values moves weight i of neuron r by the regularised step of that
   * sample's entry, values[r] * d[i].
   */
  lemma UpdatedWeightEntry(ls: seq<LayerImage>, bias: seq<seq<Vector>>, weight: seq<seq<Matrix>>, cols: seq<int>,
                           k: nat, r: nat, i: nat, d: Vector)
    requires |bias| == |weight| == |cols| == |ls| && k < |ls|
    requires r < |ls[k].weights| == |ls[k].values| && i < |ls[k].weights[r]| && i < cols[k] && i < |d|
    requires weight[k] == [Outer(d, ls[k].values)]
    ensures Outer(d, ls[k].values)[r][i] == ls[k].values[r] * d[i]
    ensures Updated(ls, bias, weight, cols)[k].weights[r][i]
         == ls[k].weights[r][i] - LearningRate * (1.0 - L2RegConstant) * Outer(d, ls[k].values)[r][i]
  {
    var m := Outer(d, ls[k].values);
    assert Updated(ls, bias, weight, cols)[k] == Adjusted(ls[k], bias[k], weight[k], cols[k]);
    OneSampleMean(m, [], r, i);
    Util.OuterEntry(d, ls[k].values, r, i);
  }

  /**
   * Stochastic gradient descent: learnFrom then updateLayers moves no bias
   * of the input layer and no weight of the output layer.
   */
  lemma OneSampleEnds(ls: seq<LayerImage>, expected: Vector, co: CostOption, dims: seq<seq<int>>)
    requires FeedsBack(ls) && |dims| == |ls| && |ls| >= 2
    ensures AfterOneSample(ls, expected, co, dims)[0].biases == ls[0].biases
    ensures AfterOneSample(ls, expected, co, dims)[|ls| - 1].weights == ls[|ls| - 1].weights
  {
    assert BiasRecords(ls, expected, co, 0)[0] == [];
    assert WeightRecords(ls, expected, co, 0)[|ls| - 1] == [];
  }

  // ------------------------------------------ updateLayers, on the layers

  /** adjustWB on layer i of ls: that layer's image is adjusted, nothing else changes. */
  method AdjustAt(ghost ls: seq<Layer>, ghost i: nat, l: Layer)
    requires i < |ls| && l == ls[i] && Separate(ls) && l.Valid() && l.CanAdjust()
    modifies l`dWSet, l`dBSet, l`hasWeights, l`hasBiases, l.Neurons()
    ensures l.Valid() && l.dWSet == [] && l.dBSet == [] && l.matrixDims[..] == old(l.matrixDims[..])
    ensures l.Image() == Adjusted(old(l.Image()), old(l.dBSet), old(l.dWSet), l.matrixDims[1])
    ensures forall k :: 0 <= k < |ls| && k != i ==> unchanged(ls[k].Neurons())
  {
    l.AdjustWB();
    forall k | 0 <= k < |ls| && k != i
      ensures unchanged(ls[k].Neurons())
    {
      if k < i {
        assert ls[k].Neurons() !! ls[i].Neurons();
      } else {
        assert ls[i].Neurons() !! ls[k].Neurons();
      }
    }
  }

  /**
   * Where updateLayers' loop stands before layer i: the layers below i are
   * adjusted and have forgotten their samples, the others are as they were.
   */
  ghost predicate Adjusting(orig: seq<Layer>, img: seq<LayerImage>, B: seq<seq<Vector>>, W: seq<seq<Matrix>>,
                            D: seq<seq<int>>, i: nat)
    requires |img| == |B| == |W| == |D| == |orig|
    reads (set l | l in orig), (set l | l in orig :: l.matrixDims), NeuronsOf(orig)
  {
    i <= |orig|
    && forall k :: 0 <= k < |orig| ==>
      orig[k].Valid() && orig[k].matrixDims[..] == D[k]
      && orig[k].Image() == UpdatedBelow(img, B, W, Cols(D), i)[k]
      && (k < i ==> orig[k].dWSet == [] && orig[k].dBSet == [])
      && (i <= k ==> orig[k].dWSet == W[k] && orig[k].dBSet == B[k] && orig[k].CanAdjust())
  }

  /** One pass of updateLayers' loop: adjustWB on layer i. */
  method AdjustStep(orig: seq<Layer>, ghost img: seq<LayerImage>, ghost B: seq<seq<Vector>>, ghost W: seq<seq<Matrix>>,
                    ghost D: seq<seq<int>>, i: nat)
    requires |img| == |B| == |W| == |D| == |orig| && Separate(orig)
    requires i < |orig| && Adjusting(orig, img, B, W, D, i)
    modifies (set l | l in orig), NeuronsOf(orig)
    ensures Adjusting(orig, img, B, W, D, i + 1)
  {
    UpdatedBelowStep(img, B, W, Cols(D), i);
    AdjustAt(orig, i, orig[i]);
  }

  /** The loop of updateLayers over the layers in order. */
  method AdjustAll(orig: seq<Layer>, ghost img: seq<LayerImage>, ghost B: seq<seq<Vector>>, ghost W: seq<seq<Matrix>>,
                   ghost D: seq<seq<int>>)
    requires |img| == |B| == |W| == |D| == |orig| && Separate(orig)
    requires forall k :: 0 <= k < |orig| ==>
      orig[k].Valid() && orig[k].matrixDims[..] == D[k] && orig[k].Image() == img[k]
      && orig[k].dWSet == W[k] && orig[k].dBSet == B[k] && orig[k].CanAdjust()
    modifies (set l | l in orig), NeuronsOf(orig)
    ensures forall k :: 0 <= k < |orig| ==>
      orig[k].Valid() && orig[k].matrixDims[..] == D[k] && orig[k].dWSet == [] && orig[k].dBSet == []
      && orig[k].Image() == Updated(img, B, W, Cols(D))[k]
  {
    UpdatedBelowStart(img, B, W, Cols(D));
    var i := 0;
    while i < |orig|
      invariant Adjusting(orig, img, B, W, D, i)
    {
      AdjustStep(orig, img, B, W, D, i);
      i := i + 1;
    }
  }
}
