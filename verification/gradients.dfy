/**
 * The backward pass of learnFrom (src/NetworkClasses/Network.java), as
 * values: the gradients it computes layer by layer from the output back to
 * the input, and the samples it records on each layer.
 */
module Gradients {
  import opened Activation
  import opened Cost
  import opened Util
  import opened Layers

  /**
   * What learnFrom needs: each layer has one weight row per neuron, and no
   * weight row is longer than the next layer (calculatedCda takes the dot
   * product of a row with the next layer's dCdz).
   */
  predicate FeedsBack(ls: seq<LayerImage>)
  {
    (forall k :: 0 <= k < |ls| ==> |ls[k].weights| == |ls[k].values|)
    && forall k, r :: 0 <= k < |ls| - 1 && 0 <= r < |ls[k].weights| ==> |ls[k].weights[r]| <= |ls[k + 1].values|
  }

  /**
   * dCda at layer k: the cost derivative at the output layer, and below it
   * calculatedCda of the layer's weights with dCdz of the layer above.
   */
  function DCdaAt(ls: seq<LayerImage>, expected: Vector, co: CostOption, k: nat): (d: Vector)
    requires FeedsBack(ls) && k < |ls|
    ensures |d| == |ls[k].values|
    decreases |ls| - k, 0
  {
    if k == |ls| - 1 then DerivativeVector(co, ls[k].values, expected)
    else DCda(ls[k].weights, DCdzAt(ls, expected, co, k + 1))
  }

  /** dCdz at layer k: calculatedCdz of the layer's values with its own activation. */
  function DCdzAt(ls: seq<LayerImage>, expected: Vector, co: CostOption, k: nat): (d: Vector)
    requires FeedsBack(ls) && k < |ls|
    ensures |d| == |ls[k].values|
    decreases |ls| - k, 1
  {
    DCdz(ls[k].values, DCdaAt(ls, expected, co, k), ls[k].af)
  }

  /** The bias samples learnFrom has recorded once it is back at layer c: dCdz on every layer above c. */
  function BiasRecords(ls: seq<LayerImage>, expected: Vector, co: CostOption, c: nat): (r: seq<seq<Vector>>)
    requires FeedsBack(ls)
    ensures |r| == |ls|
  {
    seq(|ls|, k requires 0 <= k < |ls| => if k > c then [DCdzAt(ls, expected, co, k)] else [])
  }

  /**
   * The weight samples learnFrom has recorded once it is back at layer c:
   * on every layer from c up to the one below the output, the outer product
   * of dCdz of the layer above with the layer's own values.
   */
  function WeightRecords(ls: seq<LayerImage>, expected: Vector, co: CostOption, c: nat): (r: seq<seq<Matrix>>)
    requires FeedsBack(ls)
    ensures |r| == |ls|
  {
    seq(|ls|, k requires 0 <= k < |ls| =>
      if c <= k < |ls| - 1 then [Outer(DCdzAt(ls, expected, co, k + 1), ls[k].values)] else [])
  }

  /**
   * The dimensions learnFrom leaves once it is back at layer c: a layer that
   * had no weight sample takes the shape of its first one.
   */
  function DimsRecorded(dims: seq<seq<int>>, samples: seq<seq<Matrix>>, ls: seq<LayerImage>, c: nat): (r: seq<seq<int>>)
    requires |dims| == |samples| == |ls|
    ensures |r| == |ls|
  {
    seq(|ls|, k requires 0 <= k < |ls| =>
      if c <= k < |ls| - 1 && |samples[k]| == 0 then [|ls[k].values|, |ls[k + 1].values|] else dims[k])
  }

  /** Nothing is recorded before the walk starts at the output layer. */
  lemma RecordsStart(ls: seq<LayerImage>, expected: Vector, co: CostOption, dims: seq<seq<int>>, samples: seq<seq<Matrix>>, c: nat)
    requires FeedsBack(ls) && c + 1 == |ls| && |dims| == |samples| == |ls|
    ensures forall k :: 0 <= k < |ls| ==> BiasRecords(ls, expected, co, c)[k] == []
    ensures forall k :: 0 <= k < |ls| ==> WeightRecords(ls, expected, co, c)[k] == []
    ensures DimsRecorded(dims, samples, ls, c) == dims
  {
  }

  /** Going back from layer c to c - 1 records dCdz of layer c and the weight sample of layer c - 1. */
  lemma RecordsStep(ls: seq<LayerImage>, expected: Vector, co: CostOption, c: nat)
    requires FeedsBack(ls) && 0 < c < |ls|
    ensures BiasRecords(ls, expected, co, c)[c] == []
    ensures BiasRecords(ls, expected, co, c - 1)
         == BiasRecords(ls, expected, co, c)[c := [DCdzAt(ls, expected, co, c)]]
    ensures WeightRecords(ls, expected, co, c)[c - 1] == []
    ensures WeightRecords(ls, expected, co, c - 1)
         == WeightRecords(ls, expected, co, c)[c - 1 := [Outer(DCdzAt(ls, expected, co, c), ls[c - 1].values)]]
  {
  }

  /**
   * Going back from layer c to c - 1, layer by layer: layer c gains its bias
   * sample, layer c - 1 its weight sample and, without an earlier one, its
   * dimensions; every other layer keeps what it had.
   */
  lemma RecordsBack(ls: seq<LayerImage>, expected: Vector, co: CostOption, dims: seq<seq<int>>, samples: seq<seq<Matrix>>, c: nat)
    requires FeedsBack(ls) && 0 < c < |ls| && |dims| == |samples| == |ls|
    ensures forall k :: 0 <= k < |ls| && k != c && k != c - 1 ==>
      BiasRecords(ls, expected, co, c - 1)[k] == BiasRecords(ls, expected, co, c)[k]
    ensures forall k :: 0 <= k < |ls| && k != c && k != c - 1 ==>
      WeightRecords(ls, expected, co, c - 1)[k] == WeightRecords(ls, expected, co, c)[k]
    ensures forall k :: 0 <= k < |ls| && k != c && k != c - 1 ==>
      DimsRecorded(dims, samples, ls, c - 1)[k] == DimsRecorded(dims, samples, ls, c)[k]
    ensures BiasRecords(ls, expected, co, c)[c] == [] && BiasRecords(ls, expected, co, c - 1)[c] == [DCdzAt(ls, expected, co, c)]
    ensures WeightRecords(ls, expected, co, c - 1)[c] == WeightRecords(ls, expected, co, c)[c]
    ensures DimsRecorded(dims, samples, ls, c - 1)[c] == DimsRecorded(dims, samples, ls, c)[c]
    ensures BiasRecords(ls, expected, co, c - 1)[c - 1] == BiasRecords(ls, expected, co, c)[c - 1]
    ensures WeightRecords(ls, expected, co, c)[c - 1] == []
    ensures WeightRecords(ls, expected, co, c - 1)[c - 1] == [Outer(DCdzAt(ls, expected, co, c), ls[c - 1].values)]
    ensures DimsRecorded(dims, samples, ls, c - 1)[c - 1]
         == if |samples[c - 1]| == 0 then [|ls[c - 1].values|, |ls[c].values|] else dims[c - 1]
    ensures DimsRecorded(dims, samples, ls, c)[c - 1] == dims[c - 1]
  {
    RecordsStep(ls, expected, co, c);
    DimsStep(dims, samples, ls, c);
  }

  /**
   * The records of a network back at layer c, as values: every layer holds
   * the bias and weight samples it started with (B, W) followed by the
   * ones recorded so far, and the dimensions recorded so far.
   */
  predicate RecordsHold(bs: seq<seq<Vector>>, ws: seq<seq<Matrix>>, ds: seq<seq<int>>, img: seq<LayerImage>,
                        expected: Vector, co: CostOption, B: seq<seq<Vector>>, W: seq<seq<Matrix>>, D: seq<seq<int>>, c: nat)
    requires |img| == |B| == |W| == |D| && FeedsBack(img)
  {
    |bs| == |ws| == |ds| == |img|
    && forall k :: 0 <= k < |img| ==>
      bs[k] == B[k] + BiasRecords(img, expected, co, c)[k]
      && ws[k] == W[k] + WeightRecords(img, expected, co, c)[k]
      && ds[k] == DimsRecorded(D, W, img, c)[k]
  }

  /**
   * One back step keeps the records: with dCdz of layer c appended to its
   * bias samples, the outer product appended to the weight samples of
   * layer c - 1 and, without an earlier one, its dimensions fixed, what
   * held back at layer c holds back at c - 1.
   */
  lemma RecordsNext(img: seq<LayerImage>, expected: Vector, co: CostOption,
                    B: seq<seq<Vector>>, W: seq<seq<Matrix>>, D: seq<seq<int>>, c: nat,
                    bs: seq<seq<Vector>>, ws: seq<seq<Matrix>>, ds: seq<seq<int>>)
    requires 0 < c < |img| && |img| == |B| == |W| == |D| && FeedsBack(img)
    requires RecordsHold(bs, ws, ds, img, expected, co, B, W, D, c)
    ensures RecordsHold(bs[c := bs[c] + [DCdzAt(img, expected, co, c)]],
                        ws[c - 1 := ws[c - 1] + [Outer(DCdzAt(img, expected, co, c), img[c - 1].values)]],
                        ds[c - 1 := if |ws[c - 1]| == 0 then [|img[c - 1].values|, |img[c].values|] else ds[c - 1]],
                        img, expected, co, B, W, D, c - 1)
  {
    var dz := DCdzAt(img, expected, co, c);
    var bs', ws' := bs[c := bs[c] + [dz]], ws[c - 1 := ws[c - 1] + [Outer(dz, img[c - 1].values)]];
    var ds' := ds[c - 1 := if |ws[c - 1]| == 0 then [|img[c - 1].values|, |img[c].values|] else ds[c - 1]];
    forall k | 0 <= k < |img|
      ensures bs'[k] == B[k] + BiasRecords(img, expected, co, c - 1)[k]
      ensures ws'[k] == W[k] + WeightRecords(img, expected, co, c - 1)[k]
      ensures ds'[k] == DimsRecorded(D, W, img, c - 1)[k]
    {
      RecordedEntry(img, expected, co, B, W, c, k, bs[k], ws[k], bs'[k], ws'[k]);
      DimsEntry(img, W, D, c, k, ds[k], ds'[k]);
    }
  }

  /**
   * One layer's records before and after a back step at c: layer c gains
   * dCdz as a bias sample, layer c - 1 the outer product of dCdz and its
   * values as a weight sample and, without an earlier one, its dimensions.
   * If they were recorded up to c they are recorded up to c - 1.
   */
  lemma RecordedEntry(img: seq<LayerImage>, expected: Vector, co: CostOption,
                      B: seq<seq<Vector>>, W: seq<seq<Matrix>>, c: nat, k: nat,
                      dB: seq<Vector>, dW: seq<Matrix>, dB': seq<Vector>, dW': seq<Matrix>)
    requires 0 < c < |img| && k < |img| && |img| == |B| == |W| && FeedsBack(img)
    requires dB == B[k] + BiasRecords(img, expected, co, c)[k] && dW == W[k] + WeightRecords(img, expected, co, c)[k]
    requires dB' == if k == c then dB + [DCdzAt(img, expected, co, c)] else dB
    requires dW' == if k == c - 1 then dW + [Outer(DCdzAt(img, expected, co, c), img[c - 1].values)] else dW
    ensures dB' == B[k] + BiasRecords(img, expected, co, c - 1)[k]
    ensures dW' == W[k] + WeightRecords(img, expected, co, c - 1)[k]
    ensures k == c - 1 ==> dW == W[k]
  {
    RecordsStep(img, expected, co, c);
    if k == c {
      assert dB == B[k] + [];
    } else if k == c - 1 {
      assert dW == W[k] + [];
    }
  }

  /**
   * One layer's dimensions before and after a back step at c: layer c - 1
   * takes the shape of its first weight sample if it had none before.
   */
  lemma DimsEntry(img: seq<LayerImage>, W: seq<seq<Matrix>>, D: seq<seq<int>>, c: nat, k: nat, dims: seq<int>, dims': seq<int>)
    requires 0 < c < |img| && k < |img| && |img| == |W| == |D|
    requires dims == DimsRecorded(D, W, img, c)[k]
    requires dims' == if k == c - 1 && |W[k]| == 0 then [|img[c - 1].values|, |img[c].values|] else dims
    ensures dims' == DimsRecorded(D, W, img, c - 1)[k]
  {
    DimsStep(D, W, img, c);
  }

  /** Going back from layer c to c - 1 fixes the dimensions of layer c - 1 if it had no sample. */
  lemma DimsStep(dims: seq<seq<int>>, samples: seq<seq<Matrix>>, ls: seq<LayerImage>, c: nat)
    requires |dims| == |samples| == |ls| && 0 < c < |ls|
    ensures DimsRecorded(dims, samples, ls, c)[c - 1] == dims[c - 1]
    ensures DimsRecorded(dims, samples, ls, c - 1) == DimsRecorded(dims, samples, ls, c)[c - 1 :=
      if |samples[c - 1]| == 0 then [|ls[c - 1].values|, |ls[c].values|] else dims[c - 1]]
  {
  }

  /** Every weight sample has one row per neuron of its layer and one entry per neuron of the next. */
  lemma WeightSampleShape(ls: seq<LayerImage>, expected: Vector, co: CostOption, k: nat)
    requires FeedsBack(ls) && k < |ls| - 1
    ensures |WeightRecords(ls, expected, co, 0)[k]| == 1
    ensures |WeightRecords(ls, expected, co, 0)[k][0]| == |ls[k].values|
    ensures forall r :: 0 <= r < |ls[k].values| ==> |WeightRecords(ls, expected, co, 0)[k][0][r]| == |ls[k + 1].values|
  {
  }

  /**
   * The samples and dimensions of layer k have the shapes learnFrom gives
   * them: every bias sample is as long as the layer; a layer with a weight
   * sample lies below the output, has recorded [its size, the next layer's
   * size] as its dimensions, and each of its weight samples has one row per
   * neuron and one entry per neuron of the next layer.
   */
  predicate ShapedAt(ls: seq<LayerImage>, b: seq<Vector>, w: seq<Matrix>, d: seq<int>, k: nat)
    requires k < |ls|
  {
    (forall s :: s in b ==> |s| == |ls[k].values|)
    && (|w| > 0 ==>
          k + 1 < |ls| && d == [|ls[k].values|, |ls[k + 1].values|]
          && (forall s :: s in w ==> |s| == |ls[k].values|)
          && forall s, r :: s in w && 0 <= r < |s| ==> |s[r]| == |ls[k + 1].values|)
  }

  /** Every layer's samples and dimensions have the shapes learnFrom gives them. */
  predicate Shaped(ls: seq<LayerImage>, B: seq<seq<Vector>>, W: seq<seq<Matrix>>, D: seq<seq<int>>)
  {
    |B| == |W| == |D| == |ls| && forall k :: 0 <= k < |ls| ==> ShapedAt(ls, B[k], W[k], D[k], k)
  }

  /** Without pending samples any dimensions are well shaped. */
  lemma NoSamplesShaped(ls: seq<LayerImage>, B: seq<seq<Vector>>, W: seq<seq<Matrix>>, D: seq<seq<int>>)
    requires |B| == |W| == |D| == |ls|
    requires forall k :: 0 <= k < |ls| ==> B[k] == [] && W[k] == []
    ensures Shaped(ls, B, W, D)
  {
  }

  /** learnFrom keeps the shapes: what it records on well shaped layers leaves them well shaped. */
  lemma RecordsKeepShape(bs: seq<seq<Vector>>, ws: seq<seq<Matrix>>, ds: seq<seq<int>>, ls: seq<LayerImage>,
                         expected: Vector, co: CostOption, B: seq<seq<Vector>>, W: seq<seq<Matrix>>, D: seq<seq<int>>)
    requires FeedsBack(ls) && Shaped(ls, B, W, D) && RecordsHold(bs, ws, ds, ls, expected, co, B, W, D, 0)
    ensures Shaped(ls, bs, ws, ds)
  {
    forall k | 0 <= k < |ls| ensures ShapedAt(ls, bs[k], ws[k], ds[k], k) {
      RecordShapeOf(bs, ws, ds, ls, expected, co, B, W, D, k);
    }
  }

  /** RecordsKeepShape at layer k. */
  lemma RecordShapeOf(bs: seq<seq<Vector>>, ws: seq<seq<Matrix>>, ds: seq<seq<int>>, ls: seq<LayerImage>,
                      expected: Vector, co: CostOption, B: seq<seq<Vector>>, W: seq<seq<Matrix>>, D: seq<seq<int>>, k: nat)
    requires FeedsBack(ls) && Shaped(ls, B, W, D) && RecordsHold(bs, ws, ds, ls, expected, co, B, W, D, 0) && k < |ls|
    ensures ShapedAt(ls, bs[k], ws[k], ds[k], k)
  {
    var dims := DimsRecorded(D, W, ls, 0);
    assert ShapedAt(ls, B[k], W[k], D[k], k);
    assert bs[k] == B[k] + BiasRecords(ls, expected, co, 0)[k] && ws[k] == W[k] + WeightRecords(ls, expected, co, 0)[k];
    assert ds[k] == dims[k];
    RecordShapeAt(ls, expected, co, B[k], W[k], D[k], k, bs[k], ws[k], ds[k], dims);
  }

  /** RecordsKeepShape for one layer. */
  lemma RecordShapeAt(ls: seq<LayerImage>, expected: Vector, co: CostOption, b: seq<Vector>, w: seq<Matrix>, d: seq<int>,
                      k: nat, b': seq<Vector>, w': seq<Matrix>, d': seq<int>, dims: seq<seq<int>>)
    requires FeedsBack(ls) && k < |ls| && ShapedAt(ls, b, w, d, k)
    requires b' == b + BiasRecords(ls, expected, co, 0)[k] && w' == w + WeightRecords(ls, expected, co, 0)[k]
    requires |dims| == |ls| && dims[k] == (if k < |ls| - 1 && |w| == 0 then [|ls[k].values|, |ls[k + 1].values|] else d)
    requires d' == dims[k]
    ensures ShapedAt(ls, b', w', d', k)
  {
    if k > 0 {
      assert BiasRecords(ls, expected, co, 0)[k] == [DCdzAt(ls, expected, co, k)];
    } else {
      assert b' == b + [];
    }
    if k < |ls| - 1 {
      WeightSampleShape(ls, expected, co, k);
      var m := WeightRecords(ls, expected, co, 0)[k][0];
      assert w' == w + [m];
    } else {
      assert w' == w + [];
    }
  }

  /**
   * With quadratic cost, entry i of the output layer's bias sample is the
   * activation derivative at its value times 2(value - expected), or 0
   * where nothing is expected.
   */
  lemma OutputGradient(ls: seq<LayerImage>, expected: Vector, i: nat)
    requires FeedsBack(ls) && |ls| > 0 && i < |ls[|ls| - 1].values|
    ensures DCdzAt(ls, expected, Quadratic, |ls| - 1)[i]
         == Derivative(ls[|ls| - 1].af, ls[|ls| - 1].values[i])
            * (if i < |expected| then 2.0 * (ls[|ls| - 1].values[i] - expected[i]) else 0.0)
  {
  }

  /** A dot product with a zero right-hand side is 0. */
  lemma {:induction false} DotZeroRight(a: Vector, b: Vector)
    requires |a| <= |b| && forall i :: 0 <= i < |b| ==> b[i] == 0.0
    ensures Dot(a, b) == 0.0
  {
    if |a| > 0 {
      DotZeroRight(a[..|a| - 1], b);
    }
  }

  /** A network whose output already equals the expected vector gets zero gradients at and below layer k. */
  lemma {:induction false} PerfectFitZeroGradient(ls: seq<LayerImage>, expected: Vector, k: nat)
    requires FeedsBack(ls) && k < |ls|
    requires |expected| >= |ls[|ls| - 1].values|
    requires forall i :: 0 <= i < |ls[|ls| - 1].values| ==> expected[i] == ls[|ls| - 1].values[i]
    ensures forall i :: 0 <= i < |ls[k].values| ==> DCdaAt(ls, expected, Quadratic, k)[i] == 0.0
    ensures forall i :: 0 <= i < |ls[k].values| ==> DCdzAt(ls, expected, Quadratic, k)[i] == 0.0
    decreases |ls| - k
  {
    if k < |ls| - 1 {
      PerfectFitZeroGradient(ls, expected, k + 1);
      var dz := DCdzAt(ls, expected, Quadratic, k + 1);
      forall i | 0 <= i < |ls[k].values|
        ensures DCdaAt(ls, expected, Quadratic, k)[i] == 0.0
      {
        DotZeroRight(ls[k].weights[i], dz);
      }
    }
  }

  /**
   * learnFrom at an output that already matches the expected vector (with
   * quadratic cost) records only zero samples.
   */
  lemma PerfectFitRecordsZeros(ls: seq<LayerImage>, expected: Vector)
    requires FeedsBack(ls) && |ls| > 0
    requires |expected| >= |ls[|ls| - 1].values|
    requires forall i :: 0 <= i < |ls[|ls| - 1].values| ==> expected[i] == ls[|ls| - 1].values[i]
    ensures forall k, i :: 0 < k < |ls| && 0 <= i < |ls[k].values| ==>
      BiasRecords(ls, expected, Quadratic, 0)[k][0][i] == 0.0
    ensures forall k, r, i :: 0 <= k < |ls| - 1 && 0 <= r < |ls[k].values| && 0 <= i < |ls[k + 1].values| ==>
      WeightRecords(ls, expected, Quadratic, 0)[k][0][r][i] == 0.0
  {
    forall k | 0 <= k < |ls|
      ensures forall i :: 0 <= i < |ls[k].values| ==> DCdzAt(ls, expected, Quadratic, k)[i] == 0.0
    {
      PerfectFitZeroGradient(ls, expected, k);
    }
  }
}
