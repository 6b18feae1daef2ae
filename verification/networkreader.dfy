/**
 * readFromFile (src/Other/Util.java): rebuilds a network from the lines of
 * a saved file. Each method reads the way the source does, neuron by
 * neuron and layer by layer, and is proved to build exactly what the
 * format functions of SaveFormat say the lines hold.
 */
module NetworkReader {
  import opened Wrappers
  import opened Text
  import Activation
  import Cost
  import opened Util
  import opened Neurons
  import opened Layers
  import opened SaveFormat
  import opened Networks
  import opened Gradients

  /**
   * What readFromFile returns: a network; null after a TooFewLayersException;
   * or an uncaught exception (a missing line, a non-number, an unknown tag).
   */
  datatype ReadOutcome = Read(net: Network) | NoNetwork | Failed

  /** The layers a successful read builds, as values; saving them gives back what was read. */
  function RebuiltAll(ls: seq<SavedLayer>): (im: seq<LayerImage>)
    ensures |im| == |ls|
    ensures forall k :: 0 <= k < |ls| ==> |im[k].weights| == |im[k].biases| == |im[k].values|
    ensures SavedAll(im) == ls
  {
    var im := seq(|ls|, k requires 0 <= k < |ls| => Rebuilt(ls[k]));
    forall k | 0 <= k < |ls| ensures Saved(im[k]) == ls[k] {
      RebuiltSaved(ls[k], im[k]);
    }
    im
  }

  /** The weights nextDouble reads from a line's tokens: the first n, in order. */
  method ReadWeights(ts: seq<string>, n: nat, parse: string -> Option<real>) returns (r: Option<Vector>)
    ensures r == ParseWeights(ts, n, parse)
  {
    var ws: Vector := [];
    var k := 0;
    assert ts[0..] == ts;
    assert Prefixed([], ParseWeights(ts, n, parse)) == ParseWeights(ts, n, parse) by {
      if ParseWeights(ts, n, parse).Some? {
        assert [] + ParseWeights(ts, n, parse).value == ParseWeights(ts, n, parse).value;
      }
    }
    while k < n
      invariant 0 <= k <= n && k <= |ts| && |ws| == k
      invariant ParseWeights(ts, n, parse) == Prefixed(ws, ParseWeights(ts[k..], n - k, parse))
    {
      if k >= |ts| {
        return None;
      }
      assert ts[k..][1..] == ts[k + 1..];
      var x := parse(ts[k]);
      if x.None? {
        return None;
      }
      PrefixedSnoc(ws, x.value, ParseWeights(ts[k + 1..], n - k - 1, parse));
      ws := ws + [x.value];
      k := k + 1;
    }
    r := Some(ws);
    assert ws + [] == ws;
  }

  /** Some(done + v) for a read v that follows done; None stays None. */
  function Prefixed(done: Vector, r: Option<Vector>): Option<Vector>
  {
    match r
    case None => None
    case Some(v) => Some(done + v)
  }

  lemma PrefixedSnoc(done: Vector, x: real, r: Option<Vector>)
    ensures Prefixed(done, match r case None => None case Some(v) => Some([x] + v)) == Prefixed(done + [x], r)
  {
    if r.Some? {
      assert done + ([x] + r.value) == (done + [x]) + r.value;
    }
  }

  /**
   * One neuron: new Neuron(false), next weights from the first line, the
   * bias from the second; None where the source throws.
   */
  method ReadNeuron(lines: seq<string>, next: int, parse: string -> Option<real>) returns (r: Option<(Neuron, seq<string>)>)
    ensures r.None? <==> ParseNeuron(lines, next, parse).None?
    ensures r.Some? ==> var p := ParseNeuron(lines, next, parse).value;
      fresh(r.value.0) && r.value.0.w == p.0.weights && r.value.0.b == p.0.bias && r.value.0.val == 0.0
      && r.value.1 == p.1
  {
    var n := new Neuron.Terminal(false, 0.0);
    if |lines| == 0 || next < 0 {
      return None;
    }
    var ws := ReadWeights(Tokens(lines[0]), next, parse);
    if ws.None? {
      return None;
    }
    if |lines| < 2 {
      return None;
    }
    var b := parse(Trim(lines[1]));
    if b.None? {
      return None;
    }
    n.SetWeights(ws.value);
    n.SetBias(b.value);
    r := Some((n, lines[2..]));
  }

  /** The neurons read so far hold what the format says, and are new. */
  ghost predicate ReadSoFar(neurons: seq<Neuron>, got: seq<SavedNeuron>)
    reads set n | n in neurons
  {
    |neurons| == |got| && Distinct(neurons)
    && forall j :: 0 <= j < |neurons| ==>
         neurons[j].w == got[j].weights && neurons[j].b == got[j].bias && neurons[j].val == 0.0
  }

  /**
   * One layer: the header, nodeNum neurons, then the activation function
   * and new Layer(neuronQueue, af, nextNodeNum).
   */
  method ReadLayer(lines: seq<string>, parse: string -> Option<real>) returns (r: Option<(Layer, seq<string>)>)
    ensures r.None? <==> ParseLayer(lines, parse).None?
    ensures r.Some? ==> var p := ParseLayer(lines, parse).value;
      r.value.0.Valid() && r.value.0.Image() == Rebuilt(p.0) && r.value.1 == p.1
      && r.value.0.dWSet == [] && r.value.0.dBSet == []
    ensures r.Some? ==> fresh(r.value.0) && fresh(r.value.0.matrixDims)
    ensures r.Some? ==> forall n :: n in r.value.0.neuronQueue ==> fresh(n)
  {
    if |lines| == 0 {
      return None;
    }
    var h := ParseHeader(lines[0]);
    if h.None? {
      return None;
    }
    var count, next, tag := h.value.0, h.value.1, h.value.2;
    var nr := ReadNeurons(lines[1..], count, next, parse);
    if nr.None? {
      return None;
    }
    var neurons, rest := nr.value.0, nr.value.1;
    ghost var got := ParseNeurons(lines[1..], count, next, parse).value.0;
    var af := Activation.FromTag(tag);
    if af.None? {
      return None;
    }
    var l := new Layer.FromNeurons(neurons, af.value, next);
    assert l.Neurons() == set n | n in neurons;
    ghost var s := SavedLayer(af.value, next, got);
    assert l.Values() == Rebuilt(s).values;
    assert l.Weights() == Rebuilt(s).weights;
    assert l.Biases() == Rebuilt(s).biases;
    r := Some((l, rest));
  }

  /** nodeNum neurons, one after the other, each a new object. */
  method ReadNeurons(lines: seq<string>, count: int, next: int, parse: string -> Option<real>)
    returns (r: Option<(seq<Neuron>, seq<string>)>)
    ensures r.None? <==> ParseNeurons(lines, count, next, parse).None?
    ensures r.Some? ==> var p := ParseNeurons(lines, count, next, parse).value;
      ReadSoFar(r.value.0, p.0) && r.value.1 == p.1
    ensures r.Some? ==> forall n :: n in r.value.0 ==> fresh(n)
  {
    var neurons: seq<Neuron> := [];
    ghost var got: seq<SavedNeuron> := [];
    var rest := lines;
    var left := count;
    GlueNil(ParseNeurons(rest, left, next, parse));
    while left > 0
      invariant ReadSoFar(neurons, got)
      invariant forall n :: n in neurons ==> fresh(n)
      invariant ParseNeurons(lines, count, next, parse) == Glue(got, ParseNeurons(rest, left, next, parse))
    {
      var ok;
      ok, neurons, got, rest, left := NextNeuron(lines, count, next, parse, neurons, got, rest, left);
      if !ok {
        return None;
      }
    }
    GlueSome(got, [], rest);
    assert got + [] == got;
    r := Some((neurons, rest));
  }

  /**
   * One turn of the neuron loop, with left neurons still to read: the next
   * neuron is read and appended, or the lines hold no more neurons.
   */
  method NextNeuron(lines: seq<string>, count: int, next: int, parse: string -> Option<real>,
                    neurons: seq<Neuron>, ghost got: seq<SavedNeuron>, rest: seq<string>, left: int)
    returns (ok: bool, neurons': seq<Neuron>, ghost got': seq<SavedNeuron>, rest': seq<string>, left': int)
    requires left > 0 && ReadSoFar(neurons, got)
    requires ParseNeurons(lines, count, next, parse) == Glue(got, ParseNeurons(rest, left, next, parse))
    ensures !ok ==> ParseNeurons(lines, count, next, parse).None?
    ensures ok ==> ReadSoFar(neurons', got') && left' == left - 1
    ensures ok ==> |neurons'| == |neurons| + 1 && neurons' == neurons + [neurons'[|neurons|]]
    ensures ok ==> fresh(neurons'[|neurons|])
    ensures ok ==> ParseNeurons(lines, count, next, parse) == Glue(got', ParseNeurons(rest', left', next, parse))
  {
    var nr := ReadNeuron(rest, next, parse);
    if nr.None? {
      return false, neurons, got, rest, left;
    }
    ghost var p := ParseNeuron(rest, next, parse).value;
    NeuronsAhead(lines, count, next, parse, got, rest, left);
    ok, neurons', got', rest', left' := true, neurons + [nr.value.0], got + [p.0], nr.value.1, left - 1;
  }

  /** With one more neuron read off the front, the same lines still parse to the same result. */
  lemma NeuronsAhead(lines: seq<string>, count: int, next: int, parse: string -> Option<real>,
                     got: seq<SavedNeuron>, rest: seq<string>, left: int)
    requires left > 0 && ParseNeuron(rest, next, parse).Some?
    requires ParseNeurons(lines, count, next, parse) == Glue(got, ParseNeurons(rest, left, next, parse))
    ensures var p := ParseNeuron(rest, next, parse).value;
      ParseNeurons(lines, count, next, parse) == Glue(got + [p.0], ParseNeurons(p.1, left - 1, next, parse))
  {
    var p := ParseNeuron(rest, next, parse).value;
    var tail := ParseNeurons(p.1, left - 1, next, parse);
    assert ParseNeurons(rest, left, next, parse) == Glue([p.0], tail);
    GlueStep(got, p.0, tail);
  }

  /** Glue over one more item read: done + [x] in front of what follows. */
  lemma GlueStep<T>(done: seq<T>, x: T, rest: Option<(seq<T>, seq<string>)>)
    ensures Glue(done, Glue([x], rest)) == Glue(done + [x], rest)
  {
    if rest.Some? {
      assert done + ([x] + rest.value.0) == (done + [x]) + rest.value.0;
    }
  }

  /** Nothing read in front leaves a result as it is. */
  lemma GlueNil<T>(rest: Option<(seq<T>, seq<string>)>)
    ensures Glue([], rest) == rest
  {
    if rest.Some? {
      assert [] + rest.value.0 == rest.value.0;
    }
  }

  /**
   * readFromFile: the cost line, the layer count, layerAmount layers, then
   * new Network(layerQueue, costFunction). A network exactly when the lines
   * are Loaded; null when they hold fewer than two layers; an exception
   * when they are Malformed.
   */
  method ReadFromFile(lines: seq<string>, parse: string -> Option<real>) returns (r: ReadOutcome)
    ensures r.Failed? <==> Parse(lines, parse).Malformed?
    ensures r.NoNetwork? <==> Parse(lines, parse).TooFewLayers?
    ensures r.Read? ==> var p := Parse(lines, parse);
      p.Loaded? && fresh(r.net) && r.net.Valid() && r.net.cf == p.cost && r.net.Image() == RebuiltAll(p.layers)
    ensures r.Read? ==> (r.net.Trainable() <==> Learnable(r.net.Image()))
  {
    if |lines| < 2 {
      return Failed;
    }
    var amount := ParseInt(lines[1]);
    if amount.None? {
      return Failed;
    }
    var lr := ReadLayers(lines[2..], amount.value, parse);
    if lr.None? {
      return Failed;
    }
    r := Assemble(lr.value.0, ParseLayers(lines[2..], amount.value, parse).value.0, lines[0]);
  }

  /** layerAmount layers, one after the other, sharing nothing. */
  method ReadLayers(lines: seq<string>, count: int, parse: string -> Option<real>)
    returns (r: Option<(seq<Layer>, seq<string>)>)
    ensures r.None? <==> ParseLayers(lines, count, parse).None?
    ensures r.Some? ==> BuiltAs(r.value.0, RebuiltAll(ParseLayers(lines, count, parse).value.0))
  {
    var layers: seq<Layer> := [];
    ghost var got: seq<SavedLayer> := [];
    var rest := lines;
    var left := count;
    GlueNil(ParseLayers(rest, left, parse));
    while left > 0
      invariant BuiltAs(layers, RebuiltAll(got))
      invariant ParseLayers(lines, count, parse) == Glue(got, ParseLayers(rest, left, parse))
    {
      var ok;
      ok, layers, got, rest, left := ReadNext(lines, count, parse, layers, got, rest, left);
      if !ok {
        return None;
      }
    }
    GlueSome(got, [], rest);
    assert got + [] == got;
    r := Some((layers, rest));
  }

  /**
   * One turn of the layer loop, with left layers still to read: the next
   * layer is read and appended, or the lines hold no more layers.
   */
  method ReadNext(lines: seq<string>, count: int, parse: string -> Option<real>,
                  layers: seq<Layer>, ghost got: seq<SavedLayer>, rest: seq<string>, left: int)
    returns (ok: bool, layers': seq<Layer>, ghost got': seq<SavedLayer>, rest': seq<string>, left': int)
    requires left > 0 && BuiltAs(layers, RebuiltAll(got))
    requires ParseLayers(lines, count, parse) == Glue(got, ParseLayers(rest, left, parse))
    ensures !ok ==> ParseLayers(lines, count, parse).None?
    ensures ok ==> BuiltAs(layers', RebuiltAll(got')) && |layers'| == |layers| + 1 && left' == left - 1
    ensures ok ==> ParseLayers(lines, count, parse) == Glue(got', ParseLayers(rest', left', parse))
  {
    LayersStep(lines, count, parse, got, rest, left);
    var lr := ReadAnother(layers, got, rest, parse);
    if lr.None? {
      return false, layers, got, rest, left;
    }
    ok, layers', got', rest', left' := true, layers + [lr.value.0], got + [ParseLayer(rest, parse).value.0], lr.value.1, left - 1;
  }

  /** Reading one more layer moves it from the rest of the lines to the layers read. */
  lemma LayersStep(lines: seq<string>, count: int, parse: string -> Option<real>,
                   got: seq<SavedLayer>, rest: seq<string>, c: int)
    requires c > 0
    requires ParseLayers(lines, count, parse) == Glue(got, ParseLayers(rest, c, parse))
    ensures ParseLayer(rest, parse).None? ==> ParseLayers(lines, count, parse).None?
    ensures ParseLayer(rest, parse).Some? ==>
      ParseLayers(lines, count, parse) == Glue(got + [ParseLayer(rest, parse).value.0], ParseLayers(ParseLayer(rest, parse).value.1, c - 1, parse))
  {
    if ParseLayer(rest, parse).Some? {
      var p := ParseLayer(rest, parse).value;
      GlueStep(got, p.0, ParseLayers(p.1, c - 1, parse));
    }
  }

  /**
   * The end of readFromFile: the cost tag is converted, then new
   * Network(layerQueue, costFunction) refuses fewer than two layers.
   */
  method Assemble(layers: seq<Layer>, ghost got: seq<SavedLayer>, costLine: string) returns (r: ReadOutcome)
    requires BuiltAs(layers, RebuiltAll(got))
    ensures r.Failed? <==> Cost.FromTag(costLine).None?
    ensures r.NoNetwork? <==> Cost.FromTag(costLine).Some? && |got| < 2
    ensures r.Read? ==> fresh(r.net) && r.net.Valid()
    ensures r.Read? ==> r.net.cf == Cost.FromTag(costLine).value && r.net.Image() == RebuiltAll(got)
    ensures r.Read? ==> (r.net.Trainable() <==> Learnable(RebuiltAll(got)))
  {
    BuiltAsAll(layers, RebuiltAll(got));
    var co := Cost.FromTag(costLine);
    if co.None? {
      return Failed;
    }
    var c := Network.FromLayers(layers, co.value);
    if c.TooFewLayers? {
      return NoNetwork;
    }
    r := Read(c.net);
    assert r.net.Image() == RebuiltAll(got);
    r.net.UntrainedTrainable(RebuiltAll(got));
  }

  /**
   * The next layer of the file, read after the layers before it: they keep
   * their contents, and the new one shares nothing with them.
   */
  method ReadAnother(layers: seq<Layer>, ghost got: seq<SavedLayer>, rest: seq<string>, parse: string -> Option<real>)
    returns (lr: Option<(Layer, seq<string>)>)
    requires BuiltAs(layers, RebuiltAll(got))
    ensures lr.None? <==> ParseLayer(rest, parse).None?
    ensures lr.Some? ==> lr.value.1 == ParseLayer(rest, parse).value.1
    ensures lr.Some? ==> BuiltAs(layers + [lr.value.0], RebuiltAll(got + [ParseLayer(rest, parse).value.0]))
  {
    lr := ReadLayer(rest, parse);
    if lr.Some? {
      var l := lr.value.0;
      var ls := layers + [l];
      ghost var gs := got + [ParseLayer(rest, parse).value.0];
      assert ls[..|layers|] == layers && RebuiltAll(gs)[..|got|] == RebuiltAll(got);
      assert forall n :: n in NeuronsOf(layers) ==> old(allocated(n));
      assert BuiltAs(layers, RebuiltAll(got));
      forall i | 0 <= i < |layers|
        ensures ls[i] != l && ls[i].matrixDims != l.matrixDims && ls[i].Neurons() !! l.Neurons()
      {
        assert forall n :: n in ls[i].neuronQueue ==> old(allocated(n));
      }
    }
  }

  /**
   * A saved network reads back: saveToFile followed by readFromFile gives a
   * new network with the same cost function, the same weights and biases
   * and every value 0, provided parseDouble reads back what Double.toString
   * writes of each of its weights and biases and every count fits in an int.
   */
  method SaveThenRead(net: Network, fmt: real -> string, parse: string -> Option<real>) returns (r: ReadOutcome)
    requires net.Valid() && ReadsBack(fmt, parse, SavedAll(net.Image()))
    requires Writable(SavedAll(net.Image()))
    ensures r.Read? && fresh(r.net) && r.net.Valid() && r.net.cf == net.cf
    ensures SavedAll(r.net.Image()) == SavedAll(net.Image())
    ensures net.Trainable() ==> r.net.Trainable()
  {
    var lines := net.SaveToFile(fmt);
    LoadSaved(net.cf, SavedAll(net.Image()), fmt, parse);
    RebuiltFeeds(net.Image());
    ghost var back := RebuiltAll(SavedAll(net.Image()));
    r := ReadFromFile(lines, parse);
    assert r.net.Image() == back;
  }

  /** A network rebuilt from its saved layers is learnable whenever the saved one was. */
  lemma RebuiltFeeds(ls: seq<LayerImage>)
    requires forall k :: 0 <= k < |ls| ==> |ls[k].weights| == |ls[k].biases| == |ls[k].values|
    ensures Learnable(ls) ==> Learnable(RebuiltAll(SavedAll(ls)))
  {
    var back := RebuiltAll(SavedAll(ls));
    forall k | 0 <= k < |ls|
      ensures back[k].weights == ls[k].weights && |back[k].values| == |ls[k].values|
    {
      RebuiltSaved(Saved(ls[k]), ls[k]);
      assert Saved(back[k]) == Saved(ls[k]);
      RebuiltSaved(Saved(ls[k]), back[k]);
    }
  }

  /**
   * What the round trip is for: a reloaded network, given an input that
   * fills its input layer, computes the same values on every layer as the
   * network that was saved.
   */
  lemma ReloadedPulsesAlike(ls: seq<LayerImage>, values: Vector)
    requires |ls| > 0 && |values| >= |ls[0].values|
    requires forall k :: 0 <= k < |ls| ==> |ls[k].weights| == |ls[k].biases| == |ls[k].values|
    ensures forall k :: 0 <= k < |ls| ==>
      Pulsed(Networks.Loaded(RebuiltAll(SavedAll(ls)), values))[k].values == Pulsed(Networks.Loaded(ls, values))[k].values
  {
    var back := RebuiltAll(SavedAll(ls));
    forall k | 0 <= k < |ls|
      ensures back[k].weights == ls[k].weights && back[k].biases == ls[k].biases && back[k].af == ls[k].af
      ensures |back[k].values| == |ls[k].values|
    {
      RebuiltSaved(Saved(ls[k]), ls[k]);
      assert Saved(back[k]) == Saved(ls[k]);
      RebuiltSaved(Saved(ls[k]), back[k]);
    }
    var a, b := Networks.Loaded(back, values), Networks.Loaded(ls, values);
    forall k | 0 <= k < |ls| ensures Pulsed(a)[k].values == Pulsed(b)[k].values {
      ForwardDependsOnInput(a, b, k);
      PulsedUpToEnd(a);
      PulsedUpToEnd(b);
    }
  }
}
