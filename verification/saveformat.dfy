/**
 * The text layout of a saved network, as lines: saveToFile
 * (src/NetworkClasses/Network.java) writes it and readFromFile
 * (src/Other/Util.java) reads it. The file is these lines, each ended by a
 * newline:
 *
 *   the cost function's tag
 *   the number of layers
 *   per layer: "size next TAG", then per neuron a line of its weights, each
 *   followed by a space, and a line holding its bias.
 *
 * Numbers are written by a formatter `fmt` (Double.toString) and read by a
 * parser `parse` (Scanner.nextDouble and Double.parseDouble); both are
 * parameters, and the round trip holds whenever parse undoes fmt on every
 * weight and bias the file holds.
 */
module SaveFormat {
  import opened Wrappers
  import opened Text
  import opened Util
  import opened Layers
  import Activation
  import Cost

  /** What the file keeps of a neuron. */
  datatype SavedNeuron = SavedNeuron(weights: Vector, bias: real)

  /** What the file keeps of a layer: activation, nextNodesNum and the neurons in queue order. */
  datatype SavedLayer = SavedLayer(af: Activation.ActivationOption, next: int, neurons: seq<SavedNeuron>)

  /** What readFromFile ends with: a network, null (fewer than two layers), or an exception it does not catch. */
  datatype Outcome = Loaded(cost: Cost.CostOption, layers: seq<SavedLayer>) | TooFewLayers | Malformed

  /**
   * x is written as one token that tokenising and trimming leave alone, and
   * parse reads that token back as x.
   */
  ghost predicate RoundsTrip(fmt: real -> string, parse: string -> Option<real>, x: real)
  {
    Solid(fmt(x)) && parse(fmt(x)) == Some(x)
  }

  /** Every number of a weight line reads back. */
  ghost predicate WeightsReadBack(fmt: real -> string, parse: string -> Option<real>, ws: Vector)
  {
    forall x :: x in ws ==> RoundsTrip(fmt, parse, x)
  }

  /** Every weight and the bias of a neuron read back. */
  ghost predicate NeuronReadsBack(fmt: real -> string, parse: string -> Option<real>, n: SavedNeuron)
  {
    WeightsReadBack(fmt, parse, n.weights) && RoundsTrip(fmt, parse, n.bias)
  }

  /** Every number a layer writes reads back. */
  ghost predicate LayerReadsBack(fmt: real -> string, parse: string -> Option<real>, l: SavedLayer)
  {
    forall n :: n in l.neurons ==> NeuronReadsBack(fmt, parse, n)
  }

  /** Every number a network's layers write reads back. */
  ghost predicate ReadsBack(fmt: real -> string, parse: string -> Option<real>, ls: seq<SavedLayer>)
  {
    forall l :: l in ls ==> LayerReadsBack(fmt, parse, l)
  }

  // ------------------------------------------------------------- layers

  /** The saved part of a layer: one neuron per weight row. */
  function Saved(l: LayerImage): (s: SavedLayer)
    requires |l.weights| == |l.biases|
    ensures s.af == l.af && s.next == l.next && |s.neurons| == |l.weights|
  {
    SavedLayer(l.af, l.next, seq(|l.weights|, j requires 0 <= j < |l.weights| => SavedNeuron(l.weights[j], l.biases[j])))
  }

  /** The saved part of every layer. */
  function SavedAll(ls: seq<LayerImage>): (r: seq<SavedLayer>)
    requires forall k :: 0 <= k < |ls| ==> |ls[k].weights| == |ls[k].biases|
    ensures |r| == |ls|
  {
    seq(|ls|, k requires 0 <= k < |ls| && |ls[k].weights| == |ls[k].biases| => Saved(ls[k]))
  }

  /** A layer as readFromFile rebuilds it: every value 0, the saved weights and biases. */
  function Rebuilt(s: SavedLayer): (l: LayerImage)
  {
    LayerImage(seq(|s.neurons|, _ => 0.0), seq(|s.neurons|, j requires 0 <= j < |s.neurons| => s.neurons[j].weights),
               seq(|s.neurons|, j requires 0 <= j < |s.neurons| => s.neurons[j].bias), s.af, s.next)
  }

  /** Saving a rebuilt layer gives back what was read; rebuilding a saved layer forgets only the values. */
  lemma RebuiltSaved(s: SavedLayer, l: LayerImage)
    requires |l.weights| == |l.biases| == |l.values|
    ensures Saved(Rebuilt(s)) == s
    ensures Rebuilt(Saved(l)) == l.(values := seq(|l.values|, _ => 0.0))
  {
    assert Saved(Rebuilt(s)).neurons == s.neurons;
    assert Rebuilt(Saved(l)).weights == l.weights;
    assert Rebuilt(Saved(l)).biases == l.biases;
  }

  // -------------------------------------------------------------- writing

  /** The weight line: every weight followed by a space. */
  function WeightLine(ws: Vector, fmt: real -> string): string
  {
    if |ws| == 0 then "" else fmt(ws[0]) + " " + WeightLine(ws[1..], fmt)
  }

  /** The layer header: neuron count, nextNodesNum and activation tag. */
  function Header(l: SavedLayer): string
  {
    IntToString(|l.neurons|) + " " + IntToString(l.next) + " " + Activation.Tag(l.af)
  }

  /** Two lines per neuron: its weights, then its bias. */
  function NeuronLines(ns: seq<SavedNeuron>, fmt: real -> string): (lines: seq<string>)
  {
    if |ns| == 0 then [] else [WeightLine(ns[0].weights, fmt), fmt(ns[0].bias)] + NeuronLines(ns[1..], fmt)
  }

  function LayerLines(l: SavedLayer, fmt: real -> string): seq<string>
  {
    [Header(l)] + NeuronLines(l.neurons, fmt)
  }

  function LayersLines(ls: seq<SavedLayer>, fmt: real -> string): seq<string>
  {
    if |ls| == 0 then [] else LayerLines(ls[0], fmt) + LayersLines(ls[1..], fmt)
  }

  /** The whole file written by saveToFile. */
  function SaveLayout(co: Cost.CostOption, ls: seq<SavedLayer>, fmt: real -> string): seq<string>
  {
    [Cost.Tag(co), IntToString(|ls|)] + LayersLines(ls, fmt)
  }

  /** 1 + 2 size_k lines for layer k. */
  function LineTotal(ls: seq<SavedLayer>): nat
  {
    if |ls| == 0 then 0 else 1 + 2 * |ls[0].neurons| + LineTotal(ls[1..])
  }

  lemma {:induction false} NeuronLinesLength(ns: seq<SavedNeuron>, fmt: real -> string)
    ensures |NeuronLines(ns, fmt)| == 2 * |ns|
  {
    if |ns| > 0 {
      NeuronLinesLength(ns[1..], fmt);
    }
  }

  lemma {:induction false} LayersLinesLength(ls: seq<SavedLayer>, fmt: real -> string)
    ensures |LayersLines(ls, fmt)| == LineTotal(ls)
  {
    if |ls| > 0 {
      NeuronLinesLength(ls[0].neurons, fmt);
      LayersLinesLength(ls[1..], fmt);
    }
  }

  /** A saved network has 2 + the sum over layers of (1 + 2 size_k) lines. */
  lemma SaveLayoutLength(co: Cost.CostOption, ls: seq<SavedLayer>, fmt: real -> string)
    ensures |SaveLayout(co, ls, fmt)| == 2 + LineTotal(ls)
  {
    LayersLinesLength(ls, fmt);
  }

  lemma {:induction false} WeightLineSnoc(ws: Vector, x: real, fmt: real -> string)
    ensures WeightLine(ws + [x], fmt) == WeightLine(ws, fmt) + fmt(x) + " "
    decreases |ws|
  {
    if |ws| == 0 {
      assert (ws + [x])[1..] == [];
    } else {
      assert (ws + [x])[1..] == ws[1..] + [x];
      WeightLineSnoc(ws[1..], x, fmt);
    }
  }

  lemma {:induction false} NeuronLinesSnoc(ns: seq<SavedNeuron>, n: SavedNeuron, fmt: real -> string)
    ensures NeuronLines(ns + [n], fmt) == NeuronLines(ns, fmt) + [WeightLine(n.weights, fmt), fmt(n.bias)]
    decreases |ns|
  {
    if |ns| == 0 {
      assert (ns + [n])[1..] == [];
    } else {
      assert (ns + [n])[1..] == ns[1..] + [n];
      NeuronLinesSnoc(ns[1..], n, fmt);
    }
  }

  lemma {:induction false} LayersLinesSnoc(ls: seq<SavedLayer>, l: SavedLayer, fmt: real -> string)
    ensures LayersLines(ls + [l], fmt) == LayersLines(ls, fmt) + LayerLines(l, fmt)
    decreases |ls|
  {
    if |ls| == 0 {
      assert (ls + [l])[1..] == [];
    } else {
      assert (ls + [l])[1..] == ls[1..] + [l];
      LayersLinesSnoc(ls[1..], l, fmt);
    }
  }

  /** The prefix of length k + 1 is the prefix of length k and element k. */
  lemma PrefixSnoc<T>(s: seq<T>, k: nat)
    requires k < |s|
    ensures s[..k + 1] == s[..k] + [s[k]]
  {
  }

  /** The stream of weights saveToFile writes for one neuron. */
  method WriteWeights(ws: Vector, fmt: real -> string) returns (line: string)
    ensures line == WeightLine(ws, fmt)
  {
    line := "";
    var k := 0;
    while k < |ws|
      invariant 0 <= k <= |ws| && line == WeightLine(ws[..k], fmt)
    {
      WeightLineSnoc(ws[..k], ws[k], fmt);
      assert ws[..k + 1] == ws[..k] + [ws[k]];
      line := line + fmt(ws[k]) + " ";
      k := k + 1;
    }
    assert ws[..k] == ws;
  }

  /** What saveToFile writes for one layer: its header, then two lines per neuron. */
  method WriteLayer(l: Layer, fmt: real -> string) returns (block: seq<string>)
    ensures block == LayerLines(Saved(l.Image()), fmt)
  {
    ghost var s := Saved(l.Image());
    block := [IntToString(|l.neuronQueue|) + " " + IntToString(l.nextNodesNum) + " " + Activation.Tag(l.af)];
    var j := 0;
    while j < |l.neuronQueue|
      invariant 0 <= j <= |l.neuronQueue| && block == [Header(s)] + NeuronLines(s.neurons[..j], fmt)
    {
      var n := l.neuronQueue[j];
      assert s.neurons[j] == SavedNeuron(n.w, n.b);
      var line := WriteWeights(n.w, fmt);
      NeuronLinesSnoc(s.neurons[..j], s.neurons[j], fmt);
      assert s.neurons[..j + 1] == s.neurons[..j] + [s.neurons[j]];
      block := block + [line, fmt(n.b)];
      j := j + 1;
    }
    assert |s.neurons| == j;
    assert s.neurons[..j] == s.neurons;
    assert s == Saved(l.Image());
    assert block == [Header(s)] + NeuronLines(s.neurons, fmt);
  }

  /** The layer blocks saveToFile writes, one per layer in queue order. */
  method WriteLayers(ls: seq<Layer>, ghost saved: seq<SavedLayer>, fmt: real -> string) returns (lines: seq<string>)
    requires |saved| == |ls| && forall k :: 0 <= k < |ls| ==> saved[k] == Saved(ls[k].Image())
    ensures lines == LayersLines(saved, fmt)
  {
    lines := [];
    var k := 0;
    while k < |ls|
      invariant 0 <= k <= |ls| && lines == LayersLines(saved[..k], fmt)
      invariant forall j :: 0 <= j < |ls| ==> saved[j] == Saved(ls[j].Image())
      invariant forall j, n :: 0 <= j < |ls| && n in ls[j].neuronQueue ==> allocated(n)
      modifies {}
    {
      ghost var before := ls[k].Image();
      assert forall n :: n in ls[k].Neurons() ==> allocated(n);
      var block := WriteLayer(ls[k], fmt);
      assert ls[k].Image() == before;
      assert block == LayerLines(saved[k], fmt);
      LayersLinesSnoc(saved[..k], saved[k], fmt);
      PrefixSnoc(saved, k);
      lines := lines + block;
      k := k + 1;
    }
    assert saved[..k] == saved;
  }

  // -------------------------------------------------------------- reading
  //
  // Each reader takes the lines not read yet and, on success, hands back
  // what it read and the lines after it, as the BufferedReader moves on.

  /** Adds the items read so far in front of a result read further on. */
  function Glue<T>(done: seq<T>, rest: Option<(seq<T>, seq<string>)>): (r: Option<(seq<T>, seq<string>)>)
    ensures r.Some? <==> rest.Some?
  {
    match rest
    case None => None
    case Some(p) => Some((done + p.0, p.1))
  }

  /** The n weights a neuron's line yields through nextDouble, from its first tokens. */
  function ParseWeights(ts: seq<string>, n: nat, parse: string -> Option<real>): (r: Option<Vector>)
    ensures r.Some? ==> |r.value| == n
  {
    if n == 0 then Some([])
    else if |ts| == 0 then None
    else match parse(ts[0])
      case None => None
      case Some(x) =>
        match ParseWeights(ts[1..], n - 1, parse)
        case None => None
        case Some(rest) => Some([x] + rest)
  }

  /**
   * One neuron from two lines: next weights from the first, the trimmed
   * second line as its bias. A missing line, a negative weight count or an
   * unreadable number end the read.
   */
  function ParseNeuron(lines: seq<string>, next: int, parse: string -> Option<real>): (r: Option<(SavedNeuron, seq<string>)>)
    ensures r.Some? ==> |lines| >= 2 && r.value.1 == lines[2..] && |r.value.0.weights| == next
  {
    if |lines| == 0 || next < 0 then None
    else match ParseWeights(Tokens(lines[0]), next, parse)
      case None => None
      case Some(ws) =>
        if |lines| < 2 then None
        else match parse(Trim(lines[1]))
          case None => None
          case Some(b) => Some((SavedNeuron(ws, b), lines[2..]))
  }

  /** count neurons, one after the other; a count below 1 reads none. */
  function ParseNeurons(lines: seq<string>, count: int, next: int, parse: string -> Option<real>)
    : (r: Option<(seq<SavedNeuron>, seq<string>)>)
    ensures r.Some? ==> |r.value.0| == (if count < 0 then 0 else count)
    ensures r.Some? ==> forall j :: 0 <= j < |r.value.0| ==> |r.value.0[j].weights| == next
    decreases count
  {
    if count <= 0 then Some(([], lines))
    else match ParseNeuron(lines, next, parse)
      case None => None
      case Some(p) => Glue([p.0], ParseNeurons(p.1, count - 1, next, parse))
  }

  /** The header tokens read by nextInt, nextInt and next; too few tokens or a non-number end the read. */
  function ParseHeader(line: string): (r: Option<(int, int, string)>)
  {
    var ts := Tokens(line);
    if |ts| < 3 then None
    else match (ParseInt(ts[0]), ParseInt(ts[1]))
      case (Some(count), Some(next)) => Some((count, next, ts[2]))
      case _ => None
  }

  /**
   * One layer: its header gives the neuron count, nextNodesNum and the
   * activation tag; its neurons follow. The tag is converted once the
   * neurons are read.
   */
  function ParseLayer(lines: seq<string>, parse: string -> Option<real>): (r: Option<(SavedLayer, seq<string>)>)
  {
    if |lines| == 0 then None
    else match ParseHeader(lines[0])
      case None => None
      case Some(h) =>
        match ParseNeurons(lines[1..], h.0, h.1, parse)
        case None => None
        case Some(p) =>
          match Activation.FromTag(h.2)
          case None => None
          case Some(af) => Some((SavedLayer(af, h.1, p.0), p.1))
  }

  /** count layers, one after the other; a count below 1 reads none. */
  function ParseLayers(lines: seq<string>, count: int, parse: string -> Option<real>)
    : (r: Option<(seq<SavedLayer>, seq<string>)>)
    ensures r.Some? ==> |r.value.0| == if count < 0 then 0 else count
    decreases count
  {
    if count <= 0 then Some(([], lines))
    else match ParseLayer(lines, parse)
      case None => None
      case Some(p) => Glue([p.0], ParseLayers(p.1, count - 1, parse))
  }

  /**
   * readFromFile: the cost tag, the layer count (parseInt of the whole
   * line), the layers; the cost tag is converted after the layers are read,
   * and only then are fewer than two layers refused. Lines after the last
   * layer are never read.
   */
  function Parse(lines: seq<string>, parse: string -> Option<real>): (r: Outcome)
    ensures r.Loaded? ==> |r.layers| >= 2
  {
    if |lines| < 2 then Malformed
    else match ParseInt(lines[1])
      case None => Malformed
      case Some(count) =>
        match ParseLayers(lines[2..], count, parse)
        case None => Malformed
        case Some(p) =>
          match Cost.FromTag(lines[0])
          case None => Malformed
          case Some(co) => if |p.0| < 2 then TooFewLayers else Loaded(co, p.0)
  }

  // ----------------------------------------------------------- round trip

  /** What a layer must satisfy for its lines to read back: 32-bit counts and next weights per neuron. */
  predicate WritableLayer(l: SavedLayer)
  {
    0 <= l.next <= IntMax && |l.neurons| <= IntMax
    && forall j :: 0 <= j < |l.neurons| ==> |l.neurons[j].weights| == l.next
  }

  /** What a network must satisfy for its file to read back. */
  predicate Writable(ls: seq<SavedLayer>)
  {
    |ls| <= IntMax && forall k :: 0 <= k < |ls| ==> WritableLayer(ls[k])
  }

  lemma {:induction false} WeightsRoundTrip(ws: Vector, fmt: real -> string, parse: string -> Option<real>)
    requires WeightsReadBack(fmt, parse, ws)
    ensures ParseWeights(Tokens(WeightLine(ws, fmt)), |ws|, parse) == Some(ws)
    decreases |ws|
  {
    if |ws| > 0 {
      assert RoundsTrip(fmt, parse, ws[0]) by { assert ws[0] in ws; }
      assert WeightsReadBack(fmt, parse, ws[1..]) by {
        forall x | x in ws[1..] ensures RoundsTrip(fmt, parse, x) {
          assert x in ws;
        }
      }
      WeightLineTokens(ws, fmt);
      WeightsRoundTrip(ws[1..], fmt, parse);
      ParseWeightsCons(fmt(ws[0]), Tokens(WeightLine(ws[1..], fmt)), |ws| - 1, parse, ws[0], ws[1..]);
      assert [ws[0]] + ws[1..] == ws;
    }
  }

  /** A weight line splits into its first number's token and the tokens of the rest. */
  lemma WeightLineTokens(ws: Vector, fmt: real -> string)
    requires |ws| > 0 && Solid(fmt(ws[0]))
    ensures Tokens(WeightLine(ws, fmt)) == [fmt(ws[0])] + Tokens(WeightLine(ws[1..], fmt))
  {
    TokensCons(fmt(ws[0]), WeightLine(ws[1..], fmt));
  }

  /** nextDouble, once more: one number read off the front of the tokens. */
  lemma ParseWeightsCons(t: string, ts: seq<string>, n: nat, parse: string -> Option<real>, x: real, xs: Vector)
    requires parse(t) == Some(x) && ParseWeights(ts, n, parse) == Some(xs)
    ensures ParseWeights([t] + ts, n + 1, parse) == Some([x] + xs)
  {
    assert ([t] + ts)[0] == t && ([t] + ts)[1..] == ts;
  }

  lemma NeuronRoundTrip(n: SavedNeuron, rest: seq<string>, fmt: real -> string, parse: string -> Option<real>)
    requires NeuronReadsBack(fmt, parse, n)
    ensures ParseNeuron([WeightLine(n.weights, fmt), fmt(n.bias)] + rest, |n.weights|, parse) == Some((n, rest))
  {
    var lines := [WeightLine(n.weights, fmt), fmt(n.bias)] + rest;
    assert lines[0] == WeightLine(n.weights, fmt) && lines[1] == fmt(n.bias) && lines[2..] == rest;
    WeightsRoundTrip(n.weights, fmt, parse);
    TrimSolid(fmt(n.bias));
  }

  lemma {:induction false} NeuronsRoundTrip(ns: seq<SavedNeuron>, rest: seq<string>, next: nat,
                                            fmt: real -> string, parse: string -> Option<real>)
    requires forall n :: n in ns ==> NeuronReadsBack(fmt, parse, n)
    requires forall j :: 0 <= j < |ns| ==> |ns[j].weights| == next
    ensures ParseNeurons(NeuronLines(ns, fmt) + rest, |ns|, next, parse) == Some((ns, rest))
    decreases |ns|
  {
    if |ns| == 0 {
      assert NeuronLines(ns, fmt) + rest == rest;
    } else {
      var tail := NeuronLines(ns[1..], fmt) + rest;
      assert NeuronLines(ns, fmt) + rest == [WeightLine(ns[0].weights, fmt), fmt(ns[0].bias)] + tail;
      NeuronsSplit(ns, next, fmt, parse);
      NeuronRoundTrip(ns[0], tail, fmt, parse);
      NeuronsRoundTrip(ns[1..], rest, next, fmt, parse);
      GlueSome([ns[0]], ns[1..], rest);
      assert [ns[0]] + ns[1..] == ns;
    }
  }

  lemma NeuronsSplit(ns: seq<SavedNeuron>, next: nat, fmt: real -> string, parse: string -> Option<real>)
    requires |ns| > 0 && forall n :: n in ns ==> NeuronReadsBack(fmt, parse, n)
    requires forall j :: 0 <= j < |ns| ==> |ns[j].weights| == next
    ensures NeuronReadsBack(fmt, parse, ns[0]) && forall n :: n in ns[1..] ==> NeuronReadsBack(fmt, parse, n)
    ensures forall j :: 0 <= j < |ns[1..]| ==> |ns[1..][j].weights| == next
  {
    assert ns[0] in ns;
    forall n | n in ns[1..] ensures NeuronReadsBack(fmt, parse, n) {
      assert n in ns;
    }
  }

  lemma GlueSome<T>(done: seq<T>, items: seq<T>, rest: seq<string>)
    ensures Glue(done, Some((items, rest))) == Some((done + items, rest))
  {
  }

  /** The header of a layer is read as three tokens: its neuron count, nextNodesNum and tag. */
  lemma HeaderTokens(l: SavedLayer)
    ensures Tokens(Header(l)) == [IntToString(|l.neurons|), IntToString(l.next), Activation.Tag(l.af)]
  {
    var size, next, tag := IntToString(|l.neurons|), IntToString(l.next), Activation.Tag(l.af);
    var rest := next + " " + tag;
    assert Tokens(rest) == [next, tag] by {
      TagSolid(l.af);
      TokensCons(next, tag);
      TokensSingle(tag);
    }
    assert Header(l) == size + " " + rest;
    TokensCons(size, rest);
  }

  /** The header of a layer reads back as its neuron count, nextNodesNum and tag. */
  lemma HeaderRoundTrip(l: SavedLayer)
    requires WritableLayer(l)
    ensures ParseHeader(Header(l)) == Some((|l.neurons|, l.next, Activation.Tag(l.af)))
  {
    HeaderTokens(l);
    IntRoundTrip(|l.neurons|);
    IntRoundTrip(l.next);
  }

  lemma LayerRoundTrip(l: SavedLayer, rest: seq<string>, fmt: real -> string, parse: string -> Option<real>)
    requires LayerReadsBack(fmt, parse, l) && WritableLayer(l)
    ensures ParseLayer(LayerLines(l, fmt) + rest, parse) == Some((l, rest))
  {
    var lines := LayerLines(l, fmt) + rest;
    assert lines[0] == Header(l) && lines[1..] == NeuronLines(l.neurons, fmt) + rest;
    HeaderRoundTrip(l);
    NeuronsRoundTrip(l.neurons, rest, l.next, fmt, parse);
  }

  lemma {:induction false} LayersRoundTrip(ls: seq<SavedLayer>, rest: seq<string>,
                                           fmt: real -> string, parse: string -> Option<real>)
    requires ReadsBack(fmt, parse, ls) && Writable(ls)
    ensures ParseLayers(LayersLines(ls, fmt) + rest, |ls|, parse) == Some((ls, rest))
    decreases |ls|
  {
    if |ls| == 0 {
      assert LayersLines(ls, fmt) + rest == rest;
    } else {
      var tail := LayersLines(ls[1..], fmt) + rest;
      assert LayersLines(ls, fmt) + rest == LayerLines(ls[0], fmt) + tail;
      WritableSplit(ls);
      ReadsBackSplit(fmt, parse, ls);
      LayerRoundTrip(ls[0], tail, fmt, parse);
      LayersRoundTrip(ls[1..], rest, fmt, parse);
      GlueSome([ls[0]], ls[1..], rest);
      assert [ls[0]] + ls[1..] == ls;
    }
  }

  lemma ReadsBackSplit(fmt: real -> string, parse: string -> Option<real>, ls: seq<SavedLayer>)
    requires ReadsBack(fmt, parse, ls) && |ls| > 0
    ensures LayerReadsBack(fmt, parse, ls[0]) && ReadsBack(fmt, parse, ls[1..])
  {
    assert ls[0] in ls;
    forall l | l in ls[1..] ensures LayerReadsBack(fmt, parse, l) {
      assert l in ls;
    }
  }

  lemma WritableSplit(ls: seq<SavedLayer>)
    requires Writable(ls) && |ls| > 0
    ensures WritableLayer(ls[0]) && Writable(ls[1..])
  {
    forall k | 0 <= k < |ls| - 1 ensures WritableLayer(ls[1..][k]) {
      assert ls[1..][k] == ls[k + 1];
    }
  }

  lemma TagSolid(af: Activation.ActivationOption)
    ensures Solid(Activation.Tag(af))
  {
  }

  /**
   * readFromFile undoes saveToFile: the file of a network with 32-bit counts
   * and next weights per neuron, whose numbers each read back, reads back as
   * the same cost function and the same layers, or as null when it has
   * fewer than two layers.
   */
  lemma LoadSaved(co: Cost.CostOption, ls: seq<SavedLayer>, fmt: real -> string, parse: string -> Option<real>)
    requires ReadsBack(fmt, parse, ls) && Writable(ls)
    ensures Parse(SaveLayout(co, ls, fmt), parse) == if |ls| < 2 then TooFewLayers else Loaded(co, ls)
  {
    var lines := SaveLayout(co, ls, fmt);
    IntRoundTrip(|ls|);
    assert lines[2..] == LayersLines(ls, fmt) + [];
    LayersRoundTrip(ls, [], fmt, parse);
    assert lines[0] == Cost.Tag(co);
  }

  // ------------------------------------------------- a formatter that works

  /** A whole number within 32 bits. */
  predicate Whole(x: real)
  {
    x == x.Floor as real && IntMin <= x.Floor <= IntMax
  }

  /** A formatter for whole numbers: their decimal digits (anything else is written as 0). */
  function WholeFmt(x: real): string
  {
    if Whole(x) then IntToString(x.Floor) else "0"
  }

  /** The parser that goes with it: a 32-bit integer, as a real. */
  function WholeParse(t: string): Option<real>
  {
    match ParseInt(t)
    case None => None
    case Some(n) => Some(n as real)
  }

  /** Every whole number within 32 bits survives WholeFmt and WholeParse. */
  lemma WholeRoundsTrip(x: real)
    requires Whole(x)
    ensures RoundsTrip(WholeFmt, WholeParse, x)
  {
    IntRoundTrip(x.Floor);
  }

  /** A network whose weights and biases are all whole numbers reads back through WholeFmt and WholeParse. */
  lemma WholeReadsBack(ls: seq<SavedLayer>)
    requires forall l, n :: l in ls && n in l.neurons ==> Whole(n.bias) && forall x :: x in n.weights ==> Whole(x)
    ensures ReadsBack(WholeFmt, WholeParse, ls)
  {
    forall l, n, x | l in ls && n in l.neurons && x in n.weights
      ensures RoundsTrip(WholeFmt, WholeParse, x)
    {
      WholeRoundsTrip(x);
    }
    forall l, n | l in ls && n in l.neurons
      ensures RoundsTrip(WholeFmt, WholeParse, n.bias)
    {
      WholeRoundsTrip(n.bias);
    }
  }

  /**
   * A network of two inputs and one output, saved with WholeFmt and read
   * back with WholeParse, comes back as it was.
   */
  lemma SmallNetworkLoads()
    ensures var ls := [SavedLayer(Activation.Sigmoid, 1, [SavedNeuron([2.0], 1.0), SavedNeuron([-3.0], 0.0)]),
                       SavedLayer(Activation.LeakyReLU, 0, [SavedNeuron([], 5.0)])];
            Parse(SaveLayout(Cost.Quadratic, ls, WholeFmt), WholeParse) == Loaded(Cost.Quadratic, ls)
  {
    var ls := [SavedLayer(Activation.Sigmoid, 1, [SavedNeuron([2.0], 1.0), SavedNeuron([-3.0], 0.0)]),
               SavedLayer(Activation.LeakyReLU, 0, [SavedNeuron([], 5.0)])];
    WholeReadsBack(ls);
    LoadSaved(Cost.Quadratic, ls, WholeFmt, WholeParse);
  }
}
