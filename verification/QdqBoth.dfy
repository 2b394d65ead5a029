/**
 Both surgeries in turn: the graphs exit surgery still accepts once entry
 surgery is done.
 */
module QdqBoth {
  import opened Common
  import opened QdqCodes
  import opened QdqGraph
  import opened QdqEntry
  import opened QdqSurgery
  import Exit = QdqExit

  // An entry quantizer has no more than data, scale and zero point.
  predicate EdgesAreTernary(g: Graph)
    requires |g.inputs| == 1
  {
    forall n :: n in g.nodes && IsEdge(Stem(g), n) ==> |n.inputs| <= 3
  }

  // The node reads, after entry surgery, `src`.
  predicate ReadsAs(g: Graph, n: Node, src: string)
    requires |g.inputs| == 1
  {
    exists x :: x in n.inputs && Redirect(Stem(g), g.nodes, x) == src
  }

  // Exit codes made by a deleted quantizer are, by then, its source. So output
  // `i`, if its codes are an entry quantizer's, must be made of a source that some
  // node makes, and that nothing else that stays reads, by its own name or by
  // that of another deleted quantizer's output.
  predicate Relayed(g: Graph, i: nat)
    requires |g.inputs| == 1 && i < |g.outputs|
  {
    var d := Exit.DequantizerOf(g, i);
    var src := Redirect(Stem(g), g.nodes, Exit.CodesOf(d));
    Exit.CodesOf(d) in Dead(Stem(g), g.nodes) ==>
      && src != g.inputs[0].name
      && forall n :: n in g.nodes && !IsEdge(Stem(g), n) && n != d ==> !ReadsAs(g, n, src)
  }

  // -------------------------------------------------------------------------
  // The nodes that stay
  // -------------------------------------------------------------------------

  lemma {:induction false} KeptStays(s: set<string>, all: seq<Node>, nodes: seq<Node>, n: Node)
    requires n in nodes && !IsEdge(s, n)
    ensures Rewired(s, all, n) in EntryNodes(s, all, nodes)
  {
    var front, last := nodes[..|nodes| - 1], nodes[|nodes| - 1];
    if n != last { KeptStays(s, all, front, n); }
  }

  lemma {:induction false} StayedWasKept(s: set<string>, all: seq<Node>, nodes: seq<Node>, m: Node) returns (n: Node)
    requires m in EntryNodes(s, all, nodes)
    ensures n in nodes && !IsEdge(s, n) && m == Rewired(s, all, n)
  {
    var front, last := nodes[..|nodes| - 1], nodes[|nodes| - 1];
    if m in EntryNodes(s, all, front) { n := StayedWasKept(s, all, front, m); } else { n := last; }
  }

  lemma RewiredReads(g: Graph, n: Node, t: string)
    requires |g.inputs| == 1
    ensures t in Rewired(Stem(g), g.nodes, n).inputs <==> ReadsAs(g, n, t)
  {
    var n2 := Rewired(Stem(g), g.nodes, n);
    if t in n2.inputs {
      var i :| 0 <= i < |n2.inputs| && n2.inputs[i] == t;
      assert n.inputs[i] in n.inputs;
    }
    if x :| x in n.inputs && Redirect(Stem(g), g.nodes, x) == t {
      var i :| 0 <= i < |n.inputs| && n.inputs[i] == x;
      assert n2.inputs[i] == t;
    }
  }

  // A name off the stem is read under its own name or not at all.
  lemma ReadsAsBefore(g: Graph, n: Node, t: string)
    requires WellFormed(g) && |g.inputs| == 1 && t !in Stem(g) && t !in Dead(Stem(g), g.nodes)
    ensures ReadsAs(g, n, t) <==> t in n.inputs
  {
    RedirectOthers(Stem(g), g.nodes, t);
    forall x | Redirect(Stem(g), g.nodes, x) == t ensures x == t { RedirectCases(g, x); }
  }

  lemma RedirectCases(g: Graph, x: string)
    requires |g.inputs| == 1
    ensures x !in Dead(Stem(g), g.nodes) ==> Redirect(Stem(g), g.nodes, x) == x
    ensures x in Dead(Stem(g), g.nodes) ==> Redirect(Stem(g), g.nodes, x) in Stem(g)
  {
    if x in Dead(Stem(g), g.nodes) {
      var j := RedirectDead(Stem(g), g.nodes, x);
    } else {
      RedirectOthers(Stem(g), g.nodes, x);
    }
  }

  // Each node that stays makes what it made.
  lemma ProducerAfter(g: Graph, q: Qparams, t: string)
    requires WellFormed(g) && Convertible(g, q)
    ensures var p := Exit.ProducerOf(g.nodes, t);
            Exit.ProducerOf(Converted(g).nodes, t)
            == if p.None? || IsEdge(Stem(g), p.value) then None else Some(Rewired(Stem(g), g.nodes, p.value))
  {
    var p, c := Exit.ProducerOf(g.nodes, t), Converted(g);
    if Exit.ProducerOf(c.nodes, t).Some? {
      ProducerWasKept(g, t);
    } else if p.Some? && !IsEdge(Stem(g), p.value) {
      var i := Exit.ProducerFound(g.nodes, t);
      KeptStays(Stem(g), g.nodes, g.nodes, p.value);
      Exit.ProducerExists(c.nodes, t);
    }
  }

  lemma ProducerWasKept(g: Graph, t: string)
    requires WellFormed(g) && |g.inputs| == 1 && Exit.ProducerOf(Converted(g).nodes, t).Some?
    ensures var p := Exit.ProducerOf(g.nodes, t);
            && p.Some? && !IsEdge(Stem(g), p.value)
            && Exit.ProducerOf(Converted(g).nodes, t) == Some(Rewired(Stem(g), g.nodes, p.value))
  {
    var c := Converted(g);
    var m := Exit.ProducerFound(c.nodes, t);
    var n := StayedWasKept(Stem(g), g.nodes, g.nodes, c.nodes[m]);
    var i :| 0 <= i < |g.nodes| && g.nodes[i] == n;
    Exit.ProducerUnique(Base(g), g.nodes, i, t);
  }

  // -------------------------------------------------------------------------
  // What the deleted quantizers read
  // -------------------------------------------------------------------------

  lemma EdgeReads(g: Graph, q: Qparams, n: Node, t: string)
    requires Convertible(g, q) && EdgesAreTernary(g) && n in g.nodes && IsEdge(Stem(g), n) && t in n.inputs
    ensures t in Stem(g) || t in g.inits
  {
    assert ScalarQparams(g.inits, n) == Ok(q);
  }

  // What a node makes and the stem does not hold, no deleted quantizer reads.
  lemma EdgesReadNoProduct(g: Graph, q: Qparams, n: Node, t: string)
    requires WellFormed(g) && Convertible(g, q) && EdgesAreTernary(g)
    requires t !in Stem(g) && Exit.ProducerOf(g.nodes, t).Some?
    requires n in g.nodes && t in n.inputs
    ensures !IsEdge(Stem(g), n)
  {
    if IsEdge(Stem(g), n) {
      EdgeReads(g, q, n, t);
      var j := Exit.ProducerFound(g.nodes, t);
      BaseNotProduced(Base(g), g.nodes, j, t);
    }
  }

  lemma {:induction false} StemIsMade(input: string, nodes: seq<Node>, t: string) returns (j: nat)
    requires t in StemOf(input, nodes) && t != input
    ensures j < |nodes| && t in nodes[j].outputs
  {
    var front, last := nodes[..|nodes| - 1], nodes[|nodes| - 1];
    if t in StemOf(input, front) { j := StemIsMade(input, front, t); } else { j := |front|; }
  }

  // After entry surgery every stem tensor but the input is still made.
  lemma SourceProducer(g: Graph, q: Qparams, t: string)
    requires WellFormed(g) && Convertible(g, q) && t in Stem(g)
    ensures Exit.ProducerOf(Converted(g).nodes, t).Some? <==> t != g.inputs[0].name
  {
    ProducerAfter(g, q, t);
    if t == g.inputs[0].name {
      if Exit.ProducerOf(g.nodes, t).Some? {
        var j := Exit.ProducerFound(g.nodes, t);
        BaseNotProduced(Base(g), g.nodes, j, t);
      }
    } else {
      var j := StemIsMade(g.inputs[0].name, g.nodes, t);
      StemOnly(g, j, t);
      Exit.ProducerUnique(Base(g), g.nodes, j, t);
    }
  }

  // -------------------------------------------------------------------------
  // One output
  // -------------------------------------------------------------------------

  lemma OutputUnreadIff(g: Graph, q: Qparams, t: string)
    requires WellFormed(g) && Convertible(g, q) && EdgesAreTernary(g) && t in Names(g.outputs)
    requires Exit.ProducerOf(g.nodes, t).Some?
    ensures Exit.Unread(Converted(g), t) <==> Exit.Unread(g, t)
  {
    var s, c := Stem(g), Converted(g);
    OutputIsApart(g, t);
    forall n | n in g.nodes && t in n.inputs ensures Rewired(s, g.nodes, n) in c.nodes && t in Rewired(s, g.nodes, n).inputs {
      EdgesReadNoProduct(g, q, n, t);
      KeptStays(s, g.nodes, g.nodes, n);
      ReadsAsBefore(g, n, t);
      RewiredReads(g, n, t);
    }
    forall m | m in c.nodes && t in m.inputs ensures !Exit.Unread(g, t) {
      var n := StayedWasKept(s, g.nodes, g.nodes, m);
      RewiredReads(g, n, t);
      ReadsAsBefore(g, n, t);
    }
  }

  lemma InputNotInit(g: Graph)
    requires WellFormed(g) && |g.inputs| == 1
    ensures g.inputs[0].name !in g.inits
  {
    assert g.inputs[0].name in Names(g.inputs);
  }

  // A dequantizer's parameters are where they were.
  lemma ParamsAreKept(g: Graph, n: Node)
    requires WellFormed(g) && |g.inputs| == 1
    ensures ScalarQparams(g.inits, Rewired(Stem(g), g.nodes, n)) == ScalarQparams(g.inits, n)
  {
    forall x: string ensures var r := Redirect(Stem(g), g.nodes, x);
                     (x in g.inits ==> r == x) && (r in g.inits ==> r == x) && (r == "" <==> x == "")
    {
      EmptyNotRedirected(g);
      StemHasName(g);
      RedirectCases(g, x);
      if x in g.inits { BaseNotDead(g, x); }
      var r := Redirect(Stem(g), g.nodes, x);
      if r in Stem(g) && r in Base(g) { StemNotInit(g, r); }
      InputNotInit(g);
    }
  }

  // The producer of an output stays, and reads its codes under `src`.
  lemma OutputMakerStays(g: Graph, q: Qparams, t: string)
    requires WellFormed(g) && Convertible(g, q) && t in Names(g.outputs)
    ensures var p := Exit.ProducerOf(g.nodes, t);
            && (p.Some? ==> !IsEdge(Stem(g), p.value))
            && Exit.ProducerOf(Converted(g).nodes, t)
               == if p.None? then None else Some(Rewired(Stem(g), g.nodes, p.value))
  {
    ProducerAfter(g, q, t);
    if Exit.ProducerOf(g.nodes, t).Some? {
      var j := Exit.ProducerFound(g.nodes, t);
      if IsEdge(Stem(g), g.nodes[j]) { EdgeSparesOutputs(g, j); }
    }
  }

  // The one reader of the codes, in the two graphs.
  lemma OnlyReaderIff(g: Graph, q: Qparams, t: string, d: Node, src: string)
    requires WellFormed(g) && Convertible(g, q) && Exit.ProducerOf(g.nodes, t) == Some(d)
    ensures Exit.OnlyReadBy(Converted(g), src, Rewired(Stem(g), g.nodes, d))
       <==> forall n :: n in g.nodes && !IsEdge(Stem(g), n) && n != d ==> !ReadsAs(g, n, src)
  {
    var s, c, d2 := Stem(g), Converted(g), Rewired(Stem(g), g.nodes, d);
    var j := Exit.ProducerFound(g.nodes, t);
    if Exit.OnlyReadBy(c, src, d2) {
      forall n | n in g.nodes && !IsEdge(s, n) && n != d ensures !ReadsAs(g, n, src) {
        KeptStays(s, g.nodes, g.nodes, n);
        RewiredReads(g, n, src);
        if Rewired(s, g.nodes, n) == d2 { SameMaker(g, n, d, t); }
      }
    }
    if forall n :: n in g.nodes && !IsEdge(s, n) && n != d ==> !ReadsAs(g, n, src) {
      forall m | m in c.nodes && src in m.inputs ensures m == d2 {
        var n := StayedWasKept(s, g.nodes, g.nodes, m);
        RewiredReads(g, n, src);
      }
    }
  }

  lemma SameMaker(g: Graph, n: Node, d: Node, t: string)
    requires WellFormed(g) && n in g.nodes && n.outputs == d.outputs && t in d.outputs
    requires Exit.ProducerOf(g.nodes, t) == Some(d)
    ensures n == d
  {
    var i :| 0 <= i < |g.nodes| && g.nodes[i] == n;
    Exit.ProducerUnique(Base(g), g.nodes, i, t);
  }

  // Codes that some node that stays makes are read by whom they were.
  lemma CodesKeptIff(g: Graph, q: Qparams, t: string, d: Node)
    requires WellFormed(g) && Convertible(g, q) && EdgesAreTernary(g) && Exit.ProducerOf(g.nodes, t) == Some(d)
    requires Exit.CodesOf(d) !in Stem(g) && Exit.CodesOf(d) !in Dead(Stem(g), g.nodes)
    ensures var c, code, d2 := Converted(g), Exit.CodesOf(d), Rewired(Stem(g), g.nodes, d);
            Exit.OnlyReadBy(c, code, d2) && Exit.ProducerOf(c.nodes, code).Some?
            <==> Exit.OnlyReadBy(g, code, d) && Exit.ProducerOf(g.nodes, code).Some?
  {
    var code := Exit.CodesOf(d);
    OnlyReaderIff(g, q, t, d, code);
    ProducerAfter(g, q, code);
    if Exit.ProducerOf(g.nodes, code).Some? {
      var j := Exit.ProducerFound(g.nodes, code);
      assert !IsEdge(Stem(g), g.nodes[j]) by { NodeDeadOrNot(g, j); }
      forall n | n in g.nodes ensures ReadsAs(g, n, code) <==> code in n.inputs
      {
        ReadsAsBefore(g, n, code);
      }
      forall n | n in g.nodes && code in n.inputs ensures !IsEdge(Stem(g), n) { EdgesReadNoProduct(g, q, n, code); }
    }
  }

  // Codes that a deleted quantizer made are, after, its source.
  lemma CodesDeadIff(g: Graph, q: Qparams, t: string, d: Node)
    requires WellFormed(g) && Convertible(g, q) && EdgesAreTernary(g) && Exit.ProducerOf(g.nodes, t) == Some(d)
    requires Exit.CodesOf(d) in Dead(Stem(g), g.nodes)
    ensures var c, code, d2 := Converted(g), Exit.CodesOf(d), Rewired(Stem(g), g.nodes, d);
            var src := Redirect(Stem(g), g.nodes, code);
            && Exit.ProducerOf(g.nodes, code).Some?
            && (Exit.ProducerOf(c.nodes, src).Some? <==> src != g.inputs[0].name)
            && (Exit.OnlyReadBy(c, src, d2) ==> Exit.OnlyReadBy(g, code, d))
  {
    var s, c, code, d2 := Stem(g), Converted(g), Exit.CodesOf(d), Rewired(Stem(g), g.nodes, d);
    var src := Redirect(s, g.nodes, code);
    var j := RedirectDead(s, g.nodes, code);
    Exit.ProducerUnique(Base(g), g.nodes, j, code);
    RedirectCases(g, code);
    SourceProducer(g, q, src);
    OnlyReaderIff(g, q, t, d, src);
    if Exit.OnlyReadBy(c, src, d2) {
      forall n | n in g.nodes && code in n.inputs ensures n == d {
        if code in s { StemNotDead(g, code); }
        EdgesReadNoProduct(g, q, n, code);
        assert ReadsAs(g, n, src);
      }
    }
  }

  // No dequantizer reads the stem.
  lemma CodesOffStem(g: Graph, q: Qparams, d: Node)
    requires Convertible(g, q) && d in g.nodes && d.op == DEQUANTIZE && d.inputs != []
    ensures Exit.CodesOf(d) !in Stem(g)
  {
    var code := Exit.CodesOf(d);
    assert code in d.inputs && !ReaderOk(g, code, d);
    assert code in Stem(g) ==> StemTensorOk(g, code);
  }

  lemma OutputOkIff(g: Graph, q: Qparams, i: nat)
    requires WellFormed(g) && Convertible(g, q) && EdgesAreTernary(g) && i < |g.outputs|
    ensures Exit.OutputOk(Converted(g), g.outputs[i].name)
       <==> Exit.OutputOk(g, g.outputs[i].name) && Relayed(g, i)
  {
    var t, c := g.outputs[i].name, Converted(g);
    OutputMakerStays(g, q, t);
    var p := Exit.ProducerOf(g.nodes, t);
    if p.Some? && p.value.op == DEQUANTIZE && p.value.inputs != [] {
      var d := p.value;
      var d2 := Rewired(Stem(g), g.nodes, d);
      var j := Exit.ProducerFound(g.nodes, t);
      ParamsAreKept(g, d);
      CodesOffStem(g, q, d);
      assert Exit.CodesOf(d2) == Redirect(Stem(g), g.nodes, Exit.CodesOf(d));
      if Exit.CodesOf(d) in Dead(Stem(g), g.nodes) {
        CodesDeadIff(g, q, t, d);
        OnlyReaderIff(g, q, t, d, Exit.CodesOf(d2));
      } else {
        RedirectOthers(Stem(g), g.nodes, Exit.CodesOf(d));
        CodesKeptIff(g, q, t, d);
      }
    }
  }

  // Exit surgery accepts what entry surgery made of a graph exactly when it
  // accepts the graph and every output is relayed.
  lemma BothAcceptIff(g: Graph, q: Qparams)
    requires WellFormed(g) && Convertible(g, q) && EdgesAreTernary(g)
    ensures Exit.Exportable(Converted(g))
       <==> Exit.Exportable(g) && forall i :: 0 <= i < |g.outputs| ==> Relayed(g, i)
  {
    forall i: nat | i < |g.outputs|
      ensures Exit.OutputOk(Converted(g), g.outputs[i].name) <==> Exit.OutputOk(g, g.outputs[i].name) && Relayed(g, i)
      ensures Exit.OutputOk(g, g.outputs[i].name) ==>
                (Exit.Unread(Converted(g), g.outputs[i].name) <==> Exit.Unread(g, g.outputs[i].name))
    {
      OutputOkIff(g, q, i);
      if Exit.OutputOk(g, g.outputs[i].name) { OutputUnreadIff(g, q, g.outputs[i].name); }
    }
  }

  // -------------------------------------------------------------------------
  // The tool's three modes
  // -------------------------------------------------------------------------

  ghost predicate Succeeds(g: Graph, opset: Option<int>, mode: Mode) {
    exists side: Sidecar, c: Graph :: Accepted(g, opset, mode, side, c)
  }

  lemma {:induction false} ParamsExist(g: Graph, i: nat) returns (params: map<string, Qparams>)
    requires WellFormed(g) && i <= |g.outputs|
    ensures ParamsGiven(g, i, params)
  {
    params := map[];
    if i > 0 {
      var m: nat := i - 1;
      params := ParamsExist(g, m);
      GiveParams(g, m, params, Exit.ParamsOf(g, m));
      params := params[g.outputs[m].name := Exit.ParamsOf(g, m)];
    }
  }

  ghost predicate ToolRuns(g: Graph, opset: Option<int>) {
    OpsetOk(opset) && forall n :: n in g.nodes ==> n.op != "DynamicQuantizeLinear"
  }

  // What success of each mode comes to.
  lemma EachSucceedsIff(g: Graph, opset: Option<int>)
    requires WellFormed(g)
    ensures Succeeds(g, opset, InputOnly) <==> ToolRuns(g, opset) && exists q :: Convertible(g, q)
    ensures Succeeds(g, opset, OutputOnly) <==> ToolRuns(g, opset) && Exit.Exportable(g)
    ensures Succeeds(g, opset, Both)
       <==> ToolRuns(g, opset) && exists q :: Convertible(g, q) && Exit.Exportable(Converted(g))
  {
    InputOnlyIff(g, opset);
    OutputOnlyIff(g, opset);
    BothIff(g, opset);
  }

  lemma Witnessed(g: Graph, opset: Option<int>, mode: Mode, input: Option<Qparams>, params: map<string, Qparams>, c: Graph)
    requires ToolRuns(g, opset) && EntryAccepted(g, mode, input) && ExitAccepted(Middle(g, mode), mode, params, c)
    ensures Succeeds(g, opset, mode)
  {
    assert Accepted(g, opset, mode, Sidecar(input, params), c);
  }

  lemma InputOnlyIff(g: Graph, opset: Option<int>)
    ensures Succeeds(g, opset, InputOnly) <==> ToolRuns(g, opset) && exists q :: Convertible(g, q)
  {
    if ToolRuns(g, opset) && exists q :: Convertible(g, q) {
      var q :| Convertible(g, q);
      Witnessed(g, opset, InputOnly, Some(q), map[], Converted(g));
    }
    if Succeeds(g, opset, InputOnly) {
      var side: Sidecar, c: Graph :| Accepted(g, opset, InputOnly, side, c);
      assert Convertible(g, side.input.value);
    }
  }

  lemma OutputOnlyIff(g: Graph, opset: Option<int>)
    requires WellFormed(g)
    ensures Succeeds(g, opset, OutputOnly) <==> ToolRuns(g, opset) && Exit.Exportable(g)
  {
    if ToolRuns(g, opset) && Exit.Exportable(g) {
      var params := ExitSucceeds(g, OutputOnly);
      Witnessed(g, opset, OutputOnly, None, params, Exit.Exported(g));
    }
  }

  lemma ExitSucceeds(mid: Graph, mode: Mode) returns (params: map<string, Qparams>)
    requires WellFormed(mid) && Exit.Exportable(mid) && mode != InputOnly
    ensures ExitAccepted(mid, mode, params, Exit.Exported(mid))
  {
    params := ParamsExist(mid, |mid.outputs|);
  }

  lemma BothSuffices(g: Graph, opset: Option<int>, q: Qparams)
    requires WellFormed(g) && ToolRuns(g, opset) && Convertible(g, q) && Exit.Exportable(Converted(g))
    ensures Succeeds(g, opset, Both)
  {
    EntryKeepsWellFormed(g, q);
    var params := ExitSucceeds(Converted(g), Both);
    Witnessed(g, opset, Both, Some(q), params, Exit.Exported(Converted(g)));
  }

  lemma BothNeeds(g: Graph, opset: Option<int>) returns (q: Qparams)
    requires Succeeds(g, opset, Both)
    ensures ToolRuns(g, opset) && Convertible(g, q) && Exit.Exportable(Converted(g))
  {
    var side: Sidecar, c: Graph :| Accepted(g, opset, Both, side, c);
    q := side.input.value;
  }

  lemma BothIff(g: Graph, opset: Option<int>)
    requires WellFormed(g)
    ensures Succeeds(g, opset, Both)
       <==> ToolRuns(g, opset) && exists q :: Convertible(g, q) && Exit.Exportable(Converted(g))
  {
    if ToolRuns(g, opset) && exists q :: Convertible(g, q) && Exit.Exportable(Converted(g)) {
      var q :| Convertible(g, q) && Exit.Exportable(Converted(g));
      BothSuffices(g, opset, q);
    }
    if Succeeds(g, opset, Both) { var q := BothNeeds(g, opset); }
  }

  // The tool converts both ends of a graph exactly when it converts each end
  // alone and every output is relayed.
  lemma BothSucceedIff(g: Graph, opset: Option<int>)
    requires WellFormed(g) && (|g.inputs| == 1 ==> EdgesAreTernary(g))
    ensures Succeeds(g, opset, Both)
       <==> && Succeeds(g, opset, InputOnly) && Succeeds(g, opset, OutputOnly)
            && |g.inputs| == 1 && forall i :: 0 <= i < |g.outputs| ==> Relayed(g, i)
  {
    EachSucceedsIff(g, opset);
    forall q | Convertible(g, q)
      ensures Exit.Exportable(Converted(g))
         <==> Exit.Exportable(g) && forall i :: 0 <= i < |g.outputs| ==> Relayed(g, i)
    {
      BothAcceptIff(g, q);
    }
  }

  // -------------------------------------------------------------------------
  // The two ways to be refused
  // -------------------------------------------------------------------------

  // A graph that quantizes its input and dequantizes it again.
  const RELAY: Graph := Graph(
    [ValueInfo("x", Float)], [ValueInfo("y", Float)],
    [Node(QUANTIZE, "", ["x", "s", "z"], ["c"]), Node(DEQUANTIZE, "", ["c", "s", "z"], ["y"])],
    map["s" := Tensor(Float, [], [1.0]), "z" := Tensor(UInt8, [], [0.0])],
    [])

  lemma RelayStem()
    ensures Stem(RELAY) == {"x"}
  {
    var nodes := RELAY.nodes;
    assert nodes[..1] == [nodes[0]];
    assert StemOf("x", nodes[..1]) == {"x"};
  }

  lemma RelayConverts()
    ensures Convertible(RELAY, Qparams(1.0, 0))
  {
    RelayStem();
    var n := RELAY.nodes[0];
    assert n in RELAY.nodes && IsEdge(Stem(RELAY), n);
    assert forall t :: t in Names(RELAY.outputs) ==> t == "y";
    assert forall m :: m in RELAY.nodes ==> m == n || m == RELAY.nodes[1];
    assert n.inputs[1..] == ["s", "z"];
    assert ReaderOk(RELAY, "x", n);
    assert "x" in n.inputs;
  }

  lemma RelayExports()
    ensures Exit.Exportable(RELAY)
  {
    var q, d := RELAY.nodes[0], RELAY.nodes[1];
    assert RELAY.nodes[..1] == [q];
    assert Exit.ProducerOf(RELAY.nodes, "y") == Some(d);
    assert Exit.ProducerOf(RELAY.nodes, "c") == Exit.ProducerOf([q], "c") == Some(q);
    assert Exit.OutputOk(RELAY, "y");
  }

  lemma RelayRedirects()
    ensures Redirect({"x"}, RELAY.nodes, "c") == "x"
  {
    assert RELAY.nodes[..1] == [RELAY.nodes[0]];
    assert Redirect({"x"}, RELAY.nodes[..1], "c") == "x";
  }

  lemma RelayConverted()
    ensures |Converted(RELAY).nodes| == 1
    ensures Converted(RELAY).nodes[0].inputs[..1] == ["x"] && Converted(RELAY).nodes[0].outputs == ["y"]
  {
    RelayStem();
    RelayRedirects();
    PrefixOneMore({"x"}, RELAY.nodes, 0);
    PrefixOneMore({"x"}, RELAY.nodes, 1);
    assert RELAY.nodes[..0] == [] && RELAY.nodes[..2] == RELAY.nodes;
  }

  // Each surgery alone accepts this graph, and both together refuse it: once
  // the quantizer is gone, the exit codes are the input itself, and nothing
  // produces them.
  lemma BothCanRefuse()
    ensures (exists q :: Convertible(RELAY, q)) && Exit.Exportable(RELAY)
    ensures !Exit.Exportable(Converted(RELAY))
  {
    RelayConverts();
    RelayExports();
    RelayConverted();
    var c := Converted(RELAY);
    assert c.nodes[..0] == [] && c.nodes[0].inputs[0] == "x";
    assert Exit.ProducerOf(c.nodes, "x").None?;
    assert !Exit.OutputOk(c, "y");
    assert c.outputs[0].name == "y";
  }

  // The input moved, quantized twice, and each dequantized to its own output.
  const MOVE := Node("Identity", "", ["x"], ["r"])
  const QUANTIZE1 := Node(QUANTIZE, "", ["r", "s", "z"], ["c"])
  const DEQUANTIZE1 := Node(DEQUANTIZE, "", ["c", "s", "z"], ["y"])
  const QUANTIZE2 := Node(QUANTIZE, "", ["r", "s", "z"], ["e"])
  const DEQUANTIZE2 := Node(DEQUANTIZE, "", ["e", "s", "z"], ["w"])

  const TWINS: Graph := Graph(
    [ValueInfo("x", Float)], [ValueInfo("y", Float), ValueInfo("w", Float)],
    [MOVE, QUANTIZE1, DEQUANTIZE1, QUANTIZE2, DEQUANTIZE2],
    map["s" := Tensor(Float, [], [1.0]), "z" := Tensor(UInt8, [], [0.0])],
    [])

  lemma TwinsBase()
    ensures Base(TWINS) == {"s", "z", "x"} && Names(TWINS.outputs) == {"y", "w"} && Names(TWINS.inputs) == {"x"}
  {
    assert TWINS.inputs[0].name == "x" && TWINS.outputs[0].name == "y" && TWINS.outputs[1].name == "w";
  }

  // A node with one new output, reading what is there.
  lemma OneMoreFits(base: set<string>, before: seq<Node>, av: set<string>, n: Node, out: string)
    requires Ordered(base, before) && Defined(base, before) == av
    requires n.outputs == [out] && out != "" && out !in av && forall t :: t in n.inputs ==> t in av
    requires IsEdgeOp(n.op) ==> |n.inputs| >= 2 && n.inputs[0] != ""
    ensures Ordered(base, before + [n]) && Defined(base, before + [n]) == av + {out}
  {
    assert Elements(n.outputs) == {out};
    OrderedOneMore(base, before, n);
    DefinedOneMore(base, before, n);
  }

  lemma FirstOrdered()
    ensures var base, nodes := {"s", "z", "x"}, [MOVE, QUANTIZE1, DEQUANTIZE1];
            Ordered(base, nodes) && Defined(base, nodes) == {"s", "z", "x", "r", "c", "y"}
  {
    var base := {"s", "z", "x"};
    OneMoreFits(base, [], base, MOVE, "r");
    OneMoreFits(base, [] + [MOVE], base + {"r"}, QUANTIZE1, "c");
    OneMoreFits(base, [] + [MOVE] + [QUANTIZE1], base + {"r"} + {"c"}, DEQUANTIZE1, "y");
    assert [MOVE, QUANTIZE1, DEQUANTIZE1] == [] + [MOVE] + [QUANTIZE1] + [DEQUANTIZE1];
  }

  lemma TwinsOrdered()
    ensures Ordered(Base(TWINS), TWINS.nodes)
    ensures Defined(Base(TWINS), TWINS.nodes) == {"s", "z", "x", "r", "c", "y", "e", "w"}
  {
    var base, first := {"s", "z", "x"}, [MOVE, QUANTIZE1, DEQUANTIZE1];
    TwinsBase();
    FirstOrdered();
    OneMoreFits(base, first, {"s", "z", "x", "r", "c", "y"}, QUANTIZE2, "e");
    OneMoreFits(base, first + [QUANTIZE2], {"s", "z", "x", "r", "c", "y"} + {"e"}, DEQUANTIZE2, "w");
    assert TWINS.nodes == first + [QUANTIZE2] + [DEQUANTIZE2];
  }

  lemma TwinsWellFormed()
    ensures WellFormed(TWINS)
  {
    TwinsBase();
    TwinsOrdered();
  }

  lemma TwinsStem()
    ensures Stem(TWINS) == {"x", "r"}
  {
    var nodes := TWINS.nodes;
    assert nodes[..0] == [] && nodes[..5] == nodes;
    StemOneMore("x", nodes, 0);
    StemOneMore("x", nodes, 1);
    StemOneMore("x", nodes, 2);
    StemOneMore("x", nodes, 3);
    StemOneMore("x", nodes, 4);
  }

  lemma QuantizesAsData(n: Node)
    requires n.op == QUANTIZE && n.inputs == ["r", "s", "z"] && (n.outputs == ["c"] || n.outputs == ["e"])
    ensures ReaderOk(TWINS, "r", n) && ScalarQparams(TWINS.inits, n) == Ok(Qparams(1.0, 0))
  {
    TwinsBase();
    assert n.inputs[1..] == ["s", "z"];
  }

  lemma TwinsReaders(n: Node)
    requires n in TWINS.nodes
    ensures "x" in n.inputs <==> n == MOVE
    ensures "r" in n.inputs <==> n == QUANTIZE1 || n == QUANTIZE2
  {
    assert MOVE.inputs[0] == "x" && QUANTIZE1.inputs[0] == "r" && QUANTIZE2.inputs[0] == "r";
  }

  lemma TwinsStemOk()
    ensures StemTensorOk(TWINS, "x") && StemTensorOk(TWINS, "r")
  {
    TwinsBase();
    forall n | n in TWINS.nodes
      ensures "x" in n.inputs <==> n == MOVE
      ensures "r" in n.inputs <==> n == QUANTIZE1 || n == QUANTIZE2
    {
      TwinsReaders(n);
    }
    assert MOVE in TWINS.nodes && QUANTIZE1 in TWINS.nodes;
    assert ReaderOk(TWINS, "x", MOVE);
    QuantizesAsData(QUANTIZE1);
    QuantizesAsData(QUANTIZE2);
  }

  lemma TwinsConvert()
    ensures Convertible(TWINS, Qparams(1.0, 0)) && EdgesAreTernary(TWINS)
  {
    TwinsStem();
    TwinsStemOk();
    assert QUANTIZE1 in TWINS.nodes && IsEdge(Stem(TWINS), QUANTIZE1);
    forall n | n in TWINS.nodes && IsEdge(Stem(TWINS), n)
      ensures |n.inputs| <= 3 && ScalarQparams(TWINS.inits, n) == Ok(Qparams(1.0, 0))
    {
      TwinsQuantizers(n);
    }
  }

  lemma TwinsQuantizers(n: Node)
    requires n in TWINS.nodes && n.op == QUANTIZE
    ensures |n.inputs| == 3 && ScalarQparams(TWINS.inits, n) == Ok(Qparams(1.0, 0))
  {
    assert n == QUANTIZE1 || n == QUANTIZE2;
    QuantizesAsData(n);
  }

  lemma TwinsProducers()
    ensures Exit.ProducerOf(TWINS.nodes, "c") == Some(QUANTIZE1) && Exit.ProducerOf(TWINS.nodes, "y") == Some(DEQUANTIZE1)
    ensures Exit.ProducerOf(TWINS.nodes, "e") == Some(QUANTIZE2) && Exit.ProducerOf(TWINS.nodes, "w") == Some(DEQUANTIZE2)
  {
    TwinsOrdered();
    var base, nodes := Base(TWINS), TWINS.nodes;
    Exit.ProducerUnique(base, nodes, 1, "c");
    Exit.ProducerUnique(base, nodes, 2, "y");
    Exit.ProducerUnique(base, nodes, 3, "e");
    Exit.ProducerUnique(base, nodes, 4, "w");
  }

  lemma TwinsCodes(n: Node)
    requires n in TWINS.nodes
    ensures "c" in n.inputs ==> n == DEQUANTIZE1
    ensures "e" in n.inputs ==> n == DEQUANTIZE2
    ensures "y" !in n.inputs && "w" !in n.inputs
  {
  }

  lemma TwinsExport()
    ensures Exit.Exportable(TWINS)
    ensures Exit.DequantizerOf(TWINS, 0) == DEQUANTIZE1
  {
    TwinsProducers();
    forall n | n in TWINS.nodes
      ensures "c" in n.inputs ==> n == DEQUANTIZE1
      ensures "e" in n.inputs ==> n == DEQUANTIZE2
      ensures "y" !in n.inputs && "w" !in n.inputs
    {
      TwinsCodes(n);
    }
    assert Exit.OutputOk(TWINS, "y") && Exit.OutputOk(TWINS, "w");
  }

  // Neither dequantizer reads the input: once both quantizers are gone, each
  // reads the source the other does.
  lemma TwinsNotRelayed()
    ensures !Relayed(TWINS, 0)
  {
    TwinsWellFormed();
    TwinsStem();
    TwinsExport();
    EdgeRedirects(TWINS, 1, "c");
    EdgeRedirects(TWINS, 3, "e");
    assert "e" in DEQUANTIZE2.inputs && DEQUANTIZE2 in TWINS.nodes;
    assert ReadsAs(TWINS, DEQUANTIZE2, "r");
  }

  // So this graph, too, each surgery alone accepts and both together refuse.
  lemma TwinsRefused(opset: Option<int>)
    requires OpsetOk(opset)
    ensures Succeeds(TWINS, opset, InputOnly) && Succeeds(TWINS, opset, OutputOnly) && !Succeeds(TWINS, opset, Both)
  {
    TwinsWellFormed();
    TwinsConvert();
    TwinsExport();
    TwinsNotRelayed();
    TwinsAreStatic();
    EachSucceedsIff(TWINS, opset);
    BothSucceedIff(TWINS, opset);
  }

  lemma TwinsAreStatic()
    ensures forall n :: n in TWINS.nodes ==> n.op != "DynamicQuantizeLinear"
  {
  }
}
