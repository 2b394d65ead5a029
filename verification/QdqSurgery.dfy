/**
 The surgery as the tool performs it, editing one graph in place: the entry
 quantizers out, the exit dequantizers out, or both, entry first.

 `ModelGraph` is the graph being edited. Each of its edits is proved to make the
 graph the rewriting says, and `SurgeryPreservesMeaning` says what the host and
 the new graph compute together: what the old graph computed.
 */
module QdqSurgery {
  import opened Common
  import opened QdqCodes
  import opened QdqGraph
  import opened QdqEntry
  import opened QdqWalk
  import opened QdqEdits
  import Exit = QdqExit

  // -------------------------------------------------------------------------
  // Shared parameters
  // -------------------------------------------------------------------------

  ghost predicate AllHave(inits: map<string, Tensor>, edges: seq<Node>, q: Qparams) {
    forall n :: n in edges ==> ScalarQparams(inits, n) == Ok(q)
  }

  predicate TakeDifferent(inits: map<string, Tensor>, m: Node, n: Node) {
    var p, q := ScalarQparams(inits, m), ScalarQparams(inits, n);
    p.Ok? && q.Ok? && p != q
  }

  // Some edge has no parameters for that reason, or two have different ones.
  ghost predicate ParamsViolate(inits: map<string, Tensor>, edges: seq<Node>, e: Refusal) {
    || (exists n :: n in edges && ScalarQparams(inits, n) == Err(e))
    || (e == Disagree && exists m, n :: m in edges && n in edges && TakeDifferent(inits, m, n))
  }

  // The one parameter set of all the edges, or why there is none.
  method SharedQparams(inits: map<string, Tensor>, edges: seq<Node>) returns (r: Result<Qparams, Refusal>)
    requires edges != []
    ensures r.Ok? ==> AllHave(inits, edges, r.value)
    ensures r.Err? ==> forall q :: !AllHave(inits, edges, q)
    ensures r.Err? ==> ParamsViolate(inits, edges, r.error)
  {
    var found: seq<Qparams>, i := [], 0;
    while i < |edges|
      invariant i <= |edges| && |found| == i
      invariant forall j :: 0 <= j < i ==> ScalarQparams(inits, edges[j]) == Ok(found[j])
    {
      var p := ScalarQparams(inits, edges[i]);
      if p.Err? {
        assert edges[i] in edges;
        return Err(p.error);
      }
      found := found + [p.value];
      i := i + 1;
    }
    if exists j :: 0 <= j < |found| && found[j] != found[0] {
      var j :| 0 <= j < |found| && found[j] != found[0];
      assert edges[j] in edges && edges[0] in edges;
      return Err(Disagree);
    }
    return Ok(found[0]);
  }

  // -------------------------------------------------------------------------
  // The graph being edited
  // -------------------------------------------------------------------------

  class ModelGraph {
    var inputs: seq<ValueInfo>
    var outputs: seq<ValueInfo>
    var nodes: seq<Node>
    var info: seq<ValueInfo>
    const inits: map<string, Tensor>

    constructor (g: Graph)
      ensures Value() == g
    {
      inputs, outputs, nodes, info, inits := g.inputs, g.outputs, g.nodes, g.info, g.inits;
    }

    function Value(): Graph
      reads this
    {
      Graph(inputs, outputs, nodes, inits, info)
    }

    // Point every reader of `from` at `to`.
    method Rewire(from: string, to: string)
      modifies this`nodes
      ensures nodes == RewireAll(old(nodes), from, to)
    {
      var i := 0;
      while i < |nodes|
        invariant i <= |nodes| == |old(nodes)|
        invariant forall j :: 0 <= j < i ==> nodes[j] == WithInput(old(nodes)[j], from, to)
        invariant forall j :: i <= j < |nodes| ==> nodes[j] == old(nodes)[j]
      {
        nodes := nodes[i := WithInput(nodes[i], from, to)];
        i := i + 1;
      }
      assert nodes == RewireAll(old(nodes), from, to);
    }

    // Delete the node that makes one of `dead`.
    method RemoveMakers(dead: set<string>)
      modifies this`nodes
      ensures nodes == DropMakers(old(nodes), dead)
    {
      var kept, i := [], 0;
      while i < |nodes|
        invariant i <= |nodes| && nodes == old(nodes) && kept == DropMakers(nodes[..i], dead)
      {
        DropOneMore(nodes[..i], nodes[i], dead);
        assert nodes[..i + 1] == nodes[..i] + [nodes[i]];
        if !Makes(nodes[i], dead) { kept := kept + [nodes[i]]; }
        i := i + 1;
      }
      assert nodes[..i] == nodes;
      nodes := kept;
    }

    method RewireEdges(edges: seq<Node>)
      modifies this`nodes
      ensures nodes == FoldNodes(edges, old(nodes))
    {
      var i := 0;
      FoldNothing(nodes);
      while i < |edges|
        invariant i <= |edges| && nodes == FoldNodes(edges[..i], old(nodes))
      {
        Rewire(MadeBy(edges[i]), SourceOf(edges[i]));
        FoldOneMore(edges[..i], edges[i], old(nodes));
        assert edges[..i + 1] == edges[..i] + [edges[i]];
        i := i + 1;
      }
      assert edges[..i] == edges;
    }

    method RemoveEdges(edges: seq<Node>) returns (dead: set<string>)
      modifies this`nodes
      ensures dead == MadeByAll(edges) && nodes == DropMakers(old(nodes), dead)
    {
      dead := {};
      var i := 0;
      DropNothing(nodes);
      while i < |edges|
        invariant i <= |edges| && dead == MadeByAll(edges[..i]) && nodes == DropMakers(old(nodes), dead)
      {
        RemoveMakers({MadeBy(edges[i])});
        DropTwice(old(nodes), dead, {MadeBy(edges[i])});
        MadeByAllOneMore(edges[..i], edges[i]);
        assert edges[..i + 1] == edges[..i] + [edges[i]];
        dead := dead + {MadeBy(edges[i])};
        i := i + 1;
      }
      assert edges[..i] == edges;
    }

    // Forget the intermediate values that are gone and retype the stem's.
    method RetypeInfo(made: set<string>, dead: set<string>)
      modifies this`info
      ensures info == EntryInfo(made, dead, old(info))
    {
      var kept, i := [], 0;
      while i < |info|
        invariant i <= |info| && info == old(info) && kept == EntryInfo(made, dead, info[..i])
      {
        assert info[..i + 1][..i] == info[..i];
        if info[i].name !in dead {
          kept := kept + [if info[i].name in made then info[i].(elem := UInt8) else info[i]];
        }
        i := i + 1;
      }
      assert info[..i] == info;
      info := kept;
    }

    // Everything after the checks have passed.
    method EditEntry(w: Walked)
      requires |inputs| == 1
      modifies this
      ensures Edited(old(Value()), w, Value())
    {
      RewireEdges(w.edges);
      var dead := RemoveEdges(w.edges);
      inputs := [inputs[0].(elem := UInt8)];
      RetypeInfo(Elements(w.traversed), dead);
    }

    // Remove the entry quantizers; the result is their shared parameters. A
    // refused graph is left as it was.
    method EntrySurgery() returns (r: Result<Qparams, Refusal>)
      requires WellFormed(Value())
      modifies this
      ensures r.Ok? ==> Convertible(old(Value()), r.value) && Value() == Converted(old(Value()))
      ensures r.Err? ==> Value() == old(Value()) && forall q :: !Convertible(Value(), q)
      ensures r.Err? ==> EntryViolates(Value(), r.error)
    {
      if |inputs| != 1 { return Err(InputCount); }
      if inputs[0].elem != Float { return Err(InputNotFloat); }
      ghost var g := Value();
      var walked := Walk(Value());
      if walked.Err? {
        WalkRefuses(g, walked.error);
        return Err(walked.error);
      }
      var q := SharedQparams(inits, walked.value.edges);
      EdgesAgreeIff(g, walked.value);
      if q.Err? {
        ParamsRefuse(g, walked.value, q.error);
        return Err(q.error);
      }
      EditEntry(walked.value);
      EditsConvert(g, walked.value, Value());
      return Ok(q.value);
    }

    // Delete one node.
    method Remove(d: Node)
      modifies this`nodes
      ensures nodes == Exit.Without(old(nodes), d)
    {
      var kept, i := [], 0;
      while i < |nodes|
        invariant i <= |nodes| && nodes == old(nodes) && kept == Exit.Without(nodes[..i], d)
      {
        assert nodes[..i + 1][..i] == nodes[..i];
        if nodes[i] != d { kept := kept + [nodes[i]]; }
        i := i + 1;
      }
      assert nodes[..i] == nodes;
      nodes := kept;
    }

    // Whoever makes `code` now makes `out`.
    method RenameOutput(code: string, out: string)
      modifies this`nodes
      ensures nodes == Exit.RenameAll(old(nodes), code, out)
    {
      var i := 0;
      while i < |nodes|
        invariant i <= |nodes| == |old(nodes)|
        invariant forall j :: 0 <= j < i ==> nodes[j] == Exit.Renamed(old(nodes)[j], code, out)
        invariant forall j :: i <= j < |nodes| ==> nodes[j] == old(nodes)[j]
      {
        nodes := nodes[i := Exit.Renamed(nodes[i], code, out)];
        i := i + 1;
      }
      assert nodes == Exit.RenameAll(old(nodes), code, out);
    }

    method DropValue(t: string)
      modifies this`info
      ensures info == Exit.DropInfo(old(info), t)
    {
      var kept, i := [], 0;
      while i < |info|
        invariant i <= |info| && info == old(info) && kept == Exit.DropInfo(info[..i], t)
      {
        assert info[..i + 1][..i] == info[..i];
        if info[i].name != t { kept := kept + [info[i]]; }
        i := i + 1;
      }
      assert info[..i] == info;
      info := kept;
    }

    // Hand output `i`'s codes over under its own name. The dequantizer `d` and
    // the producer of the codes are two nodes, so which is edited first does
    // not matter.
    method EditExit(i: nat, d: Node)
      requires i < |outputs|
      modifies this
      ensures Value() == Exit.ExitOne(old(Value()), i, d)
    {
      var code, out := Exit.CodesOf(d), outputs[i].name;
      Remove(d);
      RenameOutput(code, out);
      Exit.RemoveThenRename(old(nodes), code, out, d);
      outputs := outputs[i := outputs[i].(elem := UInt8)];
      DropValue(code);
    }

    // Remove the exit dequantizers; the result is each output's parameters.
    // Every check is made against the graph as it was given.
    method ExitSurgery() returns (r: Result<map<string, Qparams>, Refusal>)
      requires WellFormed(Value())
      modifies this
      ensures r.Ok? <==> Exit.Exportable(old(Value()))
      ensures r.Ok? ==> Value() == Exit.Exported(old(Value())) && ParamsGiven(old(Value()), |outputs|, r.value)
    {
      var g := Value();
      var params: map<string, Qparams>, i := map[], 0;
      while i < |g.outputs|
        invariant ExitProgress(g, i, Value(), params)
      {
        var c := CheckOutput(g, i);
        if c.Err? {
          ExitRefused(g, i);
          return Err(c.error);
        }
        ghost var before := Value();
        EditExit(i, c.value.0);
        ExitAdvances(g, i, before, Value(), params, c.value.1);
        params := params[g.outputs[i].name := c.value.1];
        i := i + 1;
      }
      ExitDone(g, i, Value(), params);
      return Ok(params);
    }

    method ConvertEntry(mode: Mode) returns (r: Result<Option<Qparams>, Refusal>)
      requires WellFormed(Value())
      modifies this
      ensures r.Ok? ==> EntryAccepted(old(Value()), mode, r.value) && Value() == Middle(old(Value()), mode)
      ensures r.Ok? ==> WellFormed(Value())
      ensures r.Err? ==> forall input :: !EntryAccepted(old(Value()), mode, input)
    {
      ghost var g := Value();
      if mode == OutputOnly { return Ok(None); }
      var q := EntrySurgery();
      if q.Err? { return Err(q.error); }
      EntryKeepsWellFormed(g, q.value);
      return Ok(Some(q.value));
    }

    method ConvertExit(mode: Mode) returns (r: Result<map<string, Qparams>, Refusal>)
      requires WellFormed(Value())
      modifies this
      ensures r.Ok? ==> ExitAccepted(old(Value()), mode, r.value, Value())
      ensures r.Err? ==> forall outputs, c :: !ExitAccepted(old(Value()), mode, outputs, c)
    {
      if mode == InputOnly { return Ok(map[]); }
      r := ExitSurgery();
    }

    // The whole tool: refuse what it cannot handle, then the surgery asked
    // for, entry first.
    method Convert(opset: Option<int>, mode: Mode) returns (r: Result<Sidecar, Refusal>)
      requires WellFormed(Value())
      modifies this
      ensures r.Ok? ==> Accepted(old(Value()), opset, mode, r.value, Value())
      ensures r.Err? ==> forall side, c :: !Accepted(old(Value()), opset, mode, side, c)
      ensures r == Err(OldOpset) <== opset.None? || opset.value < 13
      ensures r == Err(RuntimeQparams) <== opset.Some? && opset.value >= 13
                && exists n :: n in old(nodes) && n.op == "DynamicQuantizeLinear"
    {
      if !OpsetOk(opset) { return Err(OldOpset); }
      if exists n :: n in nodes && n.op == "DynamicQuantizeLinear" { return Err(RuntimeQparams); }
      var input := ConvertEntry(mode);
      if input.Err? { return Err(input.error); }
      var params := ConvertExit(mode);
      if params.Err? { return Err(params.error); }
      return Ok(Sidecar(input.value, params.value));
    }
  }

  // The edits, as they were made.
  ghost predicate Edited(g: Graph, w: Walked, c: Graph)
    requires |g.inputs| == 1
  {
    && c.inputs == [g.inputs[0].(elem := UInt8)] && c.outputs == g.outputs && c.inits == g.inits
    && c.nodes == DropMakers(FoldNodes(w.edges, g.nodes), MadeByAll(w.edges))
    && c.info == EntryInfo(Elements(w.traversed), MadeByAll(w.edges), g.info)
  }

  lemma EditsConvert(g: Graph, w: Walked, c: Graph)
    requires WellFormed(g) && |g.inputs| == 1 && WalkedAll(g, w) && Edited(g, w, c)
    ensures c == Converted(g)
  {
    EditsAreEntry(g, w.edges);
    MadeByAllIsDead(g, w.edges);
    assert g.inputs[0].name in Names(g.inputs);
    TraversedRetypes(Stem(g), Elements(w.traversed), g.inputs[0].name, MadeByAll(w.edges), g.info);
  }

  lemma EdgesAgreeIff(g: Graph, w: Walked)
    requires |g.inputs| == 1 && WalkedAll(g, w) && w.edges != []
    ensures forall q :: EdgesAgree(g, q) <==> AllHave(g.inits, w.edges, q)
    ensures exists n :: n in g.nodes && IsEdge(Stem(g), n)
  {
    assert w.edges[0] in w.edges;
  }

  // What a refusal by entry surgery says is so.
  ghost predicate EntryViolates(g: Graph, e: Refusal) {
    if e == InputCount then |g.inputs| != 1
    else
      && |g.inputs| == 1
      && if e == InputNotFloat then g.inputs[0].elem != Float
         else
           || Violates(g, e)
           || exists edges :: (forall n :: n in edges ==> n in g.nodes && IsEdge(Stem(g), n))
                && ParamsViolate(g.inits, edges, e)
  }

  lemma WalkRefuses(g: Graph, e: Refusal)
    requires |g.inputs| == 1 && Violates(g, e)
    ensures EntryViolates(g, e)
  {
  }

  lemma ParamsRefuse(g: Graph, w: Walked, e: Refusal)
    requires |g.inputs| == 1 && WalkedAll(g, w) && ParamsViolate(g.inits, w.edges, e)
    ensures EntryViolates(g, e)
  {
    ParamsErrors(g.inits, w.edges, e);
    assert forall n :: n in w.edges ==> n in g.nodes && IsEdge(Stem(g), n);
  }

  // None of them is about the input's number or type.
  lemma ParamsErrors(inits: map<string, Tensor>, edges: seq<Node>, e: Refusal)
    requires ParamsViolate(inits, edges, e)
    ensures e != InputCount && e != InputNotFloat
  {
  }

  // What a refusal of one output says is so.
  ghost predicate OutputViolates(g: Graph, i: nat, e: Refusal)
    requires i < |g.outputs|
  {
    var t, d := g.outputs[i].name, Exit.DequantizerOf(g, i);
    match e
    case NotDequantized(x) => x == t && forall n :: n in g.nodes && t in n.outputs ==> n.op != "DequantizeLinear"
    case OutputIsRead(x) => x == t && exists n :: n in g.nodes && t in n.inputs
    case CodesAreRead(x) => d.inputs != [] && x == d.inputs[0] && exists n :: n in g.nodes && n != d && x in n.inputs
    case NoProducer(x) => d.inputs != [] && x == d.inputs[0] && forall n :: n in g.nodes ==> x !in n.outputs
    case _ => ScalarQparams(g.inits, d) == Err(e)
  }

  ghost predicate OutputPasses(g: Graph, i: nat) {
    i < |g.outputs| && Exit.Unread(g, g.outputs[i].name) && Exit.OutputOk(g, g.outputs[i].name)
  }

  // The checks on one output, in the order they are made.
  method CheckOutput(g: Graph, i: nat) returns (r: Result<(Node, Qparams), Refusal>)
    requires WellFormed(g) && i < |g.outputs|
    ensures r.Ok? <==> OutputPasses(g, i)
    ensures r.Ok? ==> r.value == (Exit.DequantizerOf(g, i), Exit.ParamsOf(g, i))
    ensures r.Err? ==> OutputViolates(g, i, r.error)
  {
    var t := g.outputs[i].name;
    var p := Exit.ProducerOf(g.nodes, t);
    MakerIsUnique(g, t);
    if p.None? || p.value.op != DEQUANTIZE { return Err(NotDequantized(t)); }
    if !Exit.Unread(g, t) { return Err(OutputIsRead(t)); }
    var d := p.value;
    MakerHasInput(g, t);
    var code := d.inputs[0];
    if !Exit.OnlyReadBy(g, code, d) { return Err(CodesAreRead(code)); }
    var q := ScalarQparams(g.inits, d);
    if q.Err? { return Err(q.error); }
    if Exit.ProducerOf(g.nodes, code).None? {
      NobodyMakes(g, code);
      return Err(NoProducer(code));
    }
    return Ok((d, q.value));
  }

  lemma MakerIsUnique(g: Graph, t: string)
    requires WellFormed(g)
    ensures forall n :: n in g.nodes && t in n.outputs ==> Exit.ProducerOf(g.nodes, t) == Some(n)
  {
    forall n | n in g.nodes && t in n.outputs ensures Exit.ProducerOf(g.nodes, t) == Some(n) {
      var i :| 0 <= i < |g.nodes| && g.nodes[i] == n;
      Exit.ProducerUnique(Base(g), g.nodes, i, t);
    }
  }

  lemma NobodyMakes(g: Graph, t: string)
    requires Exit.ProducerOf(g.nodes, t).None?
    ensures forall n :: n in g.nodes ==> t !in n.outputs
  {
    if exists n :: n in g.nodes && t in n.outputs { Exit.ProducerExists(g.nodes, t); }
  }

  lemma MakerHasInput(g: Graph, t: string)
    requires WellFormed(g) && Exit.ProducerOf(g.nodes, t).Some?
    requires Exit.ProducerOf(g.nodes, t).value.op == DEQUANTIZE
    ensures Exit.ProducerOf(g.nodes, t).value.inputs != []
  {
    var j := Exit.ProducerFound(g.nodes, t);
    FitsAt(Base(g), g.nodes, j);
  }

  // The sidecar's entries for the first `i` outputs.
  ghost predicate ParamsGiven(g: Graph, i: nat, params: map<string, Qparams>) {
    && i <= |g.outputs| && params.Keys == Names(g.outputs[..i])
    && forall j :: 0 <= j < i ==>
         g.outputs[j].name in params && params[g.outputs[j].name] == Exit.ParamsOf(g, j)
  }

  lemma NewName(g: Graph, i: nat)
    requires WellFormed(g) && i < |g.outputs|
    ensures forall j :: 0 <= j < i ==> g.outputs[j].name != g.outputs[i].name
    ensures Names(g.outputs[..i + 1]) == Names(g.outputs[..i]) + {g.outputs[i].name}
  {
    assert g.outputs[..i + 1] == g.outputs[..i] + [g.outputs[i]];
    NamesOneMore(g.outputs[..i], g.outputs[i]);
  }

  lemma GiveParams(g: Graph, i: nat, params: map<string, Qparams>, q: Qparams)
    requires WellFormed(g) && i < |g.outputs| && ParamsGiven(g, i, params) && q == Exit.ParamsOf(g, i)
    ensures ParamsGiven(g, i + 1, params[g.outputs[i].name := q])
  {
    NewName(g, i);
    var more := params[g.outputs[i].name := q];
    forall j | 0 <= j <= i ensures g.outputs[j].name in more && more[g.outputs[j].name] == Exit.ParamsOf(g, j) {
      if j < i { assert g.outputs[j].name in params && g.outputs[j].name != g.outputs[i].name; }
    }
  }

  ghost predicate ExitProgress(g: Graph, i: nat, c: Graph, params: map<string, Qparams>) {
    && i <= |g.outputs| == |c.outputs| && c == Exit.ExitUpTo(g, i)
    && (forall j :: 0 <= j < i ==> OutputPasses(g, j))
    && ParamsGiven(g, i, params)
  }

  lemma ExitAdvances(g: Graph, i: nat, c: Graph, next: Graph, params: map<string, Qparams>, q: Qparams)
    requires WellFormed(g) && i < |g.outputs| && ExitProgress(g, i, c, params) && OutputPasses(g, i)
    requires next == Exit.ExitOne(c, i, Exit.DequantizerOf(g, i)) && q == Exit.ParamsOf(g, i)
    ensures ExitProgress(g, i + 1, next, params[g.outputs[i].name := q])
  {
    Exit.UpToLink(g, i, i + 1);
    GiveParams(g, i, params, q);
  }

  lemma ExitRefused(g: Graph, i: nat)
    requires i < |g.outputs| && !OutputPasses(g, i)
    ensures !Exit.Exportable(g)
  {
  }

  lemma ExitDone(g: Graph, n: nat, c: Graph, params: map<string, Qparams>)
    requires n == |g.outputs| && ExitProgress(g, n, c, params)
    ensures Exit.Exportable(g) && c == Exit.Exported(g)
  {
    forall j: nat | j < |g.outputs|
      ensures Exit.Unread(g, g.outputs[j].name) && Exit.OutputOk(g, g.outputs[j].name)
    {
      assert OutputPasses(g, j);
    }
  }

  // -------------------------------------------------------------------------
  // The tool's promise
  // -------------------------------------------------------------------------

  datatype Mode = InputOnly | OutputOnly | Both

  // What the host is told: how to quantize the input, and how to dequantize
  // which outputs.
  datatype Sidecar = Sidecar(input: Option<Qparams>, outputs: map<string, Qparams>)

  predicate OpsetOk(opset: Option<int>) { opset.Some? && opset.value >= 13 }

  // The graph between the two surgeries.
  function Middle(g: Graph, mode: Mode): Graph
    requires mode != OutputOnly ==> |g.inputs| == 1
  {
    if mode == OutputOnly then g else Converted(g)
  }

  ghost predicate EntryAccepted(g: Graph, mode: Mode, input: Option<Qparams>) {
    if mode == OutputOnly then input == None else input.Some? && Convertible(g, input.value)
  }

  ghost predicate ExitAccepted(mid: Graph, mode: Mode, outputs: map<string, Qparams>, c: Graph) {
    if mode == InputOnly then outputs == map[] && c == mid
    else Exit.Exportable(mid) && c == Exit.Exported(mid) && ParamsGiven(mid, |mid.outputs|, outputs)
  }

  // The surgery succeeds on `g`, making `c` and telling the host `side`.
  ghost predicate Accepted(g: Graph, opset: Option<int>, mode: Mode, side: Sidecar, c: Graph) {
    && OpsetOk(opset) && (forall n :: n in g.nodes ==> n.op != "DynamicQuantizeLinear")
    && EntryAccepted(g, mode, side.input)
    && ExitAccepted(Middle(g, mode), mode, side.outputs, c)
  }

  // What the host feeds the new graph where it fed `feed` to the old one.
  function HostFeed(g: Graph, side: Sidecar, feed: Env): Env
    requires side.input.Some? ==> |g.inputs| == 1 && side.input.value.scale > 0.0 && Feeds(g, feed)
  {
    if side.input.Some? then Quantized(g, side.input.value, feed) else feed
  }

  // What the host makes of an output of the new graph.
  function HostValue(side: Sidecar, t: string, x: Tensor): Tensor {
    if t in side.outputs then Dequantize(x, side.outputs[t]) else x
  }

  ghost predicate HostAgrees(g: Graph, side: Sidecar, env: Env, env2: Env) {
    forall t :: t in Names(g.outputs) ==> t in env && t in env2 && HostValue(side, t, env2[t]) == env[t]
  }

  lemma MiddleAgrees(g: Graph, mode: Mode, side: Sidecar, k: Kernels, feed: Env)
    requires WellFormed(g) && EntryAccepted(g, mode, side.input) && Feeds(g, feed)
    requires side.input.Some? ==> side.input.value.scale > 0.0
    requires MovesData(k)
    ensures WellFormed(Middle(g, mode)) && Feeds(Middle(g, mode), HostFeed(g, side, feed))
    ensures SameOutputs(g, Run(k, g, feed), Run(k, Middle(g, mode), HostFeed(g, side, feed)))
    ensures Middle(g, mode).outputs == g.outputs
  {
    if mode == OutputOnly {
      ExecDefines(k, g.inits + feed, g.nodes);
    } else {
      EntryPreservesMeaning(g, side.input.value, k, feed);
      EntryKeepsWellFormed(g, side.input.value);
      EntryFeeds(g, side.input.value, feed);
    }
  }

  lemma GivenAgrees(g: Graph, side: Sidecar, env: Env, env2: Env)
    requires ParamsGiven(g, |g.outputs|, side.outputs) && Exit.HostReads(g, |g.outputs|, env, env2)
    ensures HostAgrees(g, side, env, env2)
  {
    forall t | t in Names(g.outputs) ensures t in env && t in env2 && HostValue(side, t, env2[t]) == env[t] {
      var j :| 0 <= j < |g.outputs| && g.outputs[j].name == t;
    }
  }

  lemma NothingGivenAgrees(g: Graph, side: Sidecar, env: Env)
    requires side.outputs == map[] && Names(g.outputs) <= env.Keys
    ensures HostAgrees(g, side, env, env)
  {
  }

  lemma ExitAgrees(g: Graph, mode: Mode, side: Sidecar, c: Graph, k: Kernels, feed: Env)
    requires WellFormed(g) && ExitAccepted(g, mode, side.outputs, c) && Feeds(g, feed)
    ensures WellFormed(c)
    ensures HostAgrees(g, side, Run(k, g, feed), Run(k, c, feed))
  {
    if mode == InputOnly {
      ExecDefines(k, g.inits + feed, g.nodes);
      NothingGivenAgrees(g, side, Run(k, g, feed));
    } else {
      Exit.ExitKeepsWellFormed(g);
      Exit.ExitPreservesMeaning(g, k, feed);
      GivenAgrees(g, side, Run(k, g, feed), Run(k, c, feed));
    }
  }

  // Whenever the surgery succeeds, in any mode, the new graph is well-formed,
  // and the host formulas around it compute exactly what the old graph
  // computed: for every input, and whatever the operators in between do.
  lemma SurgeryPreservesMeaning(g: Graph, opset: Option<int>, mode: Mode, side: Sidecar, c: Graph, k: Kernels, feed: Env)
    requires WellFormed(g) && Accepted(g, opset, mode, side, c) && Feeds(g, feed)
    requires side.input.Some? ==> side.input.value.scale > 0.0
    requires MovesData(k)
    ensures WellFormed(c)
    ensures HostAgrees(g, side, Run(k, g, feed), Run(k, c, HostFeed(g, side, feed)))
  {
    MiddleAgrees(g, mode, side, k, feed);
    ExitAgrees(Middle(g, mode), mode, side, c, k, HostFeed(g, side, feed));
  }

  // The scale the host divides by is positive.
  lemma SidecarScale(g: Graph, mode: Mode, side: Sidecar)
    requires WellFormed(g) && EntryAccepted(g, mode, side.input)
    ensures side.input.Some? ==> |g.inputs| == 1 && side.input.value.scale > 0.0
  {
    if side.input.Some? { ConvertibleIsGuarded(g, side.input.value); }
  }

  // Declarations that were the types of what the old graph computed are those
  // of what the new graph computes.
  lemma SurgeryKeepsTypes(g: Graph, opset: Option<int>, mode: Mode, side: Sidecar, c: Graph, k: Kernels, feed: Env)
    requires WellFormed(g) && Accepted(g, opset, mode, side, c) && Feeds(g, feed)
    requires side.input.Some? ==> side.input.value.scale > 0.0
    requires TypesHold(g, Run(k, g, feed))
    requires mode != InputOnly ==>
               Exit.CodesFrom(Middle(g, mode), 0, Run(k, Middle(g, mode), HostFeed(g, side, feed)))
    requires MovesData(k)
    ensures TypesHold(c, Run(k, c, HostFeed(g, side, feed)))
  {
    MiddleAgrees(g, mode, side, k, feed);
    if mode != OutputOnly { EntryKeepsTypes(g, side.input.value, k, feed); }
    if mode != InputOnly { Exit.ExitKeepsTypes(Middle(g, mode), k, HostFeed(g, side, feed)); }
  }
}
