/**
 Entry surgery as a function of the graph, and why the graph it gives computes,
 on quantized input, exactly what the old one computed.

 The stem is the input and everything data movement makes of it. In the new run
 a stem tensor holds the codes of its old value, the output of a deleted
 quantizer is read from its source, and every other tensor is what it was.
 `RunSimulates` carries this through any number of nodes.
 */
module QdqEntry {
  import opened Common
  import opened QdqCodes
  import opened QdqGraph

  // -------------------------------------------------------------------------
  // The stem and its edge nodes
  // -------------------------------------------------------------------------

  predicate PassesOn(s: set<string>, n: Node) { Transparent(n.op) && n.inputs != [] && n.inputs[0] in s }

  // The input and everything data movement makes of it.
  function StemOf(input: string, nodes: seq<Node>): (s: set<string>)
    ensures input in s
  {
    if nodes == [] then {input}
    else
      var s, last := StemOf(input, nodes[..|nodes| - 1]), nodes[|nodes| - 1];
      if PassesOn(s, last) then s + Elements(last.outputs) else s
  }

  function Stem(g: Graph): set<string>
    requires |g.inputs| == 1
  {
    StemOf(g.inputs[0].name, g.nodes)
  }

  // A quantizer of a stem tensor.
  predicate IsEdge(s: set<string>, n: Node) { n.op == QUANTIZE && n.inputs != [] && n.inputs[0] in s }

  // -------------------------------------------------------------------------
  // What the walk demands
  // -------------------------------------------------------------------------

  predicate DataOnly(t: string, n: Node) { n.inputs != [] && n.inputs[0] == t && t !in n.inputs[1..] }

  ghost predicate ReaderOk(g: Graph, t: string, n: Node) {
    && DataOnly(t, n)
    && (n.op == QUANTIZE || Transparent(n.op))
    && (n.op == QUANTIZE ==> Elements(n.outputs) !! Names(g.outputs))
  }

  ghost predicate StemTensorOk(g: Graph, t: string) {
    && t !in Names(g.outputs)
    && (exists n :: n in g.nodes && t in n.inputs)
    && forall n :: n in g.nodes && t in n.inputs ==> ReaderOk(g, t, n)
  }

  ghost predicate StemOk(g: Graph)
    requires |g.inputs| == 1
  {
    forall t :: t in Stem(g) ==> StemTensorOk(g, t)
  }

  ghost predicate EdgesAgree(g: Graph, q: Qparams)
    requires |g.inputs| == 1
  {
    forall n :: n in g.nodes && IsEdge(Stem(g), n) ==> ScalarQparams(g.inits, n) == Ok(q)
  }

  // The graphs entry surgery accepts, with the parameters it moves to the host.
  ghost predicate Convertible(g: Graph, q: Qparams) {
    && |g.inputs| == 1 && g.inputs[0].elem == Float
    && StemOk(g) && EdgesAgree(g, q)
    && exists n :: n in g.nodes && IsEdge(Stem(g), n)
  }

  // -------------------------------------------------------------------------
  // The graph it makes
  // -------------------------------------------------------------------------

  // Where a reader of `t` reads from: the source of the edge that made it.
  function Redirect(s: set<string>, nodes: seq<Node>, t: string): string {
    if nodes == [] then t
    else
      var last := nodes[|nodes| - 1];
      if IsEdge(s, last) && t in last.outputs then last.inputs[0]
      else Redirect(s, nodes[..|nodes| - 1], t)
  }

  function Rewired(s: set<string>, all: seq<Node>, n: Node): Node {
    n.(inputs := seq(|n.inputs|, i requires 0 <= i < |n.inputs| => Redirect(s, all, n.inputs[i])))
  }

  function EntryNodes(s: set<string>, all: seq<Node>, nodes: seq<Node>): seq<Node> {
    if nodes == [] then []
    else
      var last := nodes[|nodes| - 1];
      EntryNodes(s, all, nodes[..|nodes| - 1]) + if IsEdge(s, last) then [] else [Rewired(s, all, last)]
  }

  // The outputs of the edge nodes.
  function Dead(s: set<string>, nodes: seq<Node>): set<string> {
    set n, t | n in nodes && IsEdge(s, n) && t in n.outputs :: t
  }

  function EntryInfo(s: set<string>, dead: set<string>, info: seq<ValueInfo>): seq<ValueInfo> {
    if info == [] then []
    else
      var last := info[|info| - 1];
      EntryInfo(s, dead, info[..|info| - 1])
      + if last.name in dead then [] else [if last.name in s then last.(elem := UInt8) else last]
  }

  function Converted(g: Graph): Graph
    requires |g.inputs| == 1
  {
    var s := Stem(g);
    Graph([g.inputs[0].(elem := UInt8)], g.outputs, EntryNodes(s, g.nodes, g.nodes), g.inits,
          EntryInfo(s, Dead(s, g.nodes), g.info))
  }

  // -------------------------------------------------------------------------
  // The stem is closed, and nothing else is in it
  // -------------------------------------------------------------------------

  lemma {:induction false} StemGrows(input: string, nodes: seq<Node>, i: nat)
    requires i <= |nodes|
    ensures StemOf(input, nodes[..i]) <= StemOf(input, nodes)
    decreases |nodes|
  {
    if i < |nodes| {
      var front := nodes[..|nodes| - 1];
      StemGrows(input, front, i);
      assert front[..i] == nodes[..i];
    } else {
      assert nodes[..i] == nodes;
    }
  }

  lemma {:induction false} StemDefined(base: set<string>, input: string, nodes: seq<Node>)
    requires input in base
    ensures StemOf(input, nodes) <= Defined(base, nodes)
  {
    if nodes != [] { StemDefined(base, input, nodes[..|nodes| - 1]); }
  }

  // Later nodes add no earlier name.
  lemma {:induction false} StemSettled(base: set<string>, input: string, nodes: seq<Node>, i: nat, t: string)
    requires Ordered(base, nodes) && i <= |nodes| && t in StemOf(input, nodes) && t in Defined(base, nodes[..i])
    ensures t in StemOf(input, nodes[..i])
    decreases |nodes|
  {
    if i < |nodes| {
      var front := nodes[..|nodes| - 1];
      DefinedGrows(base, nodes, i, |front|);
      FitsAt(base, nodes, |front|);
      assert front[..i] == nodes[..i] && nodes[..|front|] == front;
      StemSettled(base, input, front, i, t);
    } else {
      assert nodes[..i] == nodes;
    }
  }

  lemma StemOneMore(input: string, nodes: seq<Node>, i: nat)
    requires i < |nodes|
    ensures var s := StemOf(input, nodes[..i]);
            StemOf(input, nodes[..i + 1]) == if PassesOn(s, nodes[i]) then s + Elements(nodes[i].outputs) else s
  {
    assert nodes[..i + 1][..i] == nodes[..i];
  }

  lemma StemClosed(g: Graph, i: nat)
    requires WellFormed(g) && |g.inputs| == 1 && i < |g.nodes| && PassesOn(Stem(g), g.nodes[i])
    ensures forall t :: t in g.nodes[i].outputs ==> t in Stem(g)
  {
    var input, base, n := g.inputs[0].name, Base(g), g.nodes[i];
    FitsAt(base, g.nodes, i);
    StemHasName(g);
    StemSettled(base, input, g.nodes, i, n.inputs[0]);
    StemOneMore(input, g.nodes, i);
    StemGrows(input, g.nodes, i + 1);
  }

  lemma StemHasName(g: Graph)
    requires WellFormed(g) && |g.inputs| == 1
    ensures "" !in Stem(g) && "" !in Defined(Base(g), g.nodes)
  {
    NamesAreNotEmpty(Base(g), g.nodes);
    StemDefined(Base(g), g.inputs[0].name, g.nodes);
  }

  lemma StemOnly(g: Graph, i: nat, t: string)
    requires WellFormed(g) && |g.inputs| == 1 && i < |g.nodes| && t in g.nodes[i].outputs && t in Stem(g)
    ensures PassesOn(Stem(g), g.nodes[i])
  {
    var input, base := g.inputs[0].name, Base(g);
    DefinedAt(base, g.nodes, i, t);
    StemSettled(base, input, g.nodes, i + 1, t);
    StemOneMore(input, g.nodes, i);
    FitsAt(base, g.nodes, i);
    StemDefined(base, input, g.nodes[..i]);
    StemGrows(input, g.nodes, i);
  }

  lemma StemNotInit(g: Graph, t: string)
    requires WellFormed(g) && |g.inputs| == 1 && t in Stem(g) && t in Base(g)
    ensures t == g.inputs[0].name
  {
    assert g.nodes[..0] == [];
    StemSettled(Base(g), g.inputs[0].name, g.nodes, 0, t);
  }

  // -------------------------------------------------------------------------
  // Redirection
  // -------------------------------------------------------------------------

  lemma {:induction false} RedirectOthers(s: set<string>, nodes: seq<Node>, t: string)
    requires t !in Dead(s, nodes)
    ensures Redirect(s, nodes, t) == t
  {
    if nodes != [] {
      var front := nodes[..|nodes| - 1];
      assert forall n :: n in front ==> n in nodes;
      RedirectOthers(s, front, t);
    }
  }

  lemma {:induction false} RedirectDead(s: set<string>, nodes: seq<Node>, t: string) returns (j: nat)
    requires t in Dead(s, nodes)
    ensures j < |nodes| && IsEdge(s, nodes[j]) && t in nodes[j].outputs
    ensures Redirect(s, nodes, t) == nodes[j].inputs[0]
  {
    var front, last := nodes[..|nodes| - 1], nodes[|nodes| - 1];
    if IsEdge(s, last) && t in last.outputs {
      j := |nodes| - 1;
    } else {
      assert forall n :: n in nodes ==> n in front || n == last;
      j := RedirectDead(s, front, t);
    }
  }

  // A stem tensor is nobody's quantized output.
  lemma StemNotDead(g: Graph, t: string)
    requires WellFormed(g) && |g.inputs| == 1 && t in Stem(g)
    ensures t !in Dead(Stem(g), g.nodes) && Redirect(Stem(g), g.nodes, t) == t
  {
    if t in Dead(Stem(g), g.nodes) {
      var j := RedirectDead(Stem(g), g.nodes, t);
      StemOnly(g, j, t);
    }
    RedirectOthers(Stem(g), g.nodes, t);
  }

  lemma BaseNotDead(g: Graph, t: string)
    requires WellFormed(g) && |g.inputs| == 1 && t in Base(g)
    ensures t !in Dead(Stem(g), g.nodes) && Redirect(Stem(g), g.nodes, t) == t
  {
    if t in Dead(Stem(g), g.nodes) {
      var j := RedirectDead(Stem(g), g.nodes, t);
      BaseNotProduced(Base(g), g.nodes, j, t);
    }
    RedirectOthers(Stem(g), g.nodes, t);
  }

  // What a node that stays produces is not redirected.
  lemma KeptNotDead(g: Graph, i: nat, t: string)
    requires WellFormed(g) && |g.inputs| == 1 && i < |g.nodes|
    requires !IsEdge(Stem(g), g.nodes[i]) && t in g.nodes[i].outputs
    ensures t !in Dead(Stem(g), g.nodes) && Redirect(Stem(g), g.nodes, t) == t
  {
    if t in Dead(Stem(g), g.nodes) {
      var j := RedirectDead(Stem(g), g.nodes, t);
      OneProducer(Base(g), g.nodes, i, j, t);
    }
    RedirectOthers(Stem(g), g.nodes, t);
  }

  lemma EdgeRedirects(g: Graph, i: nat, t: string)
    requires WellFormed(g) && |g.inputs| == 1 && i < |g.nodes|
    requires IsEdge(Stem(g), g.nodes[i]) && t in g.nodes[i].outputs
    ensures t in Dead(Stem(g), g.nodes) && Redirect(Stem(g), g.nodes, t) == g.nodes[i].inputs[0]
  {
    var j := RedirectDead(Stem(g), g.nodes, t);
    OneProducer(Base(g), g.nodes, i, j, t);
  }

  lemma EmptyNotRedirected(g: Graph)
    requires WellFormed(g) && |g.inputs| == 1
    ensures Redirect(Stem(g), g.nodes, "") == ""
  {
    if "" in Dead(Stem(g), g.nodes) {
      var j := RedirectDead(Stem(g), g.nodes, "");
      FitsAt(Base(g), g.nodes, j);
    }
    RedirectOthers(Stem(g), g.nodes, "");
  }

  // -------------------------------------------------------------------------
  // The simulation
  // -------------------------------------------------------------------------

  // What the new graph holds for the old value `x` of `t`: its codes if `t` is
  // in the stem, the value itself otherwise.
  function Carried(s: set<string>, q: Qparams, t: string, x: Tensor): Tensor
    requires q.scale > 0.0
  {
    if t in s then Quantize(x, q) else x
  }

  ghost predicate CarriedAt(g: Graph, q: Qparams, env: Env, env2: Env, t: string)
    requires |g.inputs| == 1 && q.scale > 0.0 && t in env
  {
    var r := Redirect(Stem(g), g.nodes, t);
    r in env2 && env2[r] == Carried(Stem(g), q, t, env[t])
  }

  ghost predicate Simulates(g: Graph, q: Qparams, env: Env, env2: Env)
    requires |g.inputs| == 1 && q.scale > 0.0
  {
    && env2.Keys <= env.Keys
    && forall t :: t in env ==> CarriedAt(g, q, env, env2, t)
  }

  lemma OperandsCarried(g: Graph, q: Qparams, env: Env, env2: Env, n: Node, j: nat)
    requires WellFormed(g) && |g.inputs| == 1 && q.scale > 0.0 && Simulates(g, q, env, env2)
    requires "" !in env && j < |n.inputs| && (n.inputs[j] == "" || n.inputs[j] in env)
    ensures var t, ins2 := n.inputs[j], OperandsOf(env2, Rewired(Stem(g), g.nodes, n).inputs);
            && (t == "" ==> ins2[j] == None)
            && (t != "" ==> ins2[j] == Some(Carried(Stem(g), q, t, env[t])))
  {
    EmptyNotRedirected(g);
    assert n.inputs[j] != "" ==> CarriedAt(g, q, env, env2, n.inputs[j]);
  }

  // A reader of a stem tensor reads it as data and reads no other.
  lemma OtherSlotsNotStem(g: Graph, n: Node, j: nat)
    requires |g.inputs| == 1 && StemOk(g) && n in g.nodes && j < |n.inputs| && n.inputs[j] in Stem(g)
    ensures j == 0 && (n.op == QUANTIZE || Transparent(n.op))
  {
    if j > 0 { assert n.inputs[1..][j - 1] == n.inputs[j]; }
    assert ReaderOk(g, n.inputs[j], n);
  }

  // A node off the stem computes the same outputs from the same operands.
  lemma OffStemAgrees(g: Graph, q: Qparams, env: Env, env2: Env, n: Node)
    requires WellFormed(g) && |g.inputs| == 1 && q.scale > 0.0 && StemOk(g) && Simulates(g, q, env, env2)
    requires n in g.nodes && "" !in env && forall t :: t in n.inputs ==> t == "" || t in env
    requires !IsEdge(Stem(g), n) && !PassesOn(Stem(g), n)
    ensures OperandsOf(env2, Rewired(Stem(g), g.nodes, n).inputs) == OperandsOf(env, n.inputs)
  {
    var ins2 := OperandsOf(env2, Rewired(Stem(g), g.nodes, n).inputs);
    forall j: nat | j < |n.inputs| ensures ins2[j] == Lookup(env, n.inputs[j]) {
      OperandsCarried(g, q, env, env2, n, j);
      if n.inputs[j] in Stem(g) { OtherSlotsNotStem(g, n, j); }
    }
  }

  // A data-movement node of the stem computes the codes of what it computed.
  lemma OnStemCarries(g: Graph, q: Qparams, k: Kernels, env: Env, env2: Env, n: Node, i: nat)
    requires WellFormed(g) && |g.inputs| == 1 && q.scale > 0.0 && StemOk(g) && Simulates(g, q, env, env2)
    requires n in g.nodes && "" !in env && "" !in Stem(g) && forall t :: t in n.inputs ==> t == "" || t in env
    requires PassesOn(Stem(g), n)
    requires MovesData(k)
    ensures var n2 := Rewired(Stem(g), g.nodes, n);
            OutputOf(k, n2, OperandsOf(env2, n2.inputs), i) == Quantize(OutputOf(k, n, OperandsOf(env, n.inputs), i), q)
  {
    var n2 := Rewired(Stem(g), g.nodes, n);
    var ins, ins2 := OperandsOf(env, n.inputs), OperandsOf(env2, n2.inputs);
    OnStemOperands(g, q, env, env2, n);
    MovementCommutes(q, k, n, n2, ins, ins2, i);
  }

  // Data movement on codes is the codes of data movement.
  lemma MovementCommutes(q: Qparams, k: Kernels, n: Node, n2: Node, ins: Operands, ins2: Operands, i: nat)
    requires q.scale > 0.0 && Transparent(n.op) && n2.op == n.op && n2.attr == n.attr
    requires |ins| == |ins2| > 0 && ins[0].Some? && ins2[0] == Some(Quantize(ins[0].value, q)) && ins2[1..] == ins[1..]
    requires MovesData(k)
    ensures OutputOf(k, n2, ins2, i) == Quantize(OutputOf(k, n, ins, i), q)
  {
    SelectionCommutes(k.select(n.op, n.attr, ins[0].value.shape, ins[1..], i), ins[0].value, q);
    assert IsMovement(n.op);
  }

  // It reads codes as data, and everything else as it was.
  lemma OnStemOperands(g: Graph, q: Qparams, env: Env, env2: Env, n: Node)
    requires WellFormed(g) && |g.inputs| == 1 && q.scale > 0.0 && StemOk(g) && Simulates(g, q, env, env2)
    requires n in g.nodes && "" !in env && "" !in Stem(g) && forall t :: t in n.inputs ==> t == "" || t in env
    requires PassesOn(Stem(g), n)
    ensures var ins, ins2 := OperandsOf(env, n.inputs), OperandsOf(env2, Rewired(Stem(g), g.nodes, n).inputs);
            && |ins| == |ins2| > 0 && ins[0].Some? && ins2[0] == Some(Quantize(ins[0].value, q))
            && ins2[1..] == ins[1..]
  {
    var ins, ins2 := OperandsOf(env, n.inputs), OperandsOf(env2, Rewired(Stem(g), g.nodes, n).inputs);
    OperandsCarried(g, q, env, env2, n, 0);
    forall j: nat | 0 < j < |n.inputs| ensures ins2[j] == ins[j] { OtherOperandKept(g, q, env, env2, n, j); }
  }

  lemma OtherOperandKept(g: Graph, q: Qparams, env: Env, env2: Env, n: Node, j: nat)
    requires WellFormed(g) && |g.inputs| == 1 && q.scale > 0.0 && StemOk(g) && Simulates(g, q, env, env2)
    requires n in g.nodes && "" !in env && "" !in Stem(g) && forall t :: t in n.inputs ==> t == "" || t in env
    requires 0 < j < |n.inputs|
    ensures OperandsOf(env2, Rewired(Stem(g), g.nodes, n).inputs)[j] == OperandsOf(env, n.inputs)[j]
  {
    OperandsCarried(g, q, env, env2, n, j);
    if n.inputs[j] in Stem(g) { OtherSlotsNotStem(g, n, j); }
  }

  ghost predicate Guarded(g: Graph, q: Qparams) {
    WellFormed(g) && |g.inputs| == 1 && q.scale > 0.0 && StemOk(g) && EdgesAgree(g, q)
  }

  // What holds of the names one node reads.
  lemma ReadsDefined(g: Graph, i: nat, env: Env)
    requires WellFormed(g) && |g.inputs| == 1 && i < |g.nodes| && RunsTo(g, i, env)
    ensures "" !in env && "" !in Stem(g) && NodeOk(g.nodes[i])
    ensures forall t :: t in g.nodes[i].inputs ==> t == "" || t in env
    ensures forall t :: t in g.nodes[i].outputs ==> t !in env
  {
    FitsAt(Base(g), g.nodes, i);
    StemHasName(g);
    NamesAreNotEmpty(Base(g), g.nodes[..i]);
  }

  // What an edge computed is what its source carries in the new run.
  lemma EdgeComputes(g: Graph, q: Qparams, k: Kernels, env: Env, n: Node, t: string)
    requires n.op == QUANTIZE && n.inputs != [] && n.inputs[0] in env && t in n.outputs && q.scale > 0.0
    requires ScalarQparams(g.inits, n) == Ok(q) && forall t :: t in g.inits ==> t in env && env[t] == g.inits[t]
    ensures Apply(k, env, n)[t] == Quantize(env[n.inputs[0]], q)
  {
    ParamsAreRead(k, g, env, n);
  }

  lemma SourceCarries(g: Graph, q: Qparams, env: Env, env2: Env, i: nat)
    requires Guarded(g, q) && i < |g.nodes| && RunsTo(g, i, env) && Simulates(g, q, env, env2)
    requires IsEdge(Stem(g), g.nodes[i])
    ensures var source := g.nodes[i].inputs[0];
            source in env && source in env2 && env2[source] == Quantize(env[source], q)
  {
    var source := g.nodes[i].inputs[0];
    ReadsDefined(g, i, env);
    StemNotDead(g, source);
    assert CarriedAt(g, q, env, env2, source);
  }

  lemma EdgeOutputCarried(g: Graph, q: Qparams, k: Kernels, env: Env, env2: Env, i: nat, t: string)
    requires Guarded(g, q) && i < |g.nodes| && RunsTo(g, i, env) && Simulates(g, q, env, env2)
    requires IsEdge(Stem(g), g.nodes[i]) && t in g.nodes[i].outputs
    ensures CarriedAt(g, q, Apply(k, env, g.nodes[i]), env2, t)
  {
    SourceCarries(g, q, env, env2, i);
    EdgeRedirects(g, i, t);
    NotStemOutput(g, i, t);
    EdgeComputes(g, q, k, env, g.nodes[i], t);
  }

  // A deleted edge: its output was the codes its source now carries.
  lemma EdgeSimulates(g: Graph, q: Qparams, k: Kernels, env: Env, env2: Env, i: nat)
    requires Guarded(g, q) && i < |g.nodes| && RunsTo(g, i, env) && Simulates(g, q, env, env2)
    requires IsEdge(Stem(g), g.nodes[i])
    ensures Simulates(g, q, Apply(k, env, g.nodes[i]), env2)
  {
    var after := Apply(k, env, g.nodes[i]);
    forall t | t in after ensures CarriedAt(g, q, after, env2, t) {
      if t in g.nodes[i].outputs {
        EdgeOutputCarried(g, q, k, env, env2, i, t);
      } else {
        assert CarriedAt(g, q, env, env2, t);
      }
    }
  }

  lemma NotStemOutput(g: Graph, i: nat, t: string)
    requires WellFormed(g) && |g.inputs| == 1 && i < |g.nodes| && t in g.nodes[i].outputs
    requires !PassesOn(Stem(g), g.nodes[i])
    ensures t !in Stem(g)
  {
    if t in Stem(g) { StemOnly(g, i, t); }
  }

  lemma StemNodeSimulates(g: Graph, q: Qparams, k: Kernels, env: Env, env2: Env, i: nat)
    requires Guarded(g, q) && i < |g.nodes| && RunsTo(g, i, env) && Simulates(g, q, env, env2)
    requires PassesOn(Stem(g), g.nodes[i])
    requires MovesData(k)
    ensures Simulates(g, q, Apply(k, env, g.nodes[i]), Apply(k, env2, Rewired(Stem(g), g.nodes, g.nodes[i])))
  {
    var n := g.nodes[i];
    var n2 := Rewired(Stem(g), g.nodes, n);
    var after, after2 := Apply(k, env, n), Apply(k, env2, n2);
    ReadsDefined(g, i, env);
    StemClosed(g, i);
    forall t | t in after ensures CarriedAt(g, q, after, after2, t) {
      if t in n.outputs {
        KeptNotDead(g, i, t);
        OnStemCarries(g, q, k, env, env2, n, IndexOf(n.outputs, t));
      } else {
        StillCarried(g, q, env, env2, i, t);
      }
    }
  }

  // A name carried before a kept node is carried after it.
  lemma StillCarried(g: Graph, q: Qparams, env: Env, env2: Env, i: nat, t: string)
    requires Guarded(g, q) && i < |g.nodes| && RunsTo(g, i, env) && Simulates(g, q, env, env2) && t in env
    ensures var r := Redirect(Stem(g), g.nodes, t);
            r !in g.nodes[i].outputs && r in env2 && env2[r] == Carried(Stem(g), q, t, env[t])
  {
    ReadsDefined(g, i, env);
    assert CarriedAt(g, q, env, env2, t);
  }

  lemma OtherNodeSimulates(g: Graph, q: Qparams, k: Kernels, env: Env, env2: Env, i: nat)
    requires Guarded(g, q) && i < |g.nodes| && RunsTo(g, i, env) && Simulates(g, q, env, env2)
    requires !IsEdge(Stem(g), g.nodes[i]) && !PassesOn(Stem(g), g.nodes[i])
    ensures Simulates(g, q, Apply(k, env, g.nodes[i]), Apply(k, env2, Rewired(Stem(g), g.nodes, g.nodes[i])))
  {
    var n := g.nodes[i];
    var n2 := Rewired(Stem(g), g.nodes, n);
    var after, after2 := Apply(k, env, n), Apply(k, env2, n2);
    ReadsDefined(g, i, env);
    OffStemAgrees(g, q, env, env2, n);
    forall t | t in after ensures CarriedAt(g, q, after, after2, t) {
      if t in n.outputs {
        KeptNotDead(g, i, t);
        NotStemOutput(g, i, t);
        SameOutput(k, n, n2, env, env2, t);
      } else {
        StillCarried(g, q, env, env2, i, t);
      }
    }
  }

  lemma SameOutput(k: Kernels, n: Node, n2: Node, env: Env, env2: Env, t: string)
    requires n2.op == n.op && n2.attr == n.attr && n2.outputs == n.outputs && t in n.outputs
    requires OperandsOf(env2, n2.inputs) == OperandsOf(env, n.inputs)
    ensures Apply(k, env2, n2)[t] == Apply(k, env, n)[t]
  {
    SameOperator(k, n, n2, OperandsOf(env, n.inputs), IndexOf(n.outputs, t));
  }

  // -------------------------------------------------------------------------
  // Whole runs
  // -------------------------------------------------------------------------

  lemma PrefixOneMore(s: set<string>, all: seq<Node>, i: nat)
    requires i < |all|
    ensures all[..i + 1] == all[..i] + [all[i]]
    ensures EntryNodes(s, all, all[..i + 1])
         == EntryNodes(s, all, all[..i]) + if IsEdge(s, all[i]) then [] else [Rewired(s, all, all[i])]
  {
    assert all[..i + 1][..i] == all[..i];
  }

  function Quantized(g: Graph, q: Qparams, feed: Env): Env
    requires |g.inputs| == 1 && Feeds(g, feed) && q.scale > 0.0
  {
    var name := g.inputs[0].name;
    assert name in Names(g.inputs);
    map[name := Quantize(feed[name], q)]
  }

  lemma StartSimulates(g: Graph, q: Qparams, feed: Env)
    requires Guarded(g, q) && Feeds(g, feed)
    ensures Simulates(g, q, g.inits + feed, g.inits + Quantized(g, q, feed))
  {
    var env, env2, name := g.inits + feed, g.inits + Quantized(g, q, feed), g.inputs[0].name;
    assert Names(g.inputs) == {name};
    assert g.nodes[..0] == [];
    forall t | t in env ensures CarriedAt(g, q, env, env2, t) {
      BaseNotDead(g, t);
      if t in Stem(g) { StemNotInit(g, t); }
    }
  }

  // The new graph's run after the first `i` nodes of the old one.
  function NewRun(g: Graph, q: Qparams, k: Kernels, feed: Env, i: nat): Env
    requires |g.inputs| == 1 && Feeds(g, feed) && q.scale > 0.0 && i <= |g.nodes|
  {
    Exec(k, g.inits + Quantized(g, q, feed), EntryNodes(Stem(g), g.nodes, g.nodes[..i]))
  }

  lemma NewRunStep(g: Graph, q: Qparams, k: Kernels, feed: Env, i: nat)
    requires |g.inputs| == 1 && Feeds(g, feed) && q.scale > 0.0 && i < |g.nodes|
    ensures var env2, n := NewRun(g, q, k, feed, i), g.nodes[i];
            NewRun(g, q, k, feed, i + 1)
            == if IsEdge(Stem(g), n) then env2 else Apply(k, env2, Rewired(Stem(g), g.nodes, n))
  {
    var s, n, base := Stem(g), g.nodes[i], g.inits + Quantized(g, q, feed);
    var before := EntryNodes(s, g.nodes, g.nodes[..i]);
    PrefixOneMore(s, g.nodes, i);
    assert before + [] == before;
    ExecOneMore(k, base, before, Rewired(s, g.nodes, n));
  }

  lemma {:induction false} RunSimulates(g: Graph, q: Qparams, k: Kernels, feed: Env, i: nat)
    requires Guarded(g, q) && Feeds(g, feed) && i <= |g.nodes|
    requires MovesData(k)
    ensures RunsTo(g, i, PartialRun(g, k, feed, i))
    ensures Simulates(g, q, PartialRun(g, k, feed, i), NewRun(g, q, k, feed, i))
  {
    if i == 0 {
      StartSimulates(g, q, feed);
      RunStarts(g, feed);
      assert g.nodes[..0] == [];
    } else {
      var m: nat := i - 1;
      RunSimulates(g, q, k, feed, m);
      PartialRunStep(g, k, feed, m);
      NewRunStep(g, q, k, feed, m);
      RunsOn(g, k, m, PartialRun(g, k, feed, m));
      NodeSimulates(g, q, k, PartialRun(g, k, feed, m), NewRun(g, q, k, feed, m), m);
    }
  }

  lemma NodeSimulates(g: Graph, q: Qparams, k: Kernels, env: Env, env2: Env, i: nat)
    requires Guarded(g, q) && i < |g.nodes| && RunsTo(g, i, env) && Simulates(g, q, env, env2)
    requires MovesData(k)
    ensures var n := g.nodes[i];
            Simulates(g, q, Apply(k, env, n),
              if IsEdge(Stem(g), n) then env2 else Apply(k, env2, Rewired(Stem(g), g.nodes, n)))
  {
    if IsEdge(Stem(g), g.nodes[i]) {
      EdgeSimulates(g, q, k, env, env2, i);
    } else if PassesOn(Stem(g), g.nodes[i]) {
      StemNodeSimulates(g, q, k, env, env2, i);
    } else {
      OtherNodeSimulates(g, q, k, env, env2, i);
    }
  }

  lemma ConvertibleIsGuarded(g: Graph, q: Qparams)
    requires WellFormed(g) && Convertible(g, q)
    ensures Guarded(g, q)
  {
    var n :| n in g.nodes && IsEdge(Stem(g), n);
    assert ScalarQparams(g.inits, n) == Ok(q);
  }

  lemma EdgeSparesOutputs(g: Graph, j: nat)
    requires |g.inputs| == 1 && StemOk(g) && j < |g.nodes| && IsEdge(Stem(g), g.nodes[j])
    ensures Elements(g.nodes[j].outputs) !! Names(g.outputs)
  {
    var n := g.nodes[j];
    assert n.inputs[0] in n.inputs && StemTensorOk(g, n.inputs[0]);
    assert ReaderOk(g, n.inputs[0], n);
  }

  lemma OutputIsApart(g: Graph, t: string)
    requires WellFormed(g) && |g.inputs| == 1 && StemOk(g) && t in Names(g.outputs)
    ensures t !in Stem(g) && t !in Dead(Stem(g), g.nodes) && Redirect(Stem(g), g.nodes, t) == t
  {
    assert t in Stem(g) ==> StemTensorOk(g, t);
    if t in Dead(Stem(g), g.nodes) {
      var j := RedirectDead(Stem(g), g.nodes, t);
      EdgeSparesOutputs(g, j);
    }
    RedirectOthers(Stem(g), g.nodes, t);
  }

  ghost predicate SameOutputs(g: Graph, env: Env, env2: Env) {
    forall t :: t in Names(g.outputs) ==> t in env && t in env2 && env2[t] == env[t]
  }

  lemma SimulatedOutputs(g: Graph, q: Qparams, env: Env, env2: Env)
    requires Guarded(g, q) && RunsTo(g, |g.nodes|, env) && Simulates(g, q, env, env2)
    ensures SameOutputs(g, env, env2)
  {
    assert g.nodes[..|g.nodes|] == g.nodes;
    forall t | t in Names(g.outputs) ensures t in env && t in env2 && env2[t] == env[t] {
      OutputIsApart(g, t);
      assert CarriedAt(g, q, env, env2, t);
    }
  }

  lemma RunsEnd(g: Graph, q: Qparams, k: Kernels, feed: Env)
    requires |g.inputs| == 1 && Feeds(g, feed) && q.scale > 0.0
    ensures PartialRun(g, k, feed, |g.nodes|) == Run(k, g, feed)
    ensures NewRun(g, q, k, feed, |g.nodes|) == Run(k, Converted(g), Quantized(g, q, feed))
  {
    assert g.nodes[..|g.nodes|] == g.nodes;
  }

  // On quantized input the new graph's outputs are the old graph's outputs,
  // for every operator the surgery does not touch and for every input.
  lemma EntryPreservesMeaning(g: Graph, q: Qparams, k: Kernels, feed: Env)
    requires WellFormed(g) && Convertible(g, q) && q.scale > 0.0 && Feeds(g, feed)
    requires MovesData(k)
    ensures SameOutputs(g, Run(k, g, feed), Run(k, Converted(g), Quantized(g, q, feed)))
  {
    ConvertibleIsGuarded(g, q);
    RunSimulates(g, q, k, feed, |g.nodes|);
    RunsEnd(g, q, k, feed);
    SimulatedOutputs(g, q, PartialRun(g, k, feed, |g.nodes|), NewRun(g, q, k, feed, |g.nodes|));
  }

  lemma EntryFeeds(g: Graph, q: Qparams, feed: Env)
    requires |g.inputs| == 1 && q.scale > 0.0 && Feeds(g, feed)
    ensures Feeds(Converted(g), Quantized(g, q, feed))
  {
    SameInputNames(g);
  }

  lemma SameInputNames(g: Graph)
    requires |g.inputs| == 1
    ensures Names(Converted(g).inputs) == {g.inputs[0].name} == Names(g.inputs)
  {
    assert Converted(g).inputs[0].name == g.inputs[0].name;
  }

  // -------------------------------------------------------------------------
  // The result is well-formed
  // -------------------------------------------------------------------------

  lemma {:induction false} DefinedAfter(g: Graph, i: nat)
    requires WellFormed(g) && |g.inputs| == 1 && i <= |g.nodes|
    ensures Defined(Base(g), EntryNodes(Stem(g), g.nodes, g.nodes[..i]))
         == Defined(Base(g), g.nodes[..i]) - Dead(Stem(g), g.nodes)
  {
    if i == 0 {
      assert g.nodes[..0] == [];
      BaseIsKept(g);
    } else {
      var m: nat := i - 1;
      DefinedAfter(g, m);
      DefinedStep(g, m);
    }
  }

  lemma BaseIsKept(g: Graph)
    requires WellFormed(g) && |g.inputs| == 1
    ensures Base(g) - Dead(Stem(g), g.nodes) == Base(g)
  {
    forall t | t in Base(g) ensures t !in Dead(Stem(g), g.nodes) { BaseNotDead(g, t); }
  }

  lemma DefinedStep(g: Graph, m: nat)
    requires WellFormed(g) && |g.inputs| == 1 && m < |g.nodes|
    requires Defined(Base(g), EntryNodes(Stem(g), g.nodes, g.nodes[..m]))
          == Defined(Base(g), g.nodes[..m]) - Dead(Stem(g), g.nodes)
    ensures Defined(Base(g), EntryNodes(Stem(g), g.nodes, g.nodes[..m + 1]))
         == Defined(Base(g), g.nodes[..m + 1]) - Dead(Stem(g), g.nodes)
  {
    var s, base, n := Stem(g), Base(g), g.nodes[m];
    var before, made := EntryNodes(s, g.nodes, g.nodes[..m]), Defined(base, g.nodes[..m]);
    PrefixOneMore(s, g.nodes, m);
    DefinedOneMore(base, g.nodes[..m], n);
    NodeDeadOrNot(g, m);
    if IsEdge(s, n) {
      assert before + [] == before;
      DeadAddsNothing(made, Elements(n.outputs), Dead(s, g.nodes));
    } else {
      DefinedOneMore(base, before, Rewired(s, g.nodes, n));
      KeptIsAdded(made, Elements(n.outputs), Dead(s, g.nodes));
    }
  }

  lemma DeadAddsNothing(made: set<string>, more: set<string>, dead: set<string>)
    requires more <= dead
    ensures made + more - dead == made - dead
  {
  }

  lemma KeptIsAdded(made: set<string>, more: set<string>, dead: set<string>)
    requires more !! dead
    ensures made + more - dead == made - dead + more
  {
  }

  lemma NodeDeadOrNot(g: Graph, i: nat)
    requires WellFormed(g) && |g.inputs| == 1 && i < |g.nodes|
    ensures IsEdge(Stem(g), g.nodes[i]) ==> Elements(g.nodes[i].outputs) <= Dead(Stem(g), g.nodes)
    ensures !IsEdge(Stem(g), g.nodes[i]) ==> Elements(g.nodes[i].outputs) !! Dead(Stem(g), g.nodes)
  {
    if !IsEdge(Stem(g), g.nodes[i]) {
      forall t | t in g.nodes[i].outputs ensures t !in Dead(Stem(g), g.nodes) { KeptNotDead(g, i, t); }
    }
  }

  lemma RedirectDefined(g: Graph, i: nat, t: string)
    requires WellFormed(g) && |g.inputs| == 1 && i <= |g.nodes| && t in Defined(Base(g), g.nodes[..i])
    ensures Redirect(Stem(g), g.nodes, t) in Defined(Base(g), g.nodes[..i]) - Dead(Stem(g), g.nodes)
  {
    if t in Dead(Stem(g), g.nodes) {
      var j := RedirectDead(Stem(g), g.nodes, t);
      FitsAt(Base(g), g.nodes, j);
      StemNotDead(g, g.nodes[j].inputs[0]);
      if i <= j { DefinedGrows(Base(g), g.nodes, i, j); }
      DefinedGrows(Base(g), g.nodes, j, i);
    } else {
      RedirectOthers(Stem(g), g.nodes, t);
    }
  }

  lemma RewiredFits(g: Graph, i: nat)
    requires WellFormed(g) && |g.inputs| == 1 && i < |g.nodes|
    ensures Fits(Defined(Base(g), g.nodes[..i]) - Dead(Stem(g), g.nodes), Rewired(Stem(g), g.nodes, g.nodes[i]))
  {
    var n, n2 := g.nodes[i], Rewired(Stem(g), g.nodes, g.nodes[i]);
    var av := Defined(Base(g), g.nodes[..i]);
    FitsAt(Base(g), g.nodes, i);
    EmptyNotRedirected(g);
    NamesAreNotEmpty(Base(g), g.nodes[..i]);
    forall j: nat | j < |n.inputs|
      ensures n2.inputs[j] == "" || n2.inputs[j] in av - Dead(Stem(g), g.nodes)
      ensures n.inputs[j] != "" ==> n2.inputs[j] != ""
    {
      if n.inputs[j] != "" { RedirectDefined(g, i, n.inputs[j]); }
    }
  }

  lemma {:induction false} OrderedAfter(g: Graph, i: nat)
    requires WellFormed(g) && |g.inputs| == 1 && i <= |g.nodes|
    ensures Ordered(Base(g), EntryNodes(Stem(g), g.nodes, g.nodes[..i]))
  {
    var s, base := Stem(g), Base(g);
    if i == 0 {
      assert g.nodes[..0] == [];
    } else {
      var m: nat := i - 1;
      var before := EntryNodes(s, g.nodes, g.nodes[..m]);
      OrderedAfter(g, m);
      PrefixOneMore(s, g.nodes, m);
      assert before + [] == before;
      DefinedAfter(g, m);
      RewiredFits(g, m);
      OrderedOneMore(base, before, Rewired(s, g.nodes, g.nodes[m]));
    }
  }

  lemma {:induction false} InfoNames(s: set<string>, dead: set<string>, info: seq<ValueInfo>)
    ensures Names(EntryInfo(s, dead, info)) == Names(info) - dead
  {
    if info != [] {
      var front, last := info[..|info| - 1], info[|info| - 1];
      InfoNames(s, dead, front);
      NamesOneMore(front, last);
      assert info == front + [last];
      NamesOneMore(EntryInfo(s, dead, front), if last.name in s then last.(elem := UInt8) else last);
      assert EntryInfo(s, dead, front) + [] == EntryInfo(s, dead, front);
    }
  }

  lemma EntryKeepsWellFormed(g: Graph, q: Qparams)
    requires WellFormed(g) && Convertible(g, q)
    ensures WellFormed(Converted(g))
  {
    var n := |g.nodes|;
    assert g.nodes[..n] == g.nodes;
    SameInputNames(g);
    OrderedAfter(g, n);
    DefinedAfter(g, n);
    forall t | t in Names(g.outputs) ensures t !in Dead(Stem(g), g.nodes) { OutputIsApart(g, t); }
    InfoNames(Stem(g), Dead(Stem(g), g.nodes), g.info);
  }

  // -------------------------------------------------------------------------
  // Declarations stay true
  // -------------------------------------------------------------------------

  lemma {:induction false} InfoRetyped(g: Graph, q: Qparams, env: Env, env2: Env, info: seq<ValueInfo>)
    requires WellFormed(g) && |g.inputs| == 1 && q.scale > 0.0 && Simulates(g, q, env, env2) && DeclaredIn(env, info)
    ensures DeclaredIn(env2, EntryInfo(Stem(g), Dead(Stem(g), g.nodes), info))
  {
    if info != [] {
      var s, dead := Stem(g), Dead(Stem(g), g.nodes);
      var front, last := info[..|info| - 1], info[|info| - 1];
      InfoRetyped(g, q, env, env2, front);
      if last.name !in dead { LastRetyped(g, q, env, env2, last); }
    }
  }

  lemma LastRetyped(g: Graph, q: Qparams, env: Env, env2: Env, v: ValueInfo)
    requires WellFormed(g) && |g.inputs| == 1 && q.scale > 0.0 && Simulates(g, q, env, env2) && DeclaredIn(env, [v])
    requires v.name !in Dead(Stem(g), g.nodes)
    ensures DeclaredIn(env2, [if v.name in Stem(g) then v.(elem := UInt8) else v])
  {
    assert [v][0] == v;
    if v.name in env2 { KeptIsCarried(g, q, env, env2, v.name); }
  }

  lemma KeptIsCarried(g: Graph, q: Qparams, env: Env, env2: Env, t: string)
    requires WellFormed(g) && |g.inputs| == 1 && q.scale > 0.0 && Simulates(g, q, env, env2)
    requires t in env2 && t !in Dead(Stem(g), g.nodes)
    ensures t in env && env2[t] == Carried(Stem(g), q, t, env[t])
  {
    RedirectOthers(Stem(g), g.nodes, t);
    assert CarriedAt(g, q, env, env2, t);
  }

  lemma InputRetyped(g: Graph, q: Qparams, env: Env, env2: Env)
    requires WellFormed(g) && |g.inputs| == 1 && q.scale > 0.0 && Simulates(g, q, env, env2)
    ensures DeclaredIn(env2, Converted(g).inputs)
  {
    var input := g.inputs[0].name;
    StemNotDead(g, input);
    assert input in env ==> CarriedAt(g, q, env, env2, input);
  }

  lemma OutputsTyped(g: Graph, env: Env, env2: Env)
    requires SameOutputs(g, env, env2) && DeclaredIn(env, g.outputs)
    ensures DeclaredIn(env2, g.outputs)
  {
    forall i | 0 <= i < |g.outputs| && g.outputs[i].name in env2
      ensures env2[g.outputs[i].name].elem == g.outputs[i].elem
    {
      assert g.outputs[i].name in Names(g.outputs);
    }
  }

  // If every declaration of the old graph was the type of what it computed, so
  // is every declaration of the new one.
  lemma EntryKeepsTypes(g: Graph, q: Qparams, k: Kernels, feed: Env)
    requires WellFormed(g) && Convertible(g, q) && q.scale > 0.0 && Feeds(g, feed)
    requires TypesHold(g, Run(k, g, feed))
    requires MovesData(k)
    ensures TypesHold(Converted(g), Run(k, Converted(g), Quantized(g, q, feed)))
  {
    var env, env2 := PartialRun(g, k, feed, |g.nodes|), NewRun(g, q, k, feed, |g.nodes|);
    ConvertibleIsGuarded(g, q);
    RunSimulates(g, q, k, feed, |g.nodes|);
    RunsEnd(g, q, k, feed);
    SimulatedOutputs(g, q, env, env2);
    InputRetyped(g, q, env, env2);
    OutputsTyped(g, env, env2);
    InfoRetyped(g, q, env, env2, g.info);
  }

  // -------------------------------------------------------------------------
  // A guard that never fires
  // -------------------------------------------------------------------------

  ghost predicate ReadOnlyFrom(g: Graph, t: string, i: nat) {
    forall j :: 0 <= j < |g.nodes| && t in g.nodes[j].inputs ==> i <= j
  }

  lemma StemMovesOn(g: Graph, t: string, i: nat) returns (t': string)
    requires WellFormed(g) && |g.inputs| == 1 && StemOk(g) && i < |g.nodes| && t in Stem(g) && ReadOnlyFrom(g, t, i)
    requires !IsEdge(Stem(g), g.nodes[i])
    ensures t' in Stem(g) && ReadOnlyFrom(g, t', i + 1)
  {
    var n := g.nodes[i];
    if t in n.inputs {
      assert StemTensorOk(g, t) && ReaderOk(g, t, n);
      FitsAt(Base(g), g.nodes, i);
      StemClosed(g, i);
      t' := n.outputs[0];
      forall j | 0 <= j < |g.nodes| && t' in g.nodes[j].inputs ensures i + 1 <= j {
        ReadAfterProduced(Base(g), g.nodes, i, j, t');
      }
    } else {
      t' := t;
    }
  }

  lemma {:induction false} StemReachesQuantizer(g: Graph, t: string, i: nat)
    requires WellFormed(g) && |g.inputs| == 1 && StemOk(g) && i <= |g.nodes| && t in Stem(g) && ReadOnlyFrom(g, t, i)
    ensures exists n :: n in g.nodes && IsEdge(Stem(g), n)
    decreases |g.nodes| - i
  {
    assert StemTensorOk(g, t);
    if i < |g.nodes| && !IsEdge(Stem(g), g.nodes[i]) {
      var t' := StemMovesOn(g, t, i);
      StemReachesQuantizer(g, t', i + 1);
    }
  }

  // Once every stem tensor passes its checks, some quantizer ends the stem:
  // the walk's last refusal cannot be reached.
  lemma StemOkReachesQuantizer(g: Graph)
    requires WellFormed(g) && |g.inputs| == 1 && StemOk(g)
    ensures exists n :: n in g.nodes && IsEdge(Stem(g), n)
  {
    StemReachesQuantizer(g, g.inputs[0].name, 0);
  }
}
