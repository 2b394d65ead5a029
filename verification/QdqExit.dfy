/**
 Exit surgery as a function of the graph, one output at a time, and why the
 host's dequantization of the new outputs is the old outputs.

 Rewriting an output deletes its dequantizer and gives the codes the output's
 name. `OneOutputRewritten` says that nothing else the graph computes changes;
 `StillPending` that the outputs to come are as ready as they were; and
 `SurgeryInduction` that what holds of the first graph and is kept by each
 rewriting holds of the last.
 */
module QdqExit {
  import opened Common
  import opened QdqCodes
  import opened QdqGraph

  // -------------------------------------------------------------------------
  // What is demanded of an output
  // -------------------------------------------------------------------------

  function ProducerOf(nodes: seq<Node>, t: string): Option<Node> {
    if nodes == [] then None
    else
      var last := nodes[|nodes| - 1];
      if t in last.outputs then Some(last) else ProducerOf(nodes[..|nodes| - 1], t)
  }

  predicate Unread(g: Graph, t: string) { forall n :: n in g.nodes ==> t !in n.inputs }

  predicate OnlyReadBy(g: Graph, t: string, d: Node) { forall n :: n in g.nodes && t in n.inputs ==> n == d }

  // What a dequantizer reads.
  function CodesOf(d: Node): string { if d.inputs == [] then "" else d.inputs[0] }

  // The output is dequantized, from codes nothing else reads, by parameters
  // the host can be given.
  predicate OutputOk(g: Graph, t: string) {
    && ProducerOf(g.nodes, t).Some?
    && var d := ProducerOf(g.nodes, t).value;
    && d.op == DEQUANTIZE && d.inputs != [] && OnlyReadBy(g, CodesOf(d), d)
    && ScalarQparams(g.inits, d).Ok?
    && ProducerOf(g.nodes, CodesOf(d)).Some?
  }

  // Nothing reads any output, and every output from the `i`th on is still to
  // be rewritten and can be.
  ghost predicate Pending(g: Graph, i: nat) {
    && (forall j :: 0 <= j < |g.outputs| ==> Unread(g, g.outputs[j].name))
    && (forall j :: i <= j < |g.outputs| ==> OutputOk(g, g.outputs[j].name))
  }

  // The graphs exit surgery accepts.
  ghost predicate Exportable(g: Graph) { Pending(g, 0) }

  // -------------------------------------------------------------------------
  // The graph it makes
  // -------------------------------------------------------------------------

  function Renamed(n: Node, code: string, out: string): Node {
    n.(outputs := seq(|n.outputs|, i requires 0 <= i < |n.outputs| =>
         if n.outputs[i] == code then out else n.outputs[i]))
  }

  function RenameAll(nodes: seq<Node>, code: string, out: string): seq<Node> {
    seq(|nodes|, i requires 0 <= i < |nodes| => Renamed(nodes[i], code, out))
  }

  function Without(nodes: seq<Node>, d: Node): seq<Node> {
    if nodes == [] then []
    else
      var last := nodes[|nodes| - 1];
      Without(nodes[..|nodes| - 1], d) + if last == d then [] else [last]
  }

  function DropInfo(info: seq<ValueInfo>, t: string): seq<ValueInfo> {
    if info == [] then []
    else
      var last := info[|info| - 1];
      DropInfo(info[..|info| - 1], t) + if last.name == t then [] else [last]
  }

  // The nodes with `d` gone and the codes under the output's name.
  function ExitNodes(nodes: seq<Node>, code: string, out: string, d: Node): seq<Node> {
    if nodes == [] then []
    else
      var last := nodes[|nodes| - 1];
      ExitNodes(nodes[..|nodes| - 1], code, out, d) + if last == d then [] else [Renamed(last, code, out)]
  }

  // Deleting the dequantizer and then renaming the codes is that.
  lemma {:induction false} RemoveThenRename(nodes: seq<Node>, code: string, out: string, d: Node)
    ensures RenameAll(Without(nodes, d), code, out) == ExitNodes(nodes, code, out, d)
  {
    if nodes != [] {
      var front, last := nodes[..|nodes| - 1], nodes[|nodes| - 1];
      RemoveThenRename(front, code, out, d);
      assert last != d ==>
        RenameAll(Without(front, d) + [last], code, out)
        == RenameAll(Without(front, d), code, out) + [Renamed(last, code, out)];
    }
  }

  // Rewrite output `i`, whose codes are dequantized by `d`.
  function ExitOne(g: Graph, i: nat, d: Node): Graph
    requires i < |g.outputs|
  {
    var code, out := CodesOf(d), g.outputs[i].name;
    g.(outputs := g.outputs[i := g.outputs[i].(elem := UInt8)],
       nodes := ExitNodes(g.nodes, code, out, d),
       info := DropInfo(g.info, code))
  }

  function DequantizerOf(g: Graph, i: nat): Node
    requires i < |g.outputs|
  {
    var p := ProducerOf(g.nodes, g.outputs[i].name);
    if p.Some? then p.value else Node("", "", [], [])
  }

  // The parameters the host is given for output `i`.
  function ParamsOf(g: Graph, i: nat): Qparams
    requires i < |g.outputs|
  {
    var r := ScalarQparams(g.inits, DequantizerOf(g, i));
    if r.Ok? then r.value else Qparams(1.0, 0)
  }

  // The first `i` outputs rewritten, each by the dequantizer the graph started
  // with.
  function ExitUpTo(g: Graph, i: nat): (c: Graph)
    requires i <= |g.outputs|
    ensures |c.outputs| == |g.outputs|
  {
    if i == 0 then g else ExitOne(ExitUpTo(g, i - 1), i - 1, DequantizerOf(g, i - 1))
  }

  function Exported(g: Graph): Graph { ExitUpTo(g, |g.outputs|) }

  // -------------------------------------------------------------------------
  // Producers
  // -------------------------------------------------------------------------

  lemma {:induction false} ProducerFound(nodes: seq<Node>, t: string) returns (j: nat)
    requires ProducerOf(nodes, t).Some?
    ensures j < |nodes| && nodes[j] == ProducerOf(nodes, t).value && t in nodes[j].outputs
  {
    if t in nodes[|nodes| - 1].outputs {
      j := |nodes| - 1;
    } else {
      j := ProducerFound(nodes[..|nodes| - 1], t);
    }
  }

  lemma {:induction false} ProducerExists(nodes: seq<Node>, t: string)
    requires exists n :: n in nodes && t in n.outputs
    ensures ProducerOf(nodes, t).Some?
  {
    var front, last := nodes[..|nodes| - 1], nodes[|nodes| - 1];
    if t !in last.outputs {
      assert forall n :: n in nodes ==> n in front || n == last;
      ProducerExists(front, t);
    }
  }

  // In a well-formed graph the producer of a name is the node that makes it.
  lemma ProducerUnique(base: set<string>, nodes: seq<Node>, i: nat, t: string)
    requires Ordered(base, nodes) && i < |nodes| && t in nodes[i].outputs
    ensures ProducerOf(nodes, t) == Some(nodes[i])
  {
    ProducerExists(nodes, t);
    var j := ProducerFound(nodes, t);
    OneProducer(base, nodes, i, j, t);
  }

  // -------------------------------------------------------------------------
  // One output rewritten
  // -------------------------------------------------------------------------

  // One step of the surgery: output `i` of a well-formed graph, ready for it.
  ghost predicate Ready(g: Graph, i: nat, d: Node) {
    && WellFormed(g) && i < |g.outputs| && Pending(g, i)
    && ProducerOf(g.nodes, g.outputs[i].name) == Some(d)
  }

  lemma ReadyFacts(g: Graph, i: nat, d: Node) returns (j: nat)
    requires Ready(g, i, d)
    ensures d.op == DEQUANTIZE && d.inputs != [] && CodesOf(d) != "" && ScalarQparams(g.inits, d).Ok?
    ensures j < |g.nodes| && g.nodes[j] == d && d.outputs == [g.outputs[i].name]
    ensures OnlyReadBy(g, CodesOf(d), d) && Unread(g, g.outputs[i].name)
    ensures CodesOf(d) != g.outputs[i].name
    ensures forall o :: 0 <= o < |g.outputs| ==> g.outputs[o].name != CodesOf(d)
  {
    assert OutputOk(g, g.outputs[i].name);
    j := ProducerFound(g.nodes, g.outputs[i].name);
    FitsAt(Base(g), g.nodes, j);
    assert CodesOf(d) in d.inputs && d in g.nodes;
    forall o | 0 <= o < |g.outputs| ensures g.outputs[o].name != CodesOf(d) {
      assert Unread(g, g.outputs[o].name);
    }
  }

  // A node that stays reads neither the codes nor the output.
  lemma OthersReadNeither(g: Graph, i: nat, d: Node, n: Node)
    requires Ready(g, i, d) && n in g.nodes && n != d
    ensures CodesOf(d) !in n.inputs && g.outputs[i].name !in n.inputs
  {
    var j := ReadyFacts(g, i, d);
  }

  // Nor does it make the output.
  lemma OthersDoNotMakeOutput(g: Graph, i: nat, d: Node, m: nat)
    requires Ready(g, i, d) && m < |g.nodes| && g.nodes[m] != d
    ensures g.outputs[i].name !in g.nodes[m].outputs
  {
    if g.outputs[i].name in g.nodes[m].outputs { ProducerUnique(Base(g), g.nodes, m, g.outputs[i].name); }
  }

  // -------------------------------------------------------------------------
  // The simulation
  // -------------------------------------------------------------------------

  // The new environment: the codes under the output's name, everything else
  // as it was.
  ghost predicate Rewrites(code: string, out: string, q: Qparams, env: Env, env2: Env) {
    && code !in env2
    && (code in env <==> out in env2)
    && (code in env ==> env2[out] == env[code])
    && (out in env ==> code in env && env[out] == Dequantize(env[code], q))
    && (forall t :: t != code && t != out ==> (t in env <==> t in env2))
    && (forall t :: t in env && t != code && t != out ==> env2[t] == env[t])
  }

  lemma UnreadOperandsAgree(code: string, out: string, q: Qparams, env: Env, env2: Env, names: seq<string>)
    requires Rewrites(code, out, q, env, env2) && code !in names && out !in names
    ensures OperandsOf(env2, names) == OperandsOf(env, names)
  {
    forall j: nat | j < |names| ensures Lookup(env2, names[j]) == Lookup(env, names[j]) {
      assert names[j] != code && names[j] != out;
    }
  }

  lemma RenamedIndex(n: Node, code: string, out: string, t: string)
    requires Distinct(n.outputs) && out !in n.outputs && t in Renamed(n, code, out).outputs
    ensures var from := if t == out then code else t;
            from in n.outputs && IndexOf(Renamed(n, code, out).outputs, t) == IndexOf(n.outputs, from)
  {
    var r, from := Renamed(n, code, out), if t == out then code else t;
    var i := IndexOf(r.outputs, t);
    assert n.outputs[i] == from;
    var j := IndexOf(n.outputs, from);
    assert i == j;
  }

  lemma RenamedOutputs(n: Node, code: string, out: string)
    requires out !in n.outputs && code != out
    ensures forall t :: t in Renamed(n, code, out).outputs <==>
              t != code && (t in n.outputs || (t == out && code in n.outputs))
  {
    var r := Renamed(n, code, out);
    forall t | t in n.outputs ensures (if t == code then out else t) in r.outputs {
      var i :| 0 <= i < |n.outputs| && n.outputs[i] == t;
      assert r.outputs[i] == if t == code then out else t;
    }
  }

  lemma KeptOutput(k: Kernels, env: Env, env2: Env, n: Node, code: string, out: string, t: string)
    requires Distinct(n.outputs) && out !in n.outputs && t in Renamed(n, code, out).outputs
    requires OperandsOf(env2, n.inputs) == OperandsOf(env, n.inputs)
    ensures var from := if t == out then code else t;
            from in n.outputs && Apply(k, env2, Renamed(n, code, out))[t] == Apply(k, env, n)[from]
  {
    RenamedIndex(n, code, out, t);
    SameOperator(k, n, Renamed(n, code, out), OperandsOf(env, n.inputs), IndexOf(Renamed(n, code, out).outputs, t));
  }

  // A node that stays keeps the two runs related.
  lemma KeptNodeRewrites(k: Kernels, q: Qparams, env: Env, env2: Env, n: Node, code: string, out: string)
    requires Rewrites(code, out, q, env, env2) && code != out
    requires NodeOk(n) && code !in n.inputs && out !in n.inputs && out !in n.outputs
    requires forall t :: t in n.outputs ==> t !in env
    ensures Rewrites(code, out, q, Apply(k, env, n), Apply(k, env2, Renamed(n, code, out)))
  {
    var after, after2 := Apply(k, env, n), Apply(k, env2, Renamed(n, code, out));
    UnreadOperandsAgree(code, out, q, env, env2, n.inputs);
    RenamedOutputs(n, code, out);
    forall t | t in Renamed(n, code, out).outputs
      ensures var from := if t == out then code else t; from in n.outputs && after2[t] == after[from]
    {
      KeptOutput(k, env, env2, n, code, out, t);
    }
  }

  // The deleted dequantizer computed what the host now computes.
  lemma DequantizerRewrites(g: Graph, k: Kernels, q: Qparams, env: Env, env2: Env, d: Node, out: string)
    requires d.op == DEQUANTIZE && d.inputs != [] && d.outputs == [out] && ScalarQparams(g.inits, d) == Ok(q)
    requires CodesOf(d) in env && CodesOf(d) != out
    requires forall t :: t in g.inits ==> t in env && env[t] == g.inits[t]
    requires Rewrites(CodesOf(d), out, q, env, env2) && out !in env
    ensures Rewrites(CodesOf(d), out, q, Apply(k, env, d), env2)
  {
    ParamsAreRead(k, g, env, d);
    assert Apply(k, env, d)[out] == Dequantize(env[CodesOf(d)], q);
  }

  // -------------------------------------------------------------------------
  // Whole runs
  // -------------------------------------------------------------------------

  lemma ExitOneMore(nodes: seq<Node>, code: string, out: string, d: Node, m: nat)
    requires m < |nodes|
    ensures nodes[..m + 1] == nodes[..m] + [nodes[m]]
    ensures ExitNodes(nodes[..m + 1], code, out, d)
         == ExitNodes(nodes[..m], code, out, d) + if nodes[m] == d then [] else [Renamed(nodes[m], code, out)]
  {
    assert nodes[..m + 1][..m] == nodes[..m];
  }

  function NewRun(g: Graph, k: Kernels, feed: Env, code: string, out: string, d: Node, m: nat): Env
    requires m <= |g.nodes|
  {
    Exec(k, g.inits + feed, ExitNodes(g.nodes[..m], code, out, d))
  }

  lemma RunSteps(g: Graph, k: Kernels, feed: Env, code: string, out: string, d: Node, m: nat)
    requires m < |g.nodes|
    ensures PartialRun(g, k, feed, m + 1) == Apply(k, PartialRun(g, k, feed, m), g.nodes[m])
    ensures var env2 := NewRun(g, k, feed, code, out, d, m);
            NewRun(g, k, feed, code, out, d, m + 1)
            == if g.nodes[m] == d then env2 else Apply(k, env2, Renamed(g.nodes[m], code, out))
  {
    var before := ExitNodes(g.nodes[..m], code, out, d);
    ExitOneMore(g.nodes, code, out, d, m);
    assert before + [] == before;
    PartialRunStep(g, k, feed, m);
    ExecOneMore(k, g.inits + feed, before, Renamed(g.nodes[m], code, out));
  }

  // The codes and the output are both made by nodes.
  lemma BothProduced(g: Graph, i: nat, d: Node)
    requires Ready(g, i, d)
    ensures CodesOf(d) !in Base(g) && g.outputs[i].name !in Base(g)
  {
    assert OutputOk(g, g.outputs[i].name);
    var j := ProducerFound(g.nodes, g.outputs[i].name);
    var m := ProducerFound(g.nodes, CodesOf(d));
    if CodesOf(d) in Base(g) { BaseNotProduced(Base(g), g.nodes, m, CodesOf(d)); }
    if g.outputs[i].name in Base(g) { BaseNotProduced(Base(g), g.nodes, j, g.outputs[i].name); }
  }

  lemma NodeRewrites(g: Graph, i: nat, d: Node, k: Kernels, q: Qparams, env: Env, env2: Env, m: nat)
    requires Ready(g, i, d) && ScalarQparams(g.inits, d) == Ok(q)
    requires m < |g.nodes| && RunsTo(g, m, env)
    requires Rewrites(CodesOf(d), g.outputs[i].name, q, env, env2)
    ensures Rewrites(CodesOf(d), g.outputs[i].name, q, Apply(k, env, g.nodes[m]),
              if g.nodes[m] == d then env2 else Apply(k, env2, Renamed(g.nodes[m], CodesOf(d), g.outputs[i].name)))
  {
    var n, code, out := g.nodes[m], CodesOf(d), g.outputs[i].name;
    var j := ReadyFacts(g, i, d);
    FitsAt(Base(g), g.nodes, m);
    if n == d {
      assert code in d.inputs && out in d.outputs;
      DequantizerRewrites(g, k, q, env, env2, d, out);
    } else {
      OthersReadNeither(g, i, d, n);
      OthersDoNotMakeOutput(g, i, d, m);
      KeptNodeRewrites(k, q, env, env2, n, code, out);
    }
  }

  lemma {:induction false} RunRewrites(g: Graph, i: nat, d: Node, k: Kernels, q: Qparams, feed: Env, m: nat)
    requires Ready(g, i, d) && ScalarQparams(g.inits, d) == Ok(q) && Feeds(g, feed)
    requires m <= |g.nodes|
    ensures RunsTo(g, m, PartialRun(g, k, feed, m))
    ensures var code, out := CodesOf(d), g.outputs[i].name;
            Rewrites(code, out, q, PartialRun(g, k, feed, m), NewRun(g, k, feed, code, out, d, m))
  {
    var code, out := CodesOf(d), g.outputs[i].name;
    if m == 0 {
      assert g.nodes[..0] == [];
      RunStarts(g, feed);
      BothProduced(g, i, d);
    } else {
      var p: nat := m - 1;
      RunRewrites(g, i, d, k, q, feed, p);
      RunSteps(g, k, feed, code, out, d, p);
      RunsOn(g, k, p, PartialRun(g, k, feed, p));
      NodeRewrites(g, i, d, k, q, PartialRun(g, k, feed, p), NewRun(g, k, feed, code, out, d, p), p);
    }
  }

  // Rewriting one output hands over its codes under its own name and changes
  // nothing else the graph computes.
  lemma OneOutputRewritten(g: Graph, i: nat, d: Node, k: Kernels, q: Qparams, feed: Env)
    requires Ready(g, i, d) && ScalarQparams(g.inits, d) == Ok(q) && Feeds(g, feed)
    ensures Rewrites(CodesOf(d), g.outputs[i].name, q, Run(k, g, feed), Run(k, ExitOne(g, i, d), feed))
    ensures Run(k, g, feed).Keys == Defined(Base(g), g.nodes)
  {
    RunRewrites(g, i, d, k, q, feed, |g.nodes|);
    assert g.nodes[..|g.nodes|] == g.nodes;
  }

  // -------------------------------------------------------------------------
  // The result is well-formed
  // -------------------------------------------------------------------------

  function Swapped(s: set<string>, code: string, out: string): set<string> {
    s - {code, out} + if code in s then {out} else {}
  }

  lemma SwapOneMore(s: set<string>, n: Node, code: string, out: string)
    requires code != out && out !in n.outputs
    ensures Swapped(s + Elements(n.outputs), code, out)
         == Swapped(s, code, out) + Elements(Renamed(n, code, out).outputs)
  {
    RenamedOutputs(n, code, out);
  }

  lemma RenamedFits(s: set<string>, n: Node, code: string, out: string)
    requires Fits(s, n) && code != out && out != "" && out !in n.outputs && code !in n.inputs && out !in n.inputs
    ensures Fits(Swapped(s, code, out), Renamed(n, code, out))
  {
    var r := Renamed(n, code, out);
    RenamedOutputs(n, code, out);
    forall a, b | 0 <= a < b < |r.outputs| ensures r.outputs[a] != r.outputs[b] {
      assert n.outputs[a] != n.outputs[b] && n.outputs[a] != out && n.outputs[b] != out;
    }
  }

  lemma {:induction false} ExitOrdered(g: Graph, i: nat, d: Node, m: nat)
    requires Ready(g, i, d) && m <= |g.nodes|
    ensures var code, out := CodesOf(d), g.outputs[i].name;
            && Ordered(Base(g), ExitNodes(g.nodes[..m], code, out, d))
            && Defined(Base(g), ExitNodes(g.nodes[..m], code, out, d))
               == Swapped(Defined(Base(g), g.nodes[..m]), code, out)
  {
    var code, out, base := CodesOf(d), g.outputs[i].name, Base(g);
    if m == 0 {
      assert g.nodes[..0] == [];
      BothProduced(g, i, d);
    } else {
      var p: nat := m - 1;
      ExitOrdered(g, i, d, p);
      ExitOneMore(g.nodes, code, out, d, p);
      OneNodeOrdered(g, i, d, p);
    }
  }

  lemma OneNodeOrdered(g: Graph, i: nat, d: Node, p: nat)
    requires Ready(g, i, d) && p < |g.nodes|
    requires var code, out := CodesOf(d), g.outputs[i].name;
             && Ordered(Base(g), ExitNodes(g.nodes[..p], code, out, d))
             && Defined(Base(g), ExitNodes(g.nodes[..p], code, out, d))
                == Swapped(Defined(Base(g), g.nodes[..p]), code, out)
    ensures var code, out := CodesOf(d), g.outputs[i].name;
            var more := ExitNodes(g.nodes[..p], code, out, d)
                        + if g.nodes[p] == d then [] else [Renamed(g.nodes[p], code, out)];
            && Ordered(Base(g), more)
            && Defined(Base(g), more) == Swapped(Defined(Base(g), g.nodes[..p] + [g.nodes[p]]), code, out)
  {
    var code, out, base, n := CodesOf(d), g.outputs[i].name, Base(g), g.nodes[p];
    var before := ExitNodes(g.nodes[..p], code, out, d);
    var j := ReadyFacts(g, i, d);
    FitsAt(base, g.nodes, p);
    DefinedOneMore(base, g.nodes[..p], n);
    if n == d {
      assert before + [] == before;
      assert code in d.inputs;
    } else {
      OthersReadNeither(g, i, d, n);
      OthersDoNotMakeOutput(g, i, d, p);
      OutputNamed(g, i);
      RenamedFits(Defined(base, g.nodes[..p]), n, code, out);
      SwapOneMore(Defined(base, g.nodes[..p]), n, code, out);
      OrderedOneMore(base, before, Renamed(n, code, out));
      DefinedOneMore(base, before, Renamed(n, code, out));
    }
  }

  lemma OutputNamed(g: Graph, i: nat)
    requires WellFormed(g) && i < |g.outputs|
    ensures g.outputs[i].name != "" && g.outputs[i].name in Defined(Base(g), g.nodes)
  {
    NamesAreNotEmpty(Base(g), g.nodes);
    assert g.outputs[i].name in Names(g.outputs);
  }

  lemma {:induction false} DropNames(info: seq<ValueInfo>, t: string)
    ensures Names(DropInfo(info, t)) <= Names(info)
  {
    if info != [] {
      var front, last := info[..|info| - 1], info[|info| - 1];
      DropNames(front, t);
      assert info == front + [last];
      NamesOneMore(front, last);
      NamesOneMore(DropInfo(front, t), last);
      assert DropInfo(front, t) + [] == DropInfo(front, t);
    }
  }

  lemma SameNames(s: seq<ValueInfo>, i: nat)
    requires i < |s|
    ensures Names(s[i := s[i].(elem := UInt8)]) == Names(s)
    ensures DistinctNames(s) ==> DistinctNames(s[i := s[i].(elem := UInt8)])
  {
    var r := s[i := s[i].(elem := UInt8)];
    forall t | t in Names(s) ensures t in Names(r) {
      var j :| 0 <= j < |s| && s[j].name == t;
      assert r[j].name == t;
    }
    forall t | t in Names(r) ensures t in Names(s) {
      var j :| 0 <= j < |r| && r[j].name == t;
      assert s[j].name == t;
    }
  }

  lemma ExitOneWellFormed(g: Graph, i: nat, d: Node)
    requires Ready(g, i, d)
    ensures WellFormed(ExitOne(g, i, d))
  {
    var c, code, out := ExitOne(g, i, d), CodesOf(d), g.outputs[i].name;
    assert g.nodes[..|g.nodes|] == g.nodes;
    var j := ReadyFacts(g, i, d);
    ExitOrdered(g, i, d, |g.nodes|);
    SameNames(g.outputs, i);
    OutputNamed(g, i);
    DropNames(g.info, code);
    CodesDefined(g, i, d);
    forall t | t in Names(g.outputs) ensures t in Swapped(Defined(Base(g), g.nodes), code, out) {
      var o :| 0 <= o < |g.outputs| && g.outputs[o].name == t;
    }
  }

  lemma CodesDefined(g: Graph, i: nat, d: Node)
    requires Ready(g, i, d)
    ensures CodesOf(d) in Defined(Base(g), g.nodes)
  {
    var j := ReadyFacts(g, i, d);
    FitsAt(Base(g), g.nodes, j);
    DefinedGrows(Base(g), g.nodes, j, |g.nodes|);
    assert g.nodes[..|g.nodes|] == g.nodes && CodesOf(d) in d.inputs;
  }

  // -------------------------------------------------------------------------
  // The outputs still to come stay ready
  // -------------------------------------------------------------------------

  lemma {:induction false} ExitMembers(nodes: seq<Node>, code: string, out: string, d: Node, n: Node)
    ensures n in ExitNodes(nodes, code, out, d) <==> exists m :: m in nodes && m != d && n == Renamed(m, code, out)
  {
    if nodes != [] {
      var front, last := nodes[..|nodes| - 1], nodes[|nodes| - 1];
      ExitMembers(front, code, out, d, n);
      assert forall m :: m in nodes <==> m in front || m == last;
    }
  }

  // A name other than the two keeps its producer, renamed.
  lemma KeptProducer(g: Graph, i: nat, d: Node, n: Node, t: string)
    requires Ready(g, i, d) && n in g.nodes && n != d && t in n.outputs && t != CodesOf(d)
    ensures ProducerOf(ExitOne(g, i, d).nodes, t) == Some(Renamed(n, CodesOf(d), g.outputs[i].name))
  {
    var c, code, out := ExitOne(g, i, d), CodesOf(d), g.outputs[i].name;
    var r := Renamed(n, code, out);
    var k: nat :| k < |n.outputs| && n.outputs[k] == t;
    assert r.outputs[k] == t;
    ExitMembers(g.nodes, code, out, d, r);
    var p: nat :| p < |c.nodes| && c.nodes[p] == r;
    ExitOneWellFormed(g, i, d);
    ProducerUnique(Base(g), c.nodes, p, t);
  }

  // The dequantizer of another output is left as it is.
  lemma OtherDequantizer(g: Graph, i: nat, d: Node, j: nat, e: Node)
    requires Ready(g, i, d) && i < j < |g.outputs| && ProducerOf(g.nodes, g.outputs[j].name) == Some(e)
    ensures e in g.nodes && e != d && e.inputs != [] && Renamed(e, CodesOf(d), g.outputs[i].name) == e
    ensures g.outputs[j].name in e.outputs && g.outputs[j].name != CodesOf(d)
    ensures e.inputs[0] != CodesOf(d) && e.inputs[0] != g.outputs[i].name
  {
    var a := ReadyFacts(g, i, d);
    assert OutputOk(g, g.outputs[j].name);
    var b := ProducerFound(g.nodes, g.outputs[j].name);
    FitsAt(Base(g), g.nodes, b);
    assert e.outputs == [g.outputs[j].name] && g.outputs[j].name != g.outputs[i].name;
    assert e.inputs[0] in e.inputs;
    assert Renamed(e, CodesOf(d), g.outputs[i].name).outputs == e.outputs;
  }

  lemma StillOk(g: Graph, i: nat, d: Node, j: nat)
    requires Ready(g, i, d) && i < j < |g.outputs|
    ensures OutputOk(ExitOne(g, i, d), g.outputs[j].name)
    ensures ProducerOf(ExitOne(g, i, d).nodes, g.outputs[j].name) == ProducerOf(g.nodes, g.outputs[j].name)
  {
    var c, code, out, t := ExitOne(g, i, d), CodesOf(d), g.outputs[i].name, g.outputs[j].name;
    assert OutputOk(g, t);
    var e := ProducerOf(g.nodes, t).value;
    OtherDequantizer(g, i, d, j, e);
    KeptProducer(g, i, d, e, t);
    var p := ProducerFound(g.nodes, e.inputs[0]);
    var a := ReadyFacts(g, i, d);
    KeptProducer(g, i, d, g.nodes[p], e.inputs[0]);
    forall n | n in c.nodes && e.inputs[0] in n.inputs ensures n == e {
      ExitMembers(g.nodes, code, out, d, n);
    }
  }

  lemma StillUnread(g: Graph, i: nat, d: Node, t: string)
    requires i < |g.outputs| && Unread(g, t)
    ensures Unread(ExitOne(g, i, d), t)
  {
    var c := ExitOne(g, i, d);
    forall n | n in c.nodes ensures t !in n.inputs {
      ExitMembers(g.nodes, CodesOf(d), g.outputs[i].name, d, n);
    }
  }

  lemma StillPending(g: Graph, i: nat, d: Node)
    requires Ready(g, i, d)
    ensures Pending(ExitOne(g, i, d), i + 1)
  {
    var c := ExitOne(g, i, d);
    forall j: nat | j < |g.outputs| ensures Unread(c, c.outputs[j].name) {
      assert Unread(g, g.outputs[j].name);
      StillUnread(g, i, d, g.outputs[j].name);
    }
    forall j: nat | i < j < |g.outputs| ensures OutputOk(c, c.outputs[j].name) { StillOk(g, i, d, j); }
  }

  // -------------------------------------------------------------------------
  // All outputs
  // -------------------------------------------------------------------------

  // `c` is `g` with `i` outputs rewritten: it is well-formed, the rest are
  // ready, and each is still made by the dequantizer it started with.
  ghost predicate Midway(g: Graph, i: nat, c: Graph) {
    && WellFormed(c) && Pending(c, i) && c.inits == g.inits && c.inputs == g.inputs
    && |c.outputs| == |g.outputs|
    && (forall j :: 0 <= j < |g.outputs| ==> c.outputs[j].name == g.outputs[j].name)
    && (forall j :: i <= j < |g.outputs| ==>
          ProducerOf(c.nodes, g.outputs[j].name) == Some(DequantizerOf(g, j)))
  }

  lemma MidwayReady(g: Graph, i: nat, c: Graph)
    requires i < |g.outputs| && Midway(g, i, c)
    ensures Ready(c, i, DequantizerOf(g, i))
  {
  }

  ghost function IsMidway(g: Graph): (nat, Graph) -> bool { (i: nat, c: Graph) => Midway(g, i, c) }

  lemma MidwayStart(g: Graph)
    requires WellFormed(g) && Exportable(g)
    ensures IsMidway(g)(0, g)
  {
    forall j: nat | j < |g.outputs|
      ensures ProducerOf(g.nodes, g.outputs[j].name) == Some(DequantizerOf(g, j))
    {
      assert OutputOk(g, g.outputs[j].name);
    }
  }

  // The graphs the surgery goes through.
  ghost predicate Link(g: Graph, i: nat, c: Graph, next: Graph) {
    i < |g.outputs| == |c.outputs| && next == ExitOne(c, i, DequantizerOf(g, i))
  }

  lemma MidwayLink(g: Graph, i: nat, c: Graph, next: Graph)
    requires Link(g, i, c, next) && IsMidway(g)(i, c)
    ensures IsMidway(g)(i + 1, next)
  {
    var d := DequantizerOf(g, i);
    MidwayReady(g, i, c);
    ExitOneWellFormed(c, i, d);
    StillPending(c, i, d);
    forall j: nat | i < j < |g.outputs|
      ensures ProducerOf(next.nodes, g.outputs[j].name) == Some(DequantizerOf(g, j))
    {
      StillOk(c, i, d, j);
    }
  }

  lemma UpToLink(g: Graph, i: nat, n: nat)
    requires i < |g.outputs| && n == i + 1
    ensures Link(g, i, ExitUpTo(g, i), ExitUpTo(g, n))
  {
  }

  // What holds of the first graph, and of the next one whenever it holds of
  // one, holds of the last.
  lemma SurgeryInduction(g: Graph, holds: (nat, Graph) -> bool, n: nat)
    requires n <= |g.outputs| && holds(0, g)
    requires forall i: nat, c, next :: holds(i, c) && Link(g, i, c, next) ==> holds(i + 1, next)
    ensures holds(n, ExitUpTo(g, n))
  {
    var i, c := 0, g;
    while i < n
      invariant i <= n && c == ExitUpTo(g, i) && holds(i, c)
    {
      UpToLink(g, i, i + 1);
      c := ExitUpTo(g, i + 1);
      i := i + 1;
    }
  }

  lemma AlwaysMidway(g: Graph, n: nat)
    requires WellFormed(g) && Exportable(g) && n <= |g.outputs|
    ensures IsMidway(g)(n, ExitUpTo(g, n))
  {
    MidwayStart(g);
    forall i: nat, c, next | IsMidway(g)(i, c) && Link(g, i, c, next) ensures IsMidway(g)(i + 1, next) {
      MidwayLink(g, i, c, next);
    }
    SurgeryInduction(g, IsMidway(g), n);
  }

  lemma ExitKeepsWellFormed(g: Graph)
    requires WellFormed(g) && Exportable(g)
    ensures WellFormed(Exported(g))
  {
    AlwaysMidway(g, |g.outputs|);
  }

  // The host's view: the outputs rewritten so far hold codes whose values are
  // the old outputs; the others are the old outputs.
  ghost predicate HostReads(g: Graph, i: nat, env: Env, env2: Env)
    requires i <= |g.outputs|
  {
    forall j :: 0 <= j < |g.outputs| ==>
      var t := g.outputs[j].name;
      t in env && t in env2 && env[t] == if j < i then Dequantize(env2[t], ParamsOf(g, j)) else env2[t]
  }

  // The runs of the graphs the surgery goes through, on one feed.
  ghost function RunOf(k: Kernels, feed: Env): Graph -> Env { (c: Graph) => Run(k, c, feed) }

  ghost predicate StepRewrites(g: Graph, i: nat, env: Env, env2: Env) {
    i < |g.outputs| && Rewrites(CodesOf(DequantizerOf(g, i)), g.outputs[i].name, ParamsOf(g, i), env, env2)
  }

  ghost predicate RunsRewrite(g: Graph, runOf: Graph -> Env) {
    forall i: nat, c, next :: IsMidway(g)(i, c) && Link(g, i, c, next) ==> StepRewrites(g, i, runOf(c), runOf(next))
  }

  lemma LinkRewrites(g: Graph, i: nat, c: Graph, next: Graph, k: Kernels, feed: Env)
    requires IsMidway(g)(i, c) && Link(g, i, c, next) && Feeds(g, feed)
    ensures StepRewrites(g, i, Run(k, c, feed), Run(k, next, feed))
  {
    var d := DequantizerOf(g, i);
    MidwayReady(g, i, c);
    var a := ReadyFacts(c, i, d);
    OneOutputRewritten(c, i, d, k, ParamsOf(g, i), feed);
  }

  lemma AllRunsRewrite(g: Graph, k: Kernels, feed: Env)
    requires Feeds(g, feed)
    ensures RunsRewrite(g, RunOf(k, feed))
  {
    forall i: nat, c, next | IsMidway(g)(i, c) && Link(g, i, c, next)
      ensures StepRewrites(g, i, RunOf(k, feed)(c), RunOf(k, feed)(next))
    {
      LinkRewrites(g, i, c, next, k, feed);
    }
  }

  lemma OutputsNotCodes(g: Graph, i: nat, c: Graph)
    requires i < |g.outputs| && IsMidway(g)(i, c)
    ensures DistinctNames(g.outputs)
    ensures forall j :: 0 <= j < |g.outputs| ==> g.outputs[j].name != CodesOf(DequantizerOf(g, i))
  {
    MidwayReady(g, i, c);
    var a := ReadyFacts(c, i, DequantizerOf(g, i));
    assert forall j :: 0 <= j < |g.outputs| ==> c.outputs[j].name == g.outputs[j].name;
  }

  lemma HostReadsExtends(g: Graph, i: nat, c: Graph, env: Env, env2: Env, env3: Env)
    requires i < |g.outputs| && IsMidway(g)(i, c) && HostReads(g, i, env, env2) && StepRewrites(g, i, env2, env3)
    ensures HostReads(g, i + 1, env, env3)
  {
    OutputsNotCodes(g, i, c);
    forall j: nat | j < |g.outputs|
      ensures var t := g.outputs[j].name;
              t in env && t in env3 && env[t] == if j <= i then Dequantize(env3[t], ParamsOf(g, j)) else env3[t]
    {
      assert j != i ==> g.outputs[j].name != g.outputs[i].name;
    }
  }

  ghost function IsRead(g: Graph, runOf: Graph -> Env): (nat, Graph) -> bool {
    (i: nat, c: Graph) => IsMidway(g)(i, c) && i <= |g.outputs| && HostReads(g, i, runOf(g), runOf(c))
  }

  lemma AllRead(g: Graph, runOf: Graph -> Env)
    requires WellFormed(g) && Exportable(g) && RunsRewrite(g, runOf) && HostReads(g, 0, runOf(g), runOf(g))
    ensures HostReads(g, |g.outputs|, runOf(g), runOf(Exported(g)))
  {
    MidwayStart(g);
    forall i: nat, c, next | IsRead(g, runOf)(i, c) && Link(g, i, c, next) ensures IsRead(g, runOf)(i + 1, next) {
      MidwayLink(g, i, c, next);
      HostReadsExtends(g, i, c, runOf(g), runOf(c), runOf(next));
    }
    SurgeryInduction(g, IsRead(g, runOf), |g.outputs|);
  }

  lemma HostReadsStart(g: Graph, k: Kernels, feed: Env)
    requires WellFormed(g) && Feeds(g, feed)
    ensures HostReads(g, 0, Run(k, g, feed), Run(k, g, feed))
  {
    ExecDefines(k, g.inits + feed, g.nodes);
    forall j: nat | j < |g.outputs| ensures g.outputs[j].name in Run(k, g, feed) {
      OutputNamed(g, j);
    }
  }

  // For every operator the surgery does not touch and every feed, dequantizing
  // the new graph's outputs gives the old graph's outputs.
  lemma ExitPreservesMeaning(g: Graph, k: Kernels, feed: Env)
    requires WellFormed(g) && Exportable(g) && Feeds(g, feed)
    ensures HostReads(g, |g.outputs|, Run(k, g, feed), Run(k, Exported(g), feed))
  {
    HostReadsStart(g, k, feed);
    AllRunsRewrite(g, k, feed);
    AllRead(g, RunOf(k, feed));
  }

  // -------------------------------------------------------------------------
  // Declarations stay true
  // -------------------------------------------------------------------------

  // The exit codes from the `i`th on are codes: what an 8-bit dequantizer is
  // given in a valid model.
  ghost predicate CodesFrom(g: Graph, i: nat, env: Env) {
    forall j :: i <= j < |g.outputs| && CodesOf(DequantizerOf(g, j)) in env ==>
      env[CodesOf(DequantizerOf(g, j))].elem == UInt8
  }

  lemma DeclaredElsewhere(code: string, out: string, q: Qparams, env: Env, env2: Env, s: seq<ValueInfo>)
    requires Rewrites(code, out, q, env, env2) && DeclaredIn(env, s) && code !in Names(s) && out !in Names(s)
    ensures DeclaredIn(env2, s)
  {
    forall i | 0 <= i < |s| && s[i].name in env2 ensures env2[s[i].name].elem == s[i].elem {
      assert s[i].name in Names(s);
    }
  }

  lemma {:induction false} DroppedDeclared(env: Env, info: seq<ValueInfo>, t: string)
    requires DeclaredIn(env, info)
    ensures DeclaredIn(env, DropInfo(info, t)) && t !in Names(DropInfo(info, t))
  {
    if info != [] {
      var front, last := info[..|info| - 1], info[|info| - 1];
      DroppedDeclared(env, front, t);
      NamesOneMore(DropInfo(front, t), last);
      assert DropInfo(front, t) + [] == DropInfo(front, t);
    }
  }

  lemma OutputsDeclared(g: Graph, i: nat, d: Node, q: Qparams, env: Env, env2: Env)
    requires Ready(g, i, d) && Rewrites(CodesOf(d), g.outputs[i].name, q, env, env2)
    requires DeclaredIn(env, g.outputs) && (CodesOf(d) in env ==> env[CodesOf(d)].elem == UInt8)
    ensures DeclaredIn(env2, ExitOne(g, i, d).outputs)
  {
    var c := ExitOne(g, i, d);
    var a := ReadyFacts(g, i, d);
    forall j | 0 <= j < |g.outputs| && c.outputs[j].name in env2
      ensures env2[c.outputs[j].name].elem == c.outputs[j].elem
    {
      assert c.outputs[j].name == g.outputs[j].name;
      assert j != i ==> g.outputs[j].name != g.outputs[i].name;
    }
  }

  lemma OneKeepsTypes(g: Graph, i: nat, d: Node, q: Qparams, env: Env, env2: Env)
    requires Ready(g, i, d) && Rewrites(CodesOf(d), g.outputs[i].name, q, env, env2)
    requires TypesHold(g, env) && (CodesOf(d) in env ==> env[CodesOf(d)].elem == UInt8)
    ensures TypesHold(ExitOne(g, i, d), env2)
  {
    var out := g.outputs[i].name;
    OutputsDeclared(g, i, d, q, env, env2);
    BothProduced(g, i, d);
    DeclaredElsewhere(CodesOf(d), out, q, env, env2, g.inputs);
    DroppedDeclared(env, g.info, CodesOf(d));
    DropNames(g.info, CodesOf(d));
    assert out in Names(g.outputs);
    DeclaredElsewhere(CodesOf(d), out, q, env, env2, DropInfo(g.info, CodesOf(d)));
  }

  lemma CodesStay(g: Graph, i: nat, c: Graph, env: Env, env2: Env)
    requires i < |g.outputs| && IsMidway(g)(i, c) && CodesFrom(g, i, env) && StepRewrites(g, i, env, env2)
    ensures CodesFrom(g, i + 1, env2)
  {
    var d := DequantizerOf(g, i);
    MidwayReady(g, i, c);
    forall j: nat | i < j < |g.outputs| && CodesOf(DequantizerOf(g, j)) in env2
      ensures env2[CodesOf(DequantizerOf(g, j))].elem == UInt8
    {
      OtherDequantizer(c, i, d, j, DequantizerOf(g, j));
    }
  }

  lemma TypesKept(g: Graph, i: nat, c: Graph, next: Graph, env: Env, env2: Env)
    requires IsMidway(g)(i, c) && Link(g, i, c, next) && StepRewrites(g, i, env, env2)
    requires TypesHold(c, env) && CodesFrom(g, i, env)
    ensures TypesHold(next, env2)
  {
    MidwayReady(g, i, c);
    OneKeepsTypes(c, i, DequantizerOf(g, i), ParamsOf(g, i), env, env2);
  }

  ghost function IsTyped(g: Graph, runOf: Graph -> Env): (nat, Graph) -> bool {
    (i: nat, c: Graph) => IsMidway(g)(i, c) && TypesHold(c, runOf(c)) && CodesFrom(g, i, runOf(c))
  }

  lemma AllTyped(g: Graph, runOf: Graph -> Env)
    requires WellFormed(g) && Exportable(g) && RunsRewrite(g, runOf)
    requires TypesHold(g, runOf(g)) && CodesFrom(g, 0, runOf(g))
    ensures TypesHold(Exported(g), runOf(Exported(g)))
  {
    MidwayStart(g);
    forall i: nat, c, next | IsTyped(g, runOf)(i, c) && Link(g, i, c, next) ensures IsTyped(g, runOf)(i + 1, next) {
      TypesKept(g, i, c, next, runOf(c), runOf(next));
      CodesStay(g, i, c, runOf(c), runOf(next));
      MidwayLink(g, i, c, next);
    }
    SurgeryInduction(g, IsTyped(g, runOf), |g.outputs|);
  }

  // If every declaration of the old graph was the type of what it computed,
  // and every dequantized output came from codes, every declaration of the new
  // graph is the type of what it computes.
  lemma ExitKeepsTypes(g: Graph, k: Kernels, feed: Env)
    requires WellFormed(g) && Exportable(g) && Feeds(g, feed)
    requires TypesHold(g, Run(k, g, feed)) && CodesFrom(g, 0, Run(k, g, feed))
    ensures TypesHold(Exported(g), Run(k, Exported(g), feed))
  {
    AllRunsRewrite(g, k, feed);
    AllTyped(g, RunOf(k, feed));
  }
}
