/**
 A flat computation graph: named tensors, nodes in an order that defines each
 name before it is read, and what running the graph on a feed computes.
 */
module QdqGraph {
  import opened Common
  import opened QdqCodes

  datatype Node = Node(op: string, attr: string, inputs: seq<string>, outputs: seq<string>)

  datatype ValueInfo = ValueInfo(name: string, elem: Elem)

  datatype Graph = Graph(
    inputs: seq<ValueInfo>, outputs: seq<ValueInfo>, nodes: seq<Node>,
    inits: map<string, Tensor>, info: seq<ValueInfo>)

  const QUANTIZE := "QuantizeLinear"
  const DEQUANTIZE := "DequantizeLinear"

  // The operators the walk from the input crosses.
  predicate Transparent(op: string) {
    op in {"Slice", "Transpose", "Reshape", "Identity", "Squeeze", "Unsqueeze"}
  }

  function Names(s: seq<ValueInfo>): (r: set<string>)
    ensures forall t :: t in r <==> exists i :: 0 <= i < |s| && s[i].name == t
  {
    set i | 0 <= i < |s| :: s[i].name
  }

  lemma NamesOneMore(s: seq<ValueInfo>, v: ValueInfo)
    ensures Names(s + [v]) == Names(s) + {v.name}
  {
    var more := s + [v];
    forall t | t in Names(s) + {v.name} ensures t in Names(more) {
      if t == v.name {
        assert more[|s|].name == t;
      } else {
        var i :| 0 <= i < |s| && s[i].name == t;
        assert more[i].name == t;
      }
    }
  }

  function Elements(s: seq<string>): (r: set<string>)
    ensures forall t :: t in r <==> t in s
  {
    set t | t in s
  }

  // -------------------------------------------------------------------------
  // Meaning
  // -------------------------------------------------------------------------

  type Env = map<string, Tensor>

  type Operands = seq<Option<Tensor>>

  // What operators compute: any function of their operands, output by output;
  // and which elements the ones that only move data choose.
  datatype Kernels = Kernels(
    compute: (string, string, Operands, nat) -> Tensor,
    select: (string, string, seq<nat>, Operands, nat) -> Selection)

  // Six operators of ONNX, by their own definitions, move data: each computes a
  // choice of elements of its first operand, by that operand's shape and the
  // other operands.
  predicate IsMovement(op: string) {
    || op == "Slice" || op == "Transpose" || op == "Reshape"
    || op == "Identity" || op == "Squeeze" || op == "Unsqueeze"
  }

  ghost predicate MovesData(k: Kernels) {
    forall op: string, attr: string, ins: Operands, i: nat :: IsMovement(op) && ins != [] && ins[0].Some? ==>
      k.compute(op, attr, ins, i) == Selected(k.select(op, attr, ins[0].value.shape, ins[1..], i), ins[0].value)
  }

  function Lookup(env: Env, name: string): Option<Tensor> { if name in env then Some(env[name]) else None }

  function OperandsOf(env: Env, names: seq<string>): (r: Operands)
    ensures |r| == |names|
    ensures forall i :: 0 <= i < |r| ==> r[i] == Lookup(env, names[i])
  {
    seq(|names|, i requires 0 <= i < |names| => Lookup(env, names[i]))
  }

  // Data, a scalar scale, and an explicit scalar uint8 zero point.
  predicate PerTensorU8(ins: Operands) {
    && |ins| >= 3 && ins[0].Some? && ins[1].Some? && ins[2].Some?
    && |ins[1].value.vals| == 1 && |ins[2].value.vals| == 1
    && ins[2].value.elem == UInt8 && ins[1].value.vals[0] > 0.0
  }

  function ParamsIn(ins: Operands): (q: Qparams)
    requires PerTensorU8(ins)
    ensures q.scale > 0.0
  {
    Qparams(ins[1].value.vals[0], ins[2].value.vals[0].Floor)
  }

  function OutputOf(k: Kernels, n: Node, ins: Operands, i: nat): Tensor {
    if n.op == QUANTIZE && PerTensorU8(ins) then Quantize(ins[0].value, ParamsIn(ins))
    else if n.op == DEQUANTIZE && PerTensorU8(ins) then Dequantize(ins[0].value, ParamsIn(ins))
    else k.compute(n.op, n.attr, ins, i)
  }

  function IndexOf(s: seq<string>, t: string): (i: nat)
    requires t in s
    ensures i < |s| && s[i] == t && t !in s[..i]
  {
    if s[0] == t then 0 else 1 + IndexOf(s[1..], t)
  }

  function Bound(k: Kernels, n: Node, ins: Operands): (r: Env)
    ensures r.Keys == Elements(n.outputs)
  {
    map t | t in n.outputs :: OutputOf(k, n, ins, IndexOf(n.outputs, t))
  }

  function Apply(k: Kernels, env: Env, n: Node): (r: Env)
    ensures r.Keys == env.Keys + Elements(n.outputs)
    ensures forall t :: t in env && t !in n.outputs ==> r[t] == env[t]
    ensures forall t :: t in n.outputs ==>
              r[t] == OutputOf(k, n, OperandsOf(env, n.inputs), IndexOf(n.outputs, t))
  {
    env + Bound(k, n, OperandsOf(env, n.inputs))
  }

  function Exec(k: Kernels, env: Env, nodes: seq<Node>): Env {
    if nodes == [] then env else Apply(k, Exec(k, env, nodes[..|nodes| - 1]), nodes[|nodes| - 1])
  }

  lemma ExecOneMore(k: Kernels, env: Env, nodes: seq<Node>, n: Node)
    ensures Exec(k, env, nodes + [n]) == Apply(k, Exec(k, env, nodes), n)
  {
    assert (nodes + [n])[..|nodes|] == nodes;
  }

  // What is in the environment once the graph has run on `feed`.
  function Run(k: Kernels, g: Graph, feed: Env): Env { Exec(k, g.inits + feed, g.nodes) }

  // What is there once its first `i` nodes have.
  function PartialRun(g: Graph, k: Kernels, feed: Env, i: nat): Env
    requires i <= |g.nodes|
  {
    Exec(k, g.inits + feed, g.nodes[..i])
  }

  lemma PartialRunStep(g: Graph, k: Kernels, feed: Env, i: nat)
    requires i < |g.nodes|
    ensures PartialRun(g, k, feed, i + 1) == Apply(k, PartialRun(g, k, feed, i), g.nodes[i])
  {
    assert g.nodes[..i + 1] == g.nodes[..i] + [g.nodes[i]];
    ExecOneMore(k, g.inits + feed, g.nodes[..i], g.nodes[i]);
  }

  // -------------------------------------------------------------------------
  // Well-formed graphs
  // -------------------------------------------------------------------------

  // The names defined once `nodes` have run from `base`.
  function Defined(base: set<string>, nodes: seq<Node>): set<string> {
    if nodes == [] then base
    else Defined(base, nodes[..|nodes| - 1]) + Elements(nodes[|nodes| - 1].outputs)
  }

  lemma DefinedOneMore(base: set<string>, nodes: seq<Node>, n: Node)
    ensures Defined(base, nodes + [n]) == Defined(base, nodes) + Elements(n.outputs)
  {
    assert (nodes + [n])[..|nodes|] == nodes;
  }

  ghost predicate Distinct(s: seq<string>) { forall i, j :: 0 <= i < j < |s| ==> s[i] != s[j] }

  predicate IsEdgeOp(op: string) { op == QUANTIZE || op == DEQUANTIZE }

  ghost predicate NodeOk(n: Node) {
    && n.outputs != [] && "" !in n.outputs && Distinct(n.outputs)
    && (IsEdgeOp(n.op) ==> |n.outputs| == 1 && |n.inputs| >= 2 && n.inputs[0] != "")
  }

  // The node reads what is defined, or nothing, and defines only new names.
  ghost predicate Fits(av: set<string>, n: Node) {
    && NodeOk(n)
    && (forall t :: t in n.inputs ==> t == "" || t in av)
    && (forall t :: t in n.outputs ==> t !in av)
  }

  ghost predicate Ordered(base: set<string>, nodes: seq<Node>) {
    nodes != [] ==>
      Ordered(base, nodes[..|nodes| - 1]) && Fits(Defined(base, nodes[..|nodes| - 1]), nodes[|nodes| - 1])
  }

  lemma OrderedOneMore(base: set<string>, nodes: seq<Node>, n: Node)
    ensures Ordered(base, nodes + [n]) <==> Ordered(base, nodes) && Fits(Defined(base, nodes), n)
  {
    assert (nodes + [n])[..|nodes|] == nodes;
  }

  function Base(g: Graph): set<string> { g.inits.Keys + Names(g.inputs) }

  ghost predicate DistinctNames(s: seq<ValueInfo>) { forall i, j :: 0 <= i < j < |s| ==> s[i].name != s[j].name }

  ghost predicate WellFormed(g: Graph) {
    && "" !in Base(g) && g.inits.Keys !! Names(g.inputs) && DistinctNames(g.inputs)
    && Ordered(Base(g), g.nodes)
    && DistinctNames(g.outputs) && Names(g.outputs) <= Defined(Base(g), g.nodes)
    && Names(g.info) !! Names(g.inputs) + Names(g.outputs)
  }

  // A feed gives every input and nothing else.
  predicate Feeds(g: Graph, feed: Env) { feed.Keys == Names(g.inputs) }

  lemma {:induction false} ExecDefines(k: Kernels, env: Env, nodes: seq<Node>)
    ensures Exec(k, env, nodes).Keys == Defined(env.Keys, nodes)
  {
    if nodes != [] { ExecDefines(k, env, nodes[..|nodes| - 1]); }
  }

  // Names defined before a run keep their tensors through it.
  lemma {:induction false} ExecKeeps(k: Kernels, env: Env, nodes: seq<Node>, t: string)
    requires Ordered(env.Keys, nodes) && t in env
    ensures t in Exec(k, env, nodes) && Exec(k, env, nodes)[t] == env[t]
  {
    if nodes != [] {
      var front := nodes[..|nodes| - 1];
      ExecKeeps(k, env, front, t);
      ExecDefines(k, env, front);
    }
  }

  lemma {:induction false} DefinedGrows(base: set<string>, nodes: seq<Node>, i: nat, j: nat)
    requires i <= j <= |nodes|
    ensures Defined(base, nodes[..i]) <= Defined(base, nodes[..j])
  {
    if i < j {
      DefinedGrows(base, nodes, i, j - 1);
      assert nodes[..j] == nodes[..j - 1] + [nodes[j - 1]];
      DefinedOneMore(base, nodes[..j - 1], nodes[j - 1]);
    }
  }

  lemma {:induction false} FitsAt(base: set<string>, nodes: seq<Node>, i: nat)
    requires Ordered(base, nodes) && i < |nodes|
    ensures Ordered(base, nodes[..i]) && Fits(Defined(base, nodes[..i]), nodes[i])
    decreases |nodes|
  {
    var front := nodes[..|nodes| - 1];
    if i < |front| {
      FitsAt(base, front, i);
      assert front[..i] == nodes[..i];
    }
  }

  lemma DefinedAt(base: set<string>, nodes: seq<Node>, i: nat, t: string)
    requires i < |nodes| && t in nodes[i].outputs
    ensures t in Defined(base, nodes[..i + 1])
  {
    assert nodes[..i + 1] == nodes[..i] + [nodes[i]];
    DefinedOneMore(base, nodes[..i], nodes[i]);
  }

  lemma {:induction false} NamesAreNotEmpty(base: set<string>, nodes: seq<Node>)
    requires "" !in base && Ordered(base, nodes)
    ensures "" !in Defined(base, nodes)
  {
    if nodes != [] { NamesAreNotEmpty(base, nodes[..|nodes| - 1]); }
  }

  // Each name has one producer.
  lemma OneProducer(base: set<string>, nodes: seq<Node>, i: nat, j: nat, t: string)
    requires Ordered(base, nodes) && i < |nodes| && j < |nodes| && t in nodes[i].outputs && t in nodes[j].outputs
    ensures i == j
  {
    if i < j { ProducedOnce(base, nodes, i, j, t); }
    if j < i { ProducedOnce(base, nodes, j, i, t); }
  }

  lemma ProducedOnce(base: set<string>, nodes: seq<Node>, i: nat, j: nat, t: string)
    requires Ordered(base, nodes) && i < j < |nodes| && t in nodes[i].outputs
    ensures t !in nodes[j].outputs
  {
    DefinedAt(base, nodes, i, t);
    DefinedGrows(base, nodes, i + 1, j);
    FitsAt(base, nodes, j);
  }

  // A name is produced before it is read, and no node reads its own outputs.
  lemma ReadAfterProduced(base: set<string>, nodes: seq<Node>, i: nat, j: nat, t: string)
    requires Ordered(base, nodes) && i < |nodes| && j < |nodes| && t in nodes[i].outputs && t in nodes[j].inputs
    ensures i < j
  {
    FitsAt(base, nodes, i);
    FitsAt(base, nodes, j);
    if j <= i { DefinedGrows(base, nodes, j, i); }
  }

  lemma BaseNotProduced(base: set<string>, nodes: seq<Node>, i: nat, t: string)
    requires Ordered(base, nodes) && i < |nodes| && t in base
    ensures t !in nodes[i].outputs
  {
    FitsAt(base, nodes, i);
    DefinedGrows(base, nodes, 0, i);
  }

  // -------------------------------------------------------------------------
  // Runs
  // -------------------------------------------------------------------------

  // A run so far: exactly the defined names, the initializers as given.
  ghost predicate RunsTo(g: Graph, i: nat, env: Env)
    requires i <= |g.nodes|
  {
    env.Keys == Defined(Base(g), g.nodes[..i]) && forall t :: t in g.inits ==> t in env && env[t] == g.inits[t]
  }

  lemma RunStarts(g: Graph, feed: Env)
    requires WellFormed(g) && Feeds(g, feed)
    ensures RunsTo(g, 0, g.inits + feed)
  {
    assert g.nodes[..0] == [];
  }

  lemma RunsOn(g: Graph, k: Kernels, i: nat, env: Env)
    requires WellFormed(g) && i < |g.nodes| && RunsTo(g, i, env)
    ensures RunsTo(g, i + 1, Apply(k, env, g.nodes[i]))
  {
    assert g.nodes[..i + 1] == g.nodes[..i] + [g.nodes[i]];
    DefinedOneMore(Base(g), g.nodes[..i], g.nodes[i]);
    FitsAt(Base(g), g.nodes, i);
  }

  lemma SameOperator(k: Kernels, n: Node, n2: Node, ins: Operands, i: nat)
    requires n2.op == n.op && n2.attr == n.attr
    ensures OutputOf(k, n2, ins, i) == OutputOf(k, n, ins, i)
  {
  }

  // -------------------------------------------------------------------------
  // Edge parameters
  // -------------------------------------------------------------------------

  datatype Refusal =
    | NoZeroPoint | NotInitializers | PerAxis | NotUint8 | BadScale
    | InputCount | InputNotFloat | StemIsOutput(t: string) | NoConsumers(t: string)
    | NonDataSlot(t: string, n: Node) | RemovesOutput(n: Node) | NotTransparent(n: Node) | NoQuantize | Disagree
    | OldOpset | RuntimeQparams | NotDequantized(t: string) | OutputIsRead(t: string) | CodesAreRead(t: string) | NoProducer(t: string)

  // The scale and zero point an edge node would move to the host.
  function ScalarQparams(inits: map<string, Tensor>, n: Node): (r: Result<Qparams, Refusal>)
    ensures r.Ok? ==> r.value.scale > 0.0
  {
    if |n.inputs| < 3 || n.inputs[2] == "" then Err(NoZeroPoint)
    else if n.inputs[1] !in inits || n.inputs[2] !in inits then Err(NotInitializers)
    else
      var scale, zp := inits[n.inputs[1]], inits[n.inputs[2]];
      if |scale.vals| != 1 || |zp.vals| != 1 then Err(PerAxis)
      else if zp.elem != UInt8 then Err(NotUint8)
      else if scale.vals[0] <= 0.0 then Err(BadScale)
      else Ok(Qparams(scale.vals[0], zp.vals[0].Floor))
  }

  // Parameters read off the initializers are the ones the node computes with.
  lemma ParamsAreRead(k: Kernels, g: Graph, env: Env, n: Node)
    requires ScalarQparams(g.inits, n).Ok? && n.inputs[0] in env
    requires forall t :: t in g.inits ==> t in env && env[t] == g.inits[t]
    ensures var ins := OperandsOf(env, n.inputs);
            PerTensorU8(ins) && ParamsIn(ins) == ScalarQparams(g.inits, n).value && ins[0] == Some(env[n.inputs[0]])
  {
  }

  // -------------------------------------------------------------------------
  // Declared types
  // -------------------------------------------------------------------------

  ghost predicate DeclaredIn(env: Env, s: seq<ValueInfo>) {
    forall i :: 0 <= i < |s| && s[i].name in env ==> env[s[i].name].elem == s[i].elem
  }

  // Every declaration of the graph is the type of what the run computed.
  ghost predicate TypesHold(g: Graph, env: Env) {
    DeclaredIn(env, g.inputs) && DeclaredIn(env, g.outputs) && DeclaredIn(env, g.info)
  }
}
