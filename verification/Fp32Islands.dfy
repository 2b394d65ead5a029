/**
 The FP32 regions of a quantized graph: union-find with path halving over the
 nodes the execution provider cannot fuse, against connected components
 defined by paths.

 An omitted optional input or output is spelled with the empty name. The
 program looks that name up like any other, so it can join nodes that share no
 tensor; when it does is stated exactly.
 */
module Fp32Islands {
  import opened Common

  datatype Node = Node(op: string, inputs: seq<string>, outputs: seq<string>)

  // -------------------------------------------------------------------------
  // Which nodes run in FP32
  // -------------------------------------------------------------------------

  // The last node that lists `name` as an output.
  function ProducerOf(nodes: seq<Node>, name: string): (r: Option<nat>)
    ensures r.Some? ==> r.value < |nodes| && name in nodes[r.value].outputs
    ensures r.None? <==> forall n :: n in nodes ==> name !in n.outputs
    ensures r.Some? ==> forall k :: r.value < k < |nodes| ==> name !in nodes[k].outputs
  {
    if nodes == [] then None
    else if name in nodes[|nodes| - 1].outputs then Some(|nodes| - 1)
    else ProducerOf(nodes[..|nodes| - 1], name)
  }

  predicate FeedsFrom(nodes: seq<Node>, node: Node, i: nat)
    requires i < |node.inputs|
  {
    node.inputs[i] != "" && ProducerOf(nodes, node.inputs[i]).Some?
  }

  // As the program looks consumers up: by any output name, the empty one too.
  predicate Consumes(c: Node, node: Node) {
    exists o :: 0 <= o < |node.outputs| && node.outputs[o] in c.inputs
  }

  // `c` reads a tensor `node` makes.
  predicate ReadsTensor(c: Node, node: Node) {
    exists o :: 0 <= o < |node.outputs| && node.outputs[o] != "" && node.outputs[o] in c.inputs
  }

  // At least one produced input, all of them dequantized.
  predicate Dequantized(nodes: seq<Node>, node: Node) {
    && (exists i :: 0 <= i < |node.inputs| && FeedsFrom(nodes, node, i))
    && (forall i :: 0 <= i < |node.inputs| && FeedsFrom(nodes, node, i) ==>
          nodes[ProducerOf(nodes, node.inputs[i]).value].op == "DequantizeLinear")
  }

  // The program's test for the DQ -> op -> Q bracket: dequantized inputs, and
  // at least one consumer, all of them quantizing.
  predicate Fused(nodes: seq<Node>, node: Node) {
    && Dequantized(nodes, node)
    && (exists k :: 0 <= k < |nodes| && Consumes(nodes[k], node))
    && (forall k :: 0 <= k < |nodes| && Consumes(nodes[k], node) ==> nodes[k].op == "QuantizeLinear")
  }

  // The bracket itself: the consumers are those that read a tensor.
  predicate Bracketed(nodes: seq<Node>, node: Node) {
    && Dequantized(nodes, node)
    && (exists k :: 0 <= k < |nodes| && ReadsTensor(nodes[k], node))
    && (forall k :: 0 <= k < |nodes| && ReadsTensor(nodes[k], node) ==> nodes[k].op == "QuantizeLinear")
  }

  predicate OmitsInput(c: Node) { "" in c.inputs }

  // What the nodes that omit an input must be for `node`'s omitted output not
  // to be mistaken for one they read: quantizers all, if every real reader is
  // one; and none of them, or not all of them, if there is no real reader.
  predicate OmissionsHarmless(nodes: seq<Node>, node: Node) {
    "" in node.outputs && Dequantized(nodes, node) ==>
      if exists k :: 0 <= k < |nodes| && ReadsTensor(nodes[k], node) then
        (forall k :: 0 <= k < |nodes| && ReadsTensor(nodes[k], node) ==> nodes[k].op == "QuantizeLinear")
        ==> forall k :: 0 <= k < |nodes| && OmitsInput(nodes[k]) ==> nodes[k].op == "QuantizeLinear"
      else
        (exists k :: 0 <= k < |nodes| && OmitsInput(nodes[k]))
        ==> exists k :: 0 <= k < |nodes| && OmitsInput(nodes[k]) && nodes[k].op != "QuantizeLinear"
  }

  lemma ConsumesIff(c: Node, node: Node)
    ensures Consumes(c, node) <==> ReadsTensor(c, node) || ("" in node.outputs && OmitsInput(c))
  {
    if "" in node.outputs && OmitsInput(c) {
      var o :| 0 <= o < |node.outputs| && node.outputs[o] == "";
      assert node.outputs[o] in c.inputs;
    }
  }

  // The program's test is the bracket exactly when omissions are harmless; in
  // particular for every node that names all its outputs.
  lemma FusedIsBracketedIff(nodes: seq<Node>, node: Node)
    ensures (Fused(nodes, node) <==> Bracketed(nodes, node)) <==> OmissionsHarmless(nodes, node)
    ensures "" !in node.outputs ==> (Fused(nodes, node) <==> Bracketed(nodes, node))
  {
    forall k | 0 <= k < |nodes|
      ensures Consumes(nodes[k], node) <==> ReadsTensor(nodes[k], node) || ("" in node.outputs && OmitsInput(nodes[k]))
    {
      ConsumesIff(nodes[k], node);
    }
  }

  // The last node that lists the name is the one at `k`.
  predicate LastToMake(nodes: seq<Node>, name: string, k: nat) {
    k < |nodes| && name in nodes[k].outputs && forall j :: k < j < |nodes| ==> name !in nodes[j].outputs
  }

  ghost predicate MadeLastBy(nodes: seq<Node>, name: string, op: string) {
    exists k: nat :: LastToMake(nodes, name, k) && nodes[k].op == op
  }

  predicate HasMaker(nodes: seq<Node>, name: string) { exists n :: n in nodes && name in n.outputs }

  // What it takes to be dequantized: some named input has a maker, and every one
  // that has is made, last, by a dequantizer.
  lemma DequantizedMeans(nodes: seq<Node>, node: Node)
    ensures Dequantized(nodes, node)
       <==> && (exists i :: 0 <= i < |node.inputs| && node.inputs[i] != "" && HasMaker(nodes, node.inputs[i]))
            && (forall i :: 0 <= i < |node.inputs| && node.inputs[i] != "" && HasMaker(nodes, node.inputs[i]) ==>
                  MadeLastBy(nodes, node.inputs[i], "DequantizeLinear"))
  {
    forall i: nat | i < |node.inputs|
      ensures FeedsFrom(nodes, node, i) <==> node.inputs[i] != "" && HasMaker(nodes, node.inputs[i])
      ensures FeedsFrom(nodes, node, i) ==>
                (nodes[ProducerOf(nodes, node.inputs[i]).value].op == "DequantizeLinear"
                 <==> MadeLastBy(nodes, node.inputs[i], "DequantizeLinear"))
    {
      MadeLastIff(nodes, node.inputs[i], "DequantizeLinear");
    }
  }

  lemma MadeLastIff(nodes: seq<Node>, name: string, op: string)
    ensures var p := ProducerOf(nodes, name);
            && (p.Some? <==> HasMaker(nodes, name))
            && (p.Some? ==> (nodes[p.value].op == op <==> MadeLastBy(nodes, name, op)))
  {
    var p := ProducerOf(nodes, name);
    if p.Some? {
      assert nodes[p.value] in nodes && LastToMake(nodes, name, p.value);
      if k: nat :| LastToMake(nodes, name, k) && nodes[k].op == op { OneLast(nodes, name, k, p.value); }
    }
  }

  lemma OneLast(nodes: seq<Node>, name: string, j: nat, k: nat)
    requires LastToMake(nodes, name, j) && LastToMake(nodes, name, k)
    ensures j == k
  {
  }

  const UNFUSED: Node := Node("Relu", ["d"], ["r", ""])

  const OMITTING: seq<Node> := [
    Node("DequantizeLinear", ["c"], ["d"]), UNFUSED, Node("QuantizeLinear", ["r"], ["q"]),
    Node("Resize", ["y", "", "s"], ["z"])]

  lemma UnfusedIsDequantized()
    ensures Dequantized(OMITTING, UNFUSED)
  {
    assert OMITTING[..3][..2][..1] == [OMITTING[0]];
    assert OMITTING[0].outputs[0] == "d" && ProducerOf(OMITTING, "d") == Some(0);
    assert FeedsFrom(OMITTING, UNFUSED, 0);
  }

  lemma UnfusedReaders(k: nat)
    requires k < |OMITTING|
    ensures ReadsTensor(OMITTING[k], UNFUSED) <==> k == 2
  {
    assert OMITTING[2].inputs[0] == "r" == UNFUSED.outputs[0];
  }

  // A bracketed node the program takes for unfused: it omits an output, and
  // some node that is no quantizer omits an input.
  lemma OmissionUnfuses()
    ensures Bracketed(OMITTING, UNFUSED) && !Fused(OMITTING, UNFUSED)
  {
    UnfusedIsDequantized();
    UnfusedReaders(2);
    forall k: nat | k < |OMITTING| ensures ReadsTensor(OMITTING[k], UNFUSED) <==> k == 2 { UnfusedReaders(k); }
    assert OMITTING[3].inputs[1] == "" == UNFUSED.outputs[1] && Consumes(OMITTING[3], UNFUSED);
  }

  predicate RunsFloat(nodes: seq<Node>, node: Node) {
    node.op !in {"QuantizeLinear", "DequantizeLinear", "Cast"} && !Fused(nodes, node)
  }

  function FloatsUpTo(nodes: seq<Node>, n: nat): seq<Node>
    requires n <= |nodes|
  {
    if n == 0 then []
    else FloatsUpTo(nodes, n - 1) + if RunsFloat(nodes, nodes[n - 1]) then [nodes[n - 1]] else []
  }

  // What one node's inputs lead to, by position among the float nodes: every
  // name is looked up, the empty one too.
  function Producers(floats: seq<Node>, node: Node, upTo: nat): set<nat>
    requires upTo <= |node.inputs|
  {
    set i | 0 <= i < upTo && ProducerOf(floats, node.inputs[i]).Some? :: ProducerOf(floats, node.inputs[i]).value
  }

  function LookupsUpTo(floats: seq<Node>, n: nat): set<(nat, nat)>
    requires n <= |floats|
  {
    set a, b | 0 <= a < n && b in Producers(floats, floats[a], |floats[a].inputs|) :: (a, b)
  }

  // The pairs the program unites.
  function Lookups(floats: seq<Node>): set<(nat, nat)> { LookupsUpTo(floats, |floats|) }

  predicate ReadsFrom(floats: seq<Node>, a: nat, b: nat)
    requires a < |floats|
  {
    exists i :: 0 <= i < |floats[a].inputs| && floats[a].inputs[i] != "" && ProducerOf(floats, floats[a].inputs[i]) == Some(b)
  }

  // The producer-consumer edges: a tensor passes from `b` to `a`.
  function Edges(floats: seq<Node>): set<(nat, nat)> {
    set a: nat, b: nat | a < |floats| && b < |floats| && ReadsFrom(floats, a, b) :: (a, b)
  }

  // A node that omits an input, and the last node that omits an output.
  function Omissions(floats: seq<Node>): set<(nat, nat)> {
    set a: nat, b: nat |
      a < |floats| && b < |floats| && OmitsInput(floats[a]) && ProducerOf(floats, "") == Some(b) :: (a, b)
  }

  lemma LookupsAreEdges(floats: seq<Node>)
    ensures Lookups(floats) == Edges(floats) + Omissions(floats)
  {
    forall a: nat, b: nat ensures (a, b) in Lookups(floats) <==> (a, b) in Edges(floats) + Omissions(floats) {
      if (a, b) in Lookups(floats) {
        var i :| 0 <= i < |floats[a].inputs| && ProducerOf(floats, floats[a].inputs[i]) == Some(b);
        assert floats[a].inputs[i] != "" ==> ReadsFrom(floats, a, b);
      }
      if (a, b) in Edges(floats) {
        var i :| 0 <= i < |floats[a].inputs| && floats[a].inputs[i] != ""
              && ProducerOf(floats, floats[a].inputs[i]) == Some(b);
        assert b in Producers(floats, floats[a], |floats[a].inputs|);
      }
      if (a, b) in Omissions(floats) {
        var i :| 0 <= i < |floats[a].inputs| && floats[a].inputs[i] == "";
        assert b in Producers(floats, floats[a], |floats[a].inputs|);
      }
    }
  }

  // -------------------------------------------------------------------------
  // Connectivity
  // -------------------------------------------------------------------------

  predicate Adjacent(edges: set<(nat, nat)>, x: nat, y: nat) { (x, y) in edges || (y, x) in edges }

  ghost predicate IsPath(edges: set<(nat, nat)>, p: seq<nat>, x: nat, y: nat) {
    && |p| > 0 && p[0] == x && p[|p| - 1] == y
    && forall k :: 0 <= k < |p| - 1 ==> Adjacent(edges, p[k], p[k + 1])
  }

  ghost predicate Connected(edges: set<(nat, nat)>, x: nat, y: nat) {
    exists p :: IsPath(edges, p, x, y)
  }

  lemma ConnectedSelf(edges: set<(nat, nat)>, x: nat)
    ensures Connected(edges, x, x)
  {
    assert IsPath(edges, [x], x, x);
  }

  lemma ConnectedAcross(edges: set<(nat, nat)>, x: nat, y: nat)
    requires Adjacent(edges, x, y)
    ensures Connected(edges, x, y)
  {
    assert IsPath(edges, [x, y], x, y);
  }

  lemma ConnectedTrans(edges: set<(nat, nat)>, x: nat, y: nat, z: nat)
    requires Connected(edges, x, y) && Connected(edges, y, z)
    ensures Connected(edges, x, z)
  {
    var p :| IsPath(edges, p, x, y);
    var q :| IsPath(edges, q, y, z);
    var r := p + q[1..];
    forall k | 0 <= k < |r| - 1 ensures Adjacent(edges, r[k], r[k + 1]) {
      if k >= |p| - 1 { assert r[k] == q[k - |p| + 1]; }
    }
    assert IsPath(edges, r, x, z);
  }

  lemma ConnectedMono(edges: set<(nat, nat)>, more: set<(nat, nat)>, x: nat, y: nat)
    requires edges <= more && Connected(edges, x, y)
    ensures Connected(more, x, y)
  {
    var p :| IsPath(edges, p, x, y);
    forall k | 0 <= k < |p| - 1 ensures Adjacent(more, p[k], p[k + 1]) {
      assert Adjacent(edges, p[k], p[k + 1]);
    }
    assert IsPath(more, p, x, y);
  }

  // A labelling every edge respects is constant on connected nodes.
  lemma {:induction false} ConnectedSameLabel(edges: set<(nat, nat)>, lab: seq<nat>, p: seq<nat>, x: nat, y: nat)
    requires IsPath(edges, p, x, y)
    requires forall a, b :: (a, b) in edges ==> a < |lab| && b < |lab| && lab[a] == lab[b]
    requires x < |lab|
    ensures y < |lab| && lab[x] == lab[y]
    decreases |p|
  {
    if |p| > 1 {
      assert Adjacent(edges, p[0], p[0 + 1]);
      assert IsPath(edges, p[1..], p[1], y) by {
        forall k | 0 <= k < |p[1..]| - 1 ensures Adjacent(edges, p[1..][k], p[1..][k + 1]) {
          assert Adjacent(edges, p[k + 1], p[k + 1 + 1]);
        }
      }
      ConnectedSameLabel(edges, lab, p[1..], p[1], y);
    }
  }

  // -------------------------------------------------------------------------
  // The forest
  // -------------------------------------------------------------------------

  // `rank` grows along parent links, so there is no cycle but at the roots.
  ghost predicate Forest(parent: seq<nat>, rank: seq<nat>, bound: nat) {
    && |rank| == |parent|
    && forall x :: 0 <= x < |parent| ==>
         && parent[x] < |parent| && rank[x] < bound
         && (parent[x] != x ==> rank[x] < rank[parent[x]])
  }

  // `root[x]` is where following parents from `x` ends.
  ghost predicate RootMap(parent: seq<nat>, root: seq<nat>) {
    && |root| == |parent|
    && forall x :: 0 <= x < |parent| ==> RootAt(parent, root, x)
  }

  ghost predicate RootAt(parent: seq<nat>, root: seq<nat>, x: nat)
    requires |root| == |parent| && x < |parent|
  {
    && parent[x] < |parent| && root[x] < |parent|
    && parent[root[x]] == root[x]
    && root[parent[x]] == root[x]
    && (parent[x] == x ==> root[x] == x)
  }

  // A forest has one root map: the definition leaves no choice.
  lemma {:induction false} RootUnique(parent: seq<nat>, rank: seq<nat>, bound: nat, r1: seq<nat>, r2: seq<nat>, x: nat)
    requires Forest(parent, rank, bound) && RootMap(parent, r1) && RootMap(parent, r2) && x < |parent|
    ensures r1[x] == r2[x]
    decreases bound - rank[x]
  {
    assert RootAt(parent, r1, x) && RootAt(parent, r2, x);
    if parent[x] != x {
      RootUnique(parent, rank, bound, r1, r2, parent[x]);
    }
  }

  lemma HalvingKeeps(parent: seq<nat>, rank: seq<nat>, bound: nat, root: seq<nat>, x: nat)
    requires Forest(parent, rank, bound) && RootMap(parent, root)
    requires x < |parent| && parent[x] != x
    ensures var halved := parent[x := parent[parent[x]]];
            Forest(halved, rank, bound) && RootMap(halved, root)
  {
    var up := parent[parent[x]];
    var halved := parent[x := up];
    assert RootAt(parent, root, x) && RootAt(parent, root, parent[x]);
    assert up != x && rank[x] < rank[up];
    forall y | 0 <= y < |parent| ensures RootAt(halved, root, y) {
      assert RootAt(parent, root, y) && RootAt(parent, root, root[y]);
    }
  }

  // Find the root of `x`, pointing every second node on the way at its
  // grandparent. No node's root changes.
  method Find(parent: array<nat>, x: nat, ghost rank: seq<nat>, ghost bound: nat, ghost root: seq<nat>)
    returns (r: nat)
    requires x < parent.Length
    requires Forest(parent[..], rank, bound) && RootMap(parent[..], root)
    modifies parent
    ensures Forest(parent[..], rank, bound) && RootMap(parent[..], root)
    ensures r == root[x] && r < parent.Length && parent[r] == r
  {
    r := x;
    while parent[r] != r
      invariant r < parent.Length && root[r] == root[x]
      invariant Forest(parent[..], rank, bound) && RootMap(parent[..], root)
      decreases bound - rank[r]
    {
      ghost var before := parent[..];
      assert RootAt(before, root, r) && RootAt(before, root, before[r]);
      HalvingKeeps(before, rank, bound, root, r);
      parent[r] := parent[parent[r]];
      assert parent[..] == before[r := before[before[r]]];
      r := parent[r];
    }
    assert RootAt(parent[..], root, r);
  }

  // -------------------------------------------------------------------------
  // Joining two trees
  // -------------------------------------------------------------------------

  function Relabel(root: seq<nat>, a: nat, b: nat): (r: seq<nat>)
    ensures |r| == |root|
    ensures forall x :: 0 <= x < |root| ==> r[x] == if root[x] == a then b else root[x]
  {
    seq(|root|, x requires 0 <= x < |root| => if root[x] == a then b else root[x])
  }

  lemma LinkKeepsForest(parent: seq<nat>, rank: seq<nat>, bound: nat, a: nat, b: nat)
    requires Forest(parent, rank, bound) && a < |parent| && b < |parent| && a != b
    requires parent[a] == a && parent[b] == b
    ensures Forest(parent[a := b], rank[b := Max(rank[b], rank[a] + 1)], bound + 1)
  {
  }

  lemma LinkRoots(parent: seq<nat>, root: seq<nat>, a: nat, b: nat)
    requires RootMap(parent, root) && a < |parent| && b < |parent| && a != b
    requires parent[a] == a && parent[b] == b
    ensures RootMap(parent[a := b], Relabel(root, a, b))
  {
    var linked, roots := parent[a := b], Relabel(root, a, b);
    assert RootAt(parent, root, a) && RootAt(parent, root, b);
    forall x | 0 <= x < |parent| ensures RootAt(linked, roots, x) {
      assert RootAt(parent, root, x);
    }
  }

  // The labels are the components of the edges seen so far.
  ghost predicate LabelsComponents(root: seq<nat>, edges: set<(nat, nat)>) {
    && (forall a, b :: (a, b) in edges ==> a < |root| && b < |root|)
    && (forall x, y :: 0 <= x < |root| && 0 <= y < |root| ==> (root[x] == root[y] <==> Connected(edges, x, y)))
  }

  lemma SingletonsAreComponents(root: seq<nat>)
    requires forall x :: 0 <= x < |root| ==> root[x] == x
    ensures LabelsComponents(root, {})
  {
    forall x, y | 0 <= x < |root| && 0 <= y < |root| ensures root[x] == root[y] <==> Connected({}, x, y) {
      ConnectedSelf({}, x);
      if Connected({}, x, y) {
        var p :| IsPath({}, p, x, y);
        ConnectedSameLabel({}, root, p, x, y);
      }
    }
  }

  lemma RelabelIsComponents(root: seq<nat>, edges: set<(nat, nat)>, u: nat, v: nat)
    requires LabelsComponents(root, edges) && u < |root| && v < |root|
    ensures LabelsComponents(Relabel(root, root[u], root[v]), edges + {(u, v)})
  {
    var more, lab := edges + {(u, v)}, Relabel(root, root[u], root[v]);
    forall x, y | 0 <= x < |root| && 0 <= y < |root| ensures lab[x] == lab[y] <==> Connected(more, x, y) {
      if lab[x] == lab[y] {
        JoinedConnected(root, edges, u, v, x, y);
      }
      if Connected(more, x, y) {
        var p :| IsPath(more, p, x, y);
        forall a, b | (a, b) in more ensures a < |lab| && b < |lab| && lab[a] == lab[b] {
          if (a, b) in edges {
            ConnectedAcross(edges, a, b);
            assert root[a] == root[b];
          }
        }
        ConnectedSameLabel(more, lab, p, x, y);
      }
    }
  }

  lemma JoinedConnected(root: seq<nat>, edges: set<(nat, nat)>, u: nat, v: nat, x: nat, y: nat)
    requires LabelsComponents(root, edges) && u < |root| && v < |root| && x < |root| && y < |root|
    requires Relabel(root, root[u], root[v])[x] == Relabel(root, root[u], root[v])[y]
    ensures Connected(edges + {(u, v)}, x, y)
  {
    var more := edges + {(u, v)};
    if root[x] == root[y] {
      ConnectedMono(edges, more, x, y);
    } else if root[x] == root[u] {
      ConnectedMono(edges, more, x, u);
      ConnectedMono(edges, more, v, y);
      ConnectedAcross(more, u, v);
      ConnectedTrans(more, x, u, v);
      ConnectedTrans(more, x, v, y);
    } else {
      ConnectedMono(edges, more, x, v);
      ConnectedMono(edges, more, u, y);
      ConnectedAcross(more, v, u);
      ConnectedTrans(more, x, v, u);
      ConnectedTrans(more, x, u, y);
    }
  }

  // -------------------------------------------------------------------------
  // The regions
  // -------------------------------------------------------------------------

  // What the union loop maintains.
  ghost predicate UnionFind(parent: seq<nat>, rank: seq<nat>, bound: nat, root: seq<nat>, edges: set<(nat, nat)>) {
    Forest(parent, rank, bound) && RootMap(parent, root) && LabelsComponents(root, edges)
  }

  // Join the trees of `u` and `v`.
  method Union(parent: array<nat>, u: nat, v: nat,
               ghost rank: seq<nat>, ghost bound: nat, ghost root: seq<nat>, ghost edges: set<(nat, nat)>)
    returns (ghost rank': seq<nat>, ghost bound': nat, ghost root': seq<nat>)
    requires u < parent.Length && v < parent.Length
    requires UnionFind(parent[..], rank, bound, root, edges)
    modifies parent
    ensures UnionFind(parent[..], rank', bound', root', edges + {(u, v)})
  {
    var a := Find(parent, u, rank, bound, root);
    assert a == root[u] && parent[a] == a;
    var b := Find(parent, v, rank, bound, root);
    assert RootAt(parent[..], root, u);
    RelabelIsComponents(root, edges, u, v);
    rank', bound', root' := rank, bound, root;
    if a != b {
      ghost var before := parent[..];
      LinkKeepsForest(before, rank, bound, a, b);
      LinkRoots(before, root, a, b);
      parent[a] := b;
      assert parent[..] == before[a := b];
      rank', bound', root' := rank[b := Max(rank[b], rank[a] + 1)], bound + 1, Relabel(root, a, b);
    } else {
      assert Relabel(root, a, b) == root;
    }
  }

  function NodeEdges(floats: seq<Node>, n: nat, upTo: nat): set<(nat, nat)>
    requires n < |floats| && upTo <= |floats[n].inputs|
  {
    set b | b in Producers(floats, floats[n], upTo) :: (n, b)
  }

  lemma NextInput(floats: seq<Node>, n: nat, i: nat)
    requires n < |floats| && i < |floats[n].inputs|
    ensures var p := ProducerOf(floats, floats[n].inputs[i]);
            NodeEdges(floats, n, i + 1) == NodeEdges(floats, n, i) + if p.Some? then {(n, p.value)} else {}
  {
    NextProducer(floats, floats[n], i);
  }

  lemma NextProducer(floats: seq<Node>, node: Node, i: nat)
    requires i < |node.inputs|
    ensures var p := ProducerOf(floats, node.inputs[i]);
            Producers(floats, node, i + 1) == Producers(floats, node, i) + if p.Some? then {p.value} else {}
  {
    var more := Producers(floats, node, i + 1);
    assert Producers(floats, node, i) <= more;
    forall x | x in more ensures x in Producers(floats, node, i) || ProducerOf(floats, node.inputs[i]) == Some(x) {
      var j :| 0 <= j < i + 1 && ProducerOf(floats, node.inputs[j]) == Some(x);
      assert j < i || j == i;
    }
  }

  lemma NextNode(floats: seq<Node>, n: nat)
    requires n < |floats|
    ensures LookupsUpTo(floats, n + 1) == LookupsUpTo(floats, n) + NodeEdges(floats, n, |floats[n].inputs|)
  {
  }

  // Every producer-consumer edge of one node.
  method UnionInputs(floats: seq<Node>, n: nat, parent: array<nat>,
                     ghost rank: seq<nat>, ghost bound: nat, ghost root: seq<nat>, ghost edges: set<(nat, nat)>)
    returns (ghost rank': seq<nat>, ghost bound': nat, ghost root': seq<nat>)
    requires n < |floats| == parent.Length
    requires UnionFind(parent[..], rank, bound, root, edges)
    modifies parent
    ensures UnionFind(parent[..], rank', bound', root', edges + NodeEdges(floats, n, |floats[n].inputs|))
  {
    rank', bound', root' := rank, bound, root;
    assert edges + NodeEdges(floats, n, 0) == edges;
    for i := 0 to |floats[n].inputs|
      invariant UnionFind(parent[..], rank', bound', root', edges + NodeEdges(floats, n, i))
    {
      rank', bound', root' := UnionInput(floats, n, i, parent, rank', bound', root', edges);
    }
  }

  method UnionInput(floats: seq<Node>, n: nat, i: nat, parent: array<nat>,
                    ghost rank: seq<nat>, ghost bound: nat, ghost root: seq<nat>, ghost edges: set<(nat, nat)>)
    returns (ghost rank': seq<nat>, ghost bound': nat, ghost root': seq<nat>)
    requires n < |floats| == parent.Length && i < |floats[n].inputs|
    requires UnionFind(parent[..], rank, bound, root, edges + NodeEdges(floats, n, i))
    modifies parent
    ensures UnionFind(parent[..], rank', bound', root', edges + NodeEdges(floats, n, i + 1))
  {
    rank', bound', root' := rank, bound, root;
    ghost var seen := edges + NodeEdges(floats, n, i);
    var p := ProducerOf(floats, floats[n].inputs[i]);
    NextInput(floats, n, i);
    if p.Some? {
      rank', bound', root' := Union(parent, n, p.value, rank, bound, root, seen);
      assert edges + NodeEdges(floats, n, i + 1) == seen + {(n, p.value)};
    } else {
      assert edges + NodeEdges(floats, n, i + 1) == seen;
    }
  }

  // The trees of the float nodes after every producer-consumer edge.
  method Components(floats: seq<Node>) returns (parent: array<nat>,
                                                ghost rank: seq<nat>, ghost bound: nat, ghost root: seq<nat>)
    ensures fresh(parent) && parent.Length == |floats|
    ensures UnionFind(parent[..], rank, bound, root, Lookups(floats))
  {
    parent := new nat[|floats|](i => i);
    rank, bound, root := seq(|floats|, _ => 0), 1, seq(|floats|, i => i);
    SingletonsAreComponents(root);
    assert LookupsUpTo(floats, 0) == {};
    for n := 0 to |floats|
      invariant UnionFind(parent[..], rank, bound, root, LookupsUpTo(floats, n))
    {
      rank, bound, root := UnionInputs(floats, n, parent, rank, bound, root, LookupsUpTo(floats, n));
      NextNode(floats, n);
    }
  }

  // One group per root seen, each listing its nodes in order.
  ghost predicate Grouped(root: seq<nat>, n: nat, keys: seq<nat>, groups: map<nat, seq<nat>>)
    requires n <= |root|
  {
    && (forall k :: k in keys <==> k in groups)
    && (forall x: nat :: x < n ==> root[x] in groups)
    && (forall k :: k in groups ==> GroupOf(root, n, k, groups[k]))
    && (forall i, j :: 0 <= i < j < |keys| ==> Before(groups, keys[i], keys[j]))
  }

  ghost predicate GroupOf(root: seq<nat>, n: nat, k: nat, group: seq<nat>)
    requires n <= |root|
  {
    && group != [] && Sorted(group)
    && forall x: nat :: x in group <==> x < n && root[x] == k
  }

  predicate Before(groups: map<nat, seq<nat>>, k: nat, m: nat) {
    k in groups && m in groups && groups[k] != [] && groups[m] != [] && groups[k][0] < groups[m][0]
  }

  predicate Sorted(s: seq<nat>) { forall i, j :: 0 <= i < j < |s| ==> s[i] < s[j] }

  predicate InSome(regions: seq<seq<nat>>, x: nat) { exists r :: 0 <= r < |regions| && x in regions[r] }

  // The regions are exactly the connected components.
  ghost predicate AreComponents(regions: seq<seq<nat>>, n: nat, edges: set<(nat, nat)>) {
    && (forall r :: 0 <= r < |regions| ==> regions[r] != [] && Sorted(regions[r]))
    && (forall r, x :: 0 <= r < |regions| && x in regions[r] ==> x < n)
    && (forall x: nat :: x < n ==> InSome(regions, x))
    && (forall r, x, y :: 0 <= r < |regions| && x in regions[r] && 0 <= y < n ==>
          (y in regions[r] <==> Connected(edges, x, y)))
    && (forall r, s :: 0 <= r < s < |regions| ==> regions[r][0] < regions[s][0])
  }

  lemma GroupGrows(root: seq<nat>, n: nat, keys: seq<nat>, groups: map<nat, seq<nat>>)
    requires n < |root| && Grouped(root, n, keys, groups) && root[n] in groups
    ensures Grouped(root, n + 1, keys, groups[root[n] := groups[root[n]] + [n]])
  {
    var grown := groups[root[n] := groups[root[n]] + [n]];
    forall k | k in grown ensures GroupOf(root, n + 1, k, grown[k]) {
      assert GroupOf(root, n, k, groups[k]);
      if k == root[n] { SortedAppend(groups[k], n); }
    }
    forall i, j | 0 <= i < j < |keys| ensures Before(grown, keys[i], keys[j]) {
      assert Before(groups, keys[i], keys[j]);
    }
  }

  lemma SortedAppend(s: seq<nat>, n: nat)
    requires Sorted(s) && forall x :: x in s ==> x < n
    ensures Sorted(s + [n])
  {
    forall i, j | 0 <= i < j < |s| + 1 ensures (s + [n])[i] < (s + [n])[j] {
      if j == |s| { assert s[i] in s; }
    }
  }

  lemma GroupStarts(root: seq<nat>, n: nat, keys: seq<nat>, groups: map<nat, seq<nat>>)
    requires n < |root| && Grouped(root, n, keys, groups) && root[n] !in groups
    ensures Grouped(root, n + 1, keys + [root[n]], groups[root[n] := [n]])
  {
    var grown, all := groups[root[n] := [n]], keys + [root[n]];
    forall k | k in grown ensures GroupOf(root, n + 1, k, grown[k]) {
      if k != root[n] { assert GroupOf(root, n, k, groups[k]); }
    }
    forall i, j | 0 <= i < j < |all| ensures Before(grown, all[i], all[j]) {
      if j < |keys| {
        assert Before(groups, keys[i], keys[j]);
      } else {
        assert keys[i] in groups;
        assert GroupOf(root, n, keys[i], groups[keys[i]]);
        assert groups[keys[i]][0] in groups[keys[i]];
      }
    }
  }

  lemma GroupsAreComponents(root: seq<nat>, keys: seq<nat>, groups: map<nat, seq<nat>>, regions: seq<seq<nat>>,
                            edges: set<(nat, nat)>)
    requires Grouped(root, |root|, keys, groups) && LabelsComponents(root, edges)
    requires |regions| == |keys| && forall i :: 0 <= i < |keys| ==> keys[i] in groups && regions[i] == groups[keys[i]]
    ensures AreComponents(regions, |root|, edges)
  {
    forall x: nat | x < |root| ensures InSome(regions, x) {
      var i :| 0 <= i < |keys| && keys[i] == root[x];
      assert GroupOf(root, |root|, keys[i], groups[keys[i]]);
      assert x in regions[i];
    }
    forall r, s | 0 <= r < s < |regions| ensures regions[r] != [] && regions[s] != [] && regions[r][0] < regions[s][0] {
      assert Before(groups, keys[r], keys[s]);
    }
    forall r | 0 <= r < |regions| ensures regions[r] != [] && Sorted(regions[r]) {
      assert GroupOf(root, |root|, keys[r], groups[keys[r]]);
    }
    forall r, x: nat | 0 <= r < |regions| && x in regions[r] ensures x < |root| && root[x] == keys[r] {
      assert GroupOf(root, |root|, keys[r], groups[keys[r]]);
    }
    forall r, x: nat, y: nat | 0 <= r < |regions| && x in regions[r] && y < |root|
      ensures y in regions[r] <==> Connected(edges, x, y)
    {
      assert GroupOf(root, |root|, keys[r], groups[keys[r]]);
      assert root[x] == root[y] <==> Connected(edges, x, y);
    }
  }

  method Fp32Regions(nodes: seq<Node>) returns (floats: seq<Node>, regions: seq<seq<nat>>)
    ensures floats == FloatsUpTo(nodes, |nodes|)
    ensures AreComponents(regions, |floats|, Lookups(floats))
    ensures AreComponents(regions, |floats|, Edges(floats)) <==> OmissionsJoinNothing(floats)
    ensures (forall n :: n in nodes ==> "" !in n.outputs) ==>
              floats == UnbracketedUpTo(nodes, |nodes|) && AreComponents(regions, |floats|, Edges(floats))
  {
    floats := [];
    for n := 0 to |nodes|
      invariant floats == FloatsUpTo(nodes, n)
    {
      if RunsFloat(nodes, nodes[n]) { floats := floats + [nodes[n]]; }
    }
    ghost var rank, bound, root;
    var parent;
    parent, rank, bound, root := Components(floats);
    var keys: seq<nat> := [];
    var groups: map<nat, seq<nat>> := map[];
    for n := 0 to |floats|
      invariant UnionFind(parent[..], rank, bound, root, Lookups(floats))
      invariant Grouped(root, n, keys, groups)
    {
      var r := Find(parent, n, rank, bound, root);
      if r in groups {
        GroupGrows(root, n, keys, groups);
        groups := groups[r := groups[r] + [n]];
      } else {
        GroupStarts(root, n, keys, groups);
        keys := keys + [r];
        groups := groups[r := [n]];
      }
    }
    regions := seq(|keys|, i requires 0 <= i < |keys| && keys[i] in groups => groups[keys[i]]);
    GroupsAreComponents(root, keys, groups, regions, Lookups(floats));
    RegionsAreEdgeComponentsIff(floats, regions);
    if forall n :: n in nodes ==> "" !in n.outputs { AllNamed(nodes, |nodes|); }
  }

  // Every node that omits an input is connected, tensor by tensor, with the
  // node its omission is looked up to.
  ghost predicate OmissionsJoinNothing(floats: seq<Node>) {
    forall a, b :: (a, b) in Omissions(floats) ==> Connected(Edges(floats), a, b)
  }

  // The regions of the lookups are the components of the producer-consumer
  // edges exactly when the omissions among the lookups join nothing.
  lemma RegionsAreEdgeComponentsIff(floats: seq<Node>, regions: seq<seq<nat>>)
    requires AreComponents(regions, |floats|, Lookups(floats))
    ensures AreComponents(regions, |floats|, Edges(floats)) <==> OmissionsJoinNothing(floats)
  {
    var all, edges := Lookups(floats), Edges(floats);
    LookupsAreEdges(floats);
    forall a, b | (a, b) in edges ensures Connected(edges, a, b) { ConnectedAcross(edges, a, b); }
    if OmissionsJoinNothing(floats) {
      forall x: nat, y: nat ensures Connected(all, x, y) <==> Connected(edges, x, y) {
        SameConnections(all, edges, x, y);
      }
    }
    if AreComponents(regions, |floats|, edges) {
      forall a, b | (a, b) in Omissions(floats) ensures Connected(edges, a, b) {
        ConnectedAcross(all, a, b);
        assert InSome(regions, a);
      }
    }
  }

  // Edges that only join what is joined add no connection.
  lemma SameConnections(all: set<(nat, nat)>, edges: set<(nat, nat)>, x: nat, y: nat)
    requires edges <= all && forall a, b :: (a, b) in all ==> Connected(edges, a, b)
    ensures Connected(all, x, y) <==> Connected(edges, x, y)
  {
    if Connected(edges, x, y) { ConnectedMono(edges, all, x, y); }
    if p :| IsPath(all, p, x, y) { PathStaysConnected(all, edges, p, x, y); }
  }

  lemma ConnectedBack(edges: set<(nat, nat)>, x: nat, y: nat)
    requires Connected(edges, x, y)
    ensures Connected(edges, y, x)
  {
    var p :| IsPath(edges, p, x, y);
    var r := seq(|p|, i requires 0 <= i < |p| => p[|p| - 1 - i]);
    forall k | 0 <= k < |r| - 1 ensures Adjacent(edges, r[k], r[k + 1]) {
      var m := |p| - 2 - k;
      assert Adjacent(edges, p[m], p[m + 1]);
    }
    assert IsPath(edges, r, y, x);
  }

  lemma {:induction false} PathStaysConnected(all: set<(nat, nat)>, edges: set<(nat, nat)>, p: seq<nat>, x: nat, y: nat)
    requires IsPath(all, p, x, y) && forall a, b :: (a, b) in all ==> Connected(edges, a, b)
    ensures Connected(edges, x, y)
    decreases |p|
  {
    if |p| == 1 {
      ConnectedSelf(edges, x);
    } else {
      assert Adjacent(all, p[0], p[0 + 1]);
      if (p[1], p[0]) in all { ConnectedBack(edges, p[1], p[0]); }
      PathTail(all, p, x, y);
      PathStaysConnected(all, edges, p[1..], p[1], y);
      ConnectedTrans(edges, x, p[1], y);
    }
  }

  lemma PathTail(edges: set<(nat, nat)>, p: seq<nat>, x: nat, y: nat)
    requires IsPath(edges, p, x, y) && |p| > 1
    ensures IsPath(edges, p[1..], p[1], y)
  {
    forall k | 0 <= k < |p[1..]| - 1 ensures Adjacent(edges, p[1..][k], p[1..][k + 1]) {
      assert Adjacent(edges, p[k + 1], p[k + 1 + 1]);
    }
  }

  // The nodes outside every bracket.
  function UnbracketedUpTo(nodes: seq<Node>, n: nat): seq<Node>
    requires n <= |nodes|
  {
    if n == 0 then []
    else
      var node := nodes[n - 1];
      UnbracketedUpTo(nodes, n - 1)
      + if node.op !in {"QuantizeLinear", "DequantizeLinear", "Cast"} && !Bracketed(nodes, node) then [node] else []
  }

  // The check a caller can make: where every output is named, the float nodes
  // are the unbracketed ones and no lookup is an omission.
  lemma {:induction false} AllNamed(nodes: seq<Node>, n: nat)
    requires n <= |nodes| && forall m :: m in nodes ==> "" !in m.outputs
    ensures FloatsUpTo(nodes, n) == UnbracketedUpTo(nodes, n)
    ensures OmissionsJoinNothing(FloatsUpTo(nodes, n))
  {
    if n > 0 {
      AllNamed(nodes, n - 1);
      FusedIsBracketedIff(nodes, nodes[n - 1]);
    }
    FloatsAreNodes(nodes, n);
    assert ProducerOf(FloatsUpTo(nodes, n), "").None?;
  }

  lemma {:induction false} FloatsAreNodes(nodes: seq<Node>, n: nat)
    requires n <= |nodes|
    ensures forall m :: m in FloatsUpTo(nodes, n) ==> m in nodes
  {
    if n > 0 { FloatsAreNodes(nodes, n - 1); }
  }

  // Two nodes that share no tensor, joined by an omitted output and an omitted
  // input.
  const SEPARATE: seq<Node> := [Node("Dropout", ["x"], ["a", ""]), Node("Resize", ["y", "", "s"], ["b"])]

  lemma SeparateProducers()
    ensures ProducerOf(SEPARATE, "x").None? && ProducerOf(SEPARATE, "y").None? && ProducerOf(SEPARATE, "s").None?
    ensures ProducerOf(SEPARATE, "") == Some(0)
  {
    assert SEPARATE[0].outputs[1] == "" && SEPARATE[..1] == [SEPARATE[0]];
  }

  lemma SeparateFloats()
    ensures FloatsUpTo(SEPARATE, 2) == SEPARATE
  {
    SeparateProducers();
    assert !Fused(SEPARATE, SEPARATE[0]) && !Fused(SEPARATE, SEPARATE[1]);
    assert FloatsUpTo(SEPARATE, 1) == FloatsUpTo(SEPARATE, 0) + [SEPARATE[0]] == [SEPARATE[0]];
    assert FloatsUpTo(SEPARATE, 2) == FloatsUpTo(SEPARATE, 1) + [SEPARATE[1]];
  }

  lemma SeparateEdges()
    ensures Edges(SEPARATE) == {}
  {
    SeparateProducers();
    forall a: nat, b: nat | a < 2 ensures !ReadsFrom(SEPARATE, a, b) {
      assert SEPARATE[a].inputs == if a == 0 then ["x"] else ["y", "", "s"];
    }
  }

  lemma OmissionJoins()
    ensures FloatsUpTo(SEPARATE, 2) == SEPARATE
    ensures Connected(Lookups(SEPARATE), 1, 0) && !Connected(Edges(SEPARATE), 1, 0)
    ensures !OmissionsJoinNothing(SEPARATE)
  {
    SeparateFloats();
    SeparateEdges();
    SeparateProducers();
    assert SEPARATE[1].inputs[1] == "" && (1, 0) in Omissions(SEPARATE);
    LookupsAreEdges(SEPARATE);
    ConnectedAcross(Lookups(SEPARATE), 1, 0);
    NothingConnected(1, 0);
  }

  lemma NothingConnected(x: nat, y: nat)
    requires x != y
    ensures !Connected({}, x, y)
  {
    forall p: seq<nat> | |p| > 1 ensures !IsPath({}, p, x, y) { assert !Adjacent({}, p[0], p[0 + 1]); }
  }
}
