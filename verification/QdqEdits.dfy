/**
 The edits entry surgery makes one after another, and why together they are the
 one rewriting of the whole graph.
 */
module QdqEdits {
  import opened Common
  import opened QdqCodes
  import opened QdqGraph
  import opened QdqEntry

  // -------------------------------------------------------------------------
  // Rewiring, edge by edge
  // -------------------------------------------------------------------------

  function WithInput(n: Node, from: string, to: string): Node {
    n.(inputs := seq(|n.inputs|, i requires 0 <= i < |n.inputs| => if n.inputs[i] == from then to else n.inputs[i]))
  }

  function RewireAll(nodes: seq<Node>, from: string, to: string): seq<Node> {
    seq(|nodes|, i requires 0 <= i < |nodes| => WithInput(nodes[i], from, to))
  }

  // What the edge makes, and what it makes it of.
  function MadeBy(e: Node): string { if e.outputs == [] then "" else e.outputs[0] }

  function SourceOf(e: Node): string { if e.inputs == [] then "" else e.inputs[0] }

  // The name a reader of `t` ends up with once the edges are done in turn.
  function FoldName(edges: seq<Node>, t: string): string {
    if edges == [] then t
    else
      var last, u := edges[|edges| - 1], FoldName(edges[..|edges| - 1], t);
      if u == MadeBy(last) then SourceOf(last) else u
  }

  function FoldNode(edges: seq<Node>, n: Node): Node {
    n.(inputs := seq(|n.inputs|, i requires 0 <= i < |n.inputs| => FoldName(edges, n.inputs[i])))
  }

  function FoldNodes(edges: seq<Node>, nodes: seq<Node>): seq<Node> {
    seq(|nodes|, i requires 0 <= i < |nodes| => FoldNode(edges, nodes[i]))
  }

  lemma FoldNothing(nodes: seq<Node>)
    ensures FoldNodes([], nodes) == nodes
  {
    forall i | 0 <= i < |nodes| ensures FoldNode([], nodes[i]) == nodes[i] {
      assert FoldNode([], nodes[i]).inputs == nodes[i].inputs;
    }
  }

  lemma FoldOneMore(edges: seq<Node>, e: Node, nodes: seq<Node>)
    ensures FoldNodes(edges + [e], nodes) == RewireAll(FoldNodes(edges, nodes), MadeBy(e), SourceOf(e))
  {
    assert (edges + [e])[..|edges|] == edges;
    forall i | 0 <= i < |nodes|
      ensures FoldNode(edges + [e], nodes[i]) == WithInput(FoldNode(edges, nodes[i]), MadeBy(e), SourceOf(e))
    {
      assert FoldNode(edges + [e], nodes[i]).inputs
          == WithInput(FoldNode(edges, nodes[i]), MadeBy(e), SourceOf(e)).inputs;
    }
  }

  // The edges of a graph, in whatever order.
  ghost predicate AreEdges(g: Graph, edges: seq<Node>)
    requires |g.inputs| == 1
  {
    forall n :: n in edges <==> n in g.nodes && IsEdge(Stem(g), n)
  }

  ghost predicate SomeEdges(g: Graph, edges: seq<Node>)
    requires |g.inputs| == 1
  {
    forall n :: n in edges ==> n in g.nodes && IsEdge(Stem(g), n)
  }

  lemma EdgeShape(g: Graph, e: Node)
    requires WellFormed(g) && |g.inputs| == 1 && e in g.nodes && IsEdge(Stem(g), e)
    ensures e.outputs == [MadeBy(e)] && SourceOf(e) in Stem(g) && MadeBy(e) in Dead(Stem(g), g.nodes)
    ensures Redirect(Stem(g), g.nodes, MadeBy(e)) == SourceOf(e)
    ensures MadeBy(e) !in Stem(g)
  {
    var i: nat :| i < |g.nodes| && g.nodes[i] == e;
    FitsAt(Base(g), g.nodes, i);
    EdgeRedirects(g, i, MadeBy(e));
    if MadeBy(e) in Stem(g) { StemNotDead(g, MadeBy(e)); }
  }

  lemma SameEdge(g: Graph, e: Node, f: Node)
    requires WellFormed(g) && |g.inputs| == 1 && MadeBy(e) == MadeBy(f)
    requires e in g.nodes && f in g.nodes && IsEdge(Stem(g), e) && IsEdge(Stem(g), f)
    ensures e == f
  {
    EdgeShape(g, e);
    EdgeShape(g, f);
    var i: nat :| i < |g.nodes| && g.nodes[i] == e;
    var j: nat :| j < |g.nodes| && g.nodes[j] == f;
    OneProducer(Base(g), g.nodes, i, j, MadeBy(e));
  }

  lemma {:induction false} FoldMisses(edges: seq<Node>, t: string)
    requires forall e :: e in edges ==> MadeBy(e) != t
    ensures FoldName(edges, t) == t
  {
    if edges != [] { FoldMisses(edges[..|edges| - 1], t); }
  }

  lemma {:induction false} FoldHits(g: Graph, edges: seq<Node>, e: Node)
    requires WellFormed(g) && |g.inputs| == 1 && SomeEdges(g, edges) && e in edges
    ensures FoldName(edges, MadeBy(e)) == SourceOf(e)
  {
    var front, last := edges[..|edges| - 1], edges[|edges| - 1];
    assert forall n :: n in edges <==> n in front || n == last;
    EdgeShape(g, e);
    EdgeShape(g, last);
    if e in front {
      FoldHits(g, front, e);
    } else {
      forall f | f in front ensures MadeBy(f) != MadeBy(e) {
        if MadeBy(f) == MadeBy(e) { SameEdge(g, e, f); }
      }
      FoldMisses(front, MadeBy(e));
    }
  }

  // Rewiring edge by edge sends each reader where the graph rewriting does.
  lemma FoldIsRedirect(g: Graph, edges: seq<Node>, t: string)
    requires WellFormed(g) && |g.inputs| == 1 && AreEdges(g, edges)
    ensures FoldName(edges, t) == Redirect(Stem(g), g.nodes, t)
  {
    if t in Dead(Stem(g), g.nodes) {
      var j := RedirectDead(Stem(g), g.nodes, t);
      EdgeShape(g, g.nodes[j]);
      FoldHits(g, edges, g.nodes[j]);
    } else {
      forall e | e in edges ensures MadeBy(e) != t { EdgeShape(g, e); }
      FoldMisses(edges, t);
      RedirectOthers(Stem(g), g.nodes, t);
    }
  }

  lemma FoldIsRewired(g: Graph, edges: seq<Node>)
    requires WellFormed(g) && |g.inputs| == 1 && AreEdges(g, edges)
    ensures forall i :: 0 <= i < |g.nodes| ==> FoldNodes(edges, g.nodes)[i] == Rewired(Stem(g), g.nodes, g.nodes[i])
  {
    forall i | 0 <= i < |g.nodes|
      ensures FoldNodes(edges, g.nodes)[i] == Rewired(Stem(g), g.nodes, g.nodes[i])
    {
      var n := g.nodes[i];
      forall j: nat | j < |n.inputs| ensures FoldNode(edges, n).inputs[j] == Rewired(Stem(g), g.nodes, n).inputs[j] {
        FoldIsRedirect(g, edges, n.inputs[j]);
      }
      assert FoldNode(edges, n).inputs == Rewired(Stem(g), g.nodes, n).inputs;
    }
  }

  // -------------------------------------------------------------------------
  // Removing, edge by edge
  // -------------------------------------------------------------------------

  predicate Makes(n: Node, dead: set<string>) { exists t :: t in n.outputs && t in dead }

  function DropMakers(nodes: seq<Node>, dead: set<string>): seq<Node> {
    if nodes == [] then []
    else
      var last := nodes[|nodes| - 1];
      DropMakers(nodes[..|nodes| - 1], dead) + if Makes(last, dead) then [] else [last]
  }

  lemma {:induction false} DropNothing(nodes: seq<Node>)
    ensures DropMakers(nodes, {}) == nodes
  {
    if nodes != [] { DropNothing(nodes[..|nodes| - 1]); }
  }

  lemma DropOneMore(nodes: seq<Node>, n: Node, dead: set<string>)
    ensures DropMakers(nodes + [n], dead) == DropMakers(nodes, dead) + if Makes(n, dead) then [] else [n]
  {
    assert (nodes + [n])[..|nodes|] == nodes;
  }

  lemma {:induction false} DropTwice(nodes: seq<Node>, a: set<string>, b: set<string>)
    ensures DropMakers(DropMakers(nodes, a), b) == DropMakers(nodes, a + b)
  {
    if nodes != [] {
      var front, last := nodes[..|nodes| - 1], nodes[|nodes| - 1];
      DropTwice(front, a, b);
      DropOneMore(DropMakers(front, a), last, b);
      assert DropMakers(front, a) + [] == DropMakers(front, a);
      assert Makes(last, a + b) <==> Makes(last, a) || Makes(last, b);
    }
  }

  function MadeByAll(edges: seq<Node>): set<string> { set e | e in edges :: MadeBy(e) }

  lemma MadeByAllOneMore(edges: seq<Node>, e: Node)
    ensures MadeByAll(edges + [e]) == MadeByAll(edges) + {MadeBy(e)}
  {
    forall t | t in MadeByAll(edges) + {MadeBy(e)} ensures t in MadeByAll(edges + [e]) {
      if t in MadeByAll(edges) {
        var f :| f in edges && MadeBy(f) == t;
        assert f in edges + [e];
      } else {
        assert e in edges + [e];
      }
    }
  }

  lemma MadeByAllIsDead(g: Graph, edges: seq<Node>)
    requires WellFormed(g) && |g.inputs| == 1 && AreEdges(g, edges)
    ensures MadeByAll(edges) == Dead(Stem(g), g.nodes)
  {
    forall t | t in MadeByAll(edges) ensures t in Dead(Stem(g), g.nodes) {
      var e :| e in edges && MadeBy(e) == t;
      EdgeShape(g, e);
    }
    forall t | t in Dead(Stem(g), g.nodes) ensures t in MadeByAll(edges) {
      var j := RedirectDead(Stem(g), g.nodes, t);
      EdgeShape(g, g.nodes[j]);
      assert g.nodes[j] in edges;
    }
  }

  lemma NodeMakesDead(g: Graph, i: nat)
    requires WellFormed(g) && |g.inputs| == 1 && i < |g.nodes|
    ensures Makes(Rewired(Stem(g), g.nodes, g.nodes[i]), Dead(Stem(g), g.nodes)) <==> IsEdge(Stem(g), g.nodes[i])
  {
    var n := g.nodes[i];
    FitsAt(Base(g), g.nodes, i);
    NodeDeadOrNot(g, i);
    assert n.outputs[0] in Elements(n.outputs);
  }

  // The rewired nodes without the edges are the nodes of the rewriting.
  lemma {:induction false} DropIsEntry(g: Graph, nodes: seq<Node>, i: nat)
    requires WellFormed(g) && |g.inputs| == 1 && i <= |g.nodes| == |nodes|
    requires forall j :: 0 <= j < |nodes| ==> nodes[j] == Rewired(Stem(g), g.nodes, g.nodes[j])
    ensures DropMakers(nodes[..i], Dead(Stem(g), g.nodes)) == EntryNodes(Stem(g), g.nodes, g.nodes[..i])
  {
    if i > 0 {
      var m: nat := i - 1;
      DropIsEntry(g, nodes, m);
      assert nodes[..i] == nodes[..m] + [nodes[m]];
      DropOneMore(nodes[..m], nodes[m], Dead(Stem(g), g.nodes));
      NodeMakesDead(g, m);
      PrefixOneMore(Stem(g), g.nodes, m);
    }
  }

  lemma EditsAreEntry(g: Graph, edges: seq<Node>)
    requires WellFormed(g) && |g.inputs| == 1 && AreEdges(g, edges)
    ensures DropMakers(FoldNodes(edges, g.nodes), MadeByAll(edges)) == EntryNodes(Stem(g), g.nodes, g.nodes)
  {
    var nodes := FoldNodes(edges, g.nodes);
    FoldIsRewired(g, edges);
    MadeByAllIsDead(g, edges);
    DropIsEntry(g, nodes, |g.nodes|);
    assert nodes[..|g.nodes|] == nodes && g.nodes[..|g.nodes|] == g.nodes;
  }

  // -------------------------------------------------------------------------
  // Retyping
  // -------------------------------------------------------------------------

  // The tensors the walk traversed and the whole stem retype the same
  // intermediate values: none of those is the input.
  lemma {:induction false} TraversedRetypes(s: set<string>, made: set<string>, input: string, dead: set<string>,
                                            info: seq<ValueInfo>)
    requires s == {input} + made && input !in Names(info)
    ensures EntryInfo(made, dead, info) == EntryInfo(s, dead, info)
  {
    if info != [] {
      var front, last := info[..|info| - 1], info[|info| - 1];
      assert info == front + [last];
      NamesOneMore(front, last);
      TraversedRetypes(s, made, input, dead, front);
    }
  }
}
