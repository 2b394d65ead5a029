/**
 The frontier walk from the graph input across data movement, and the checks it
 makes on the way: it succeeds exactly when the whole stem passes them.
 */
module QdqWalk {
  import opened Common
  import opened QdqCodes
  import opened QdqGraph
  import opened QdqEntry

  // Each refusal names what is wrong with the graph.
  ghost predicate Violates(g: Graph, e: Refusal)
    requires |g.inputs| == 1
  {
    match e
    case StemIsOutput(t) => t in Stem(g) && t in Names(g.outputs)
    case NoConsumers(t) => t in Stem(g) && forall n :: n in g.nodes ==> t !in n.inputs
    case NonDataSlot(t, n) => t in Stem(g) && n in g.nodes && t in n.inputs && !DataOnly(t, n)
    case RemovesOutput(n) => n in g.nodes && IsEdge(Stem(g), n) && exists o :: o in n.outputs && o in Names(g.outputs)
    case NotTransparent(n) =>
      n in g.nodes && n.inputs != [] && n.inputs[0] in Stem(g) && n.op != QUANTIZE && !Transparent(n.op)
    case _ => false
  }

  lemma StemOkHasNoViolation(g: Graph, e: Refusal)
    requires |g.inputs| == 1 && StemOk(g)
    ensures !Violates(g, e)
  {
    match e
    case StemIsOutput(t) => assert t in Stem(g) ==> StemTensorOk(g, t);
    case NoConsumers(t) => assert t in Stem(g) ==> StemTensorOk(g, t);
    case NonDataSlot(t, n) => ReadersOk(g, t, n);
    case RemovesOutput(n) => if n in g.nodes && IsEdge(Stem(g), n) { EdgeRemovesOutput(g, n); }
    case NotTransparent(n) => if n.inputs != [] { ReadersOk(g, n.inputs[0], n); }
    case _ =>
  }

  lemma ReadersOk(g: Graph, t: string, n: Node)
    requires |g.inputs| == 1 && StemOk(g)
    ensures t in Stem(g) && n in g.nodes && t in n.inputs ==> ReaderOk(g, t, n)
  {
    assert t in Stem(g) ==> StemTensorOk(g, t);
  }

  lemma EdgeRemovesOutput(g: Graph, n: Node)
    requires |g.inputs| == 1 && StemOk(g) && n in g.nodes && IsEdge(Stem(g), n)
    ensures forall o :: o in n.outputs ==> o !in Names(g.outputs)
  {
    assert n.inputs[0] in n.inputs && StemTensorOk(g, n.inputs[0]) && ReaderOk(g, n.inputs[0], n);
  }

  // -------------------------------------------------------------------------
  // The readers of one tensor
  // -------------------------------------------------------------------------

  datatype Visited = Visited(made: seq<string>, edges: seq<Node>)

  // What the first `k` nodes' readers of `t` add to the walk.
  ghost predicate VisitedUpTo(g: Graph, t: string, k: nat, v: Visited)
    requires k <= |g.nodes|
  {
    && (forall i :: 0 <= i < k && t in g.nodes[i].inputs ==> ReaderOk(g, t, g.nodes[i]))
    && (forall o :: o in v.made <==> exists i :: 0 <= i < k && PassesOn({t}, g.nodes[i]) && o in g.nodes[i].outputs)
    && (forall n :: n in v.edges <==> exists i :: 0 <= i < k && g.nodes[i] == n && IsEdge({t}, n))
  }

  lemma VisitOneMore(g: Graph, t: string, k: nat, v: Visited, w: Visited)
    requires k < |g.nodes| && VisitedUpTo(g, t, k, v)
    requires t in g.nodes[k].inputs ==> ReaderOk(g, t, g.nodes[k])
    requires w.made == v.made + if PassesOn({t}, g.nodes[k]) then g.nodes[k].outputs else []
    requires w.edges == v.edges + if IsEdge({t}, g.nodes[k]) then [g.nodes[k]] else []
    ensures VisitedUpTo(g, t, k + 1, w)
  {
  }

  // Whether one reader passes the walk's checks, and which fails if not.
  method CheckReader(g: Graph, t: string, n: Node) returns (e: Option<Refusal>)
    requires |g.inputs| == 1 && t in Stem(g) && n in g.nodes && t in n.inputs
    ensures e.None? ==> ReaderOk(g, t, n)
    ensures e.Some? ==> Violates(g, e.value)
  {
    if n.inputs[0] != t || t in n.inputs[1..] { return Some(NonDataSlot(t, n)); }
    if n.op == QUANTIZE {
      if exists o :: o in n.outputs && o in Names(g.outputs) { return Some(RemovesOutput(n)); }
      return None;
    }
    if !Transparent(n.op) { return Some(NotTransparent(n)); }
    return None;
  }

  method Visit(g: Graph, t: string) returns (r: Result<Visited, Refusal>)
    requires |g.inputs| == 1 && t in Stem(g)
    ensures r.Ok? ==> VisitedUpTo(g, t, |g.nodes|, r.value)
    ensures r.Err? ==> Violates(g, r.error)
  {
    var v, k := Visited([], []), 0;
    while k < |g.nodes|
      invariant k <= |g.nodes| && VisitedUpTo(g, t, k, v)
    {
      var n := g.nodes[k];
      var before := v;
      if t in n.inputs {
        var e := CheckReader(g, t, n);
        if e.Some? { return Err(e.value); }
        if n.op == QUANTIZE {
          v := v.(edges := v.edges + [n]);
        } else {
          v := v.(made := v.made + n.outputs);
        }
      }
      VisitOneMore(g, t, k, before, v);
      k := k + 1;
    }
    return Ok(v);
  }

  // -------------------------------------------------------------------------
  // The walk
  // -------------------------------------------------------------------------

  datatype Walked = Walked(traversed: seq<string>, edges: seq<Node>)

  ghost predicate Progress(g: Graph, frontier: seq<string>, seen: set<string>, w: Walked)
    requires |g.inputs| == 1
  {
    && seen <= Stem(g) && Elements(frontier) <= Stem(g)
    && seen + Elements(frontier) == {g.inputs[0].name} + Elements(w.traversed)
    && (forall t :: t in seen ==> StemTensorOk(g, t))
    && (forall n :: n in g.nodes && PassesOn(seen, n) ==> Elements(n.outputs) <= seen + Elements(frontier))
    && (forall n :: n in w.edges <==> n in g.nodes && IsEdge(seen, n))
  }

  lemma MadeInStem(g: Graph, t: string, v: Visited)
    requires WellFormed(g) && |g.inputs| == 1 && t in Stem(g) && VisitedUpTo(g, t, |g.nodes|, v)
    ensures Elements(v.made) <= Stem(g)
  {
    forall o | o in v.made ensures o in Stem(g) {
      var i :| 0 <= i < |g.nodes| && PassesOn({t}, g.nodes[i]) && o in g.nodes[i].outputs;
      StemClosed(g, i);
    }
  }

  lemma MadeByReaders(g: Graph, t: string, v: Visited, n: Node)
    requires VisitedUpTo(g, t, |g.nodes|, v) && n in g.nodes
    ensures PassesOn({t}, n) ==> Elements(n.outputs) <= Elements(v.made)
    ensures IsEdge({t}, n) <==> n in v.edges
    ensures t in n.inputs ==> ReaderOk(g, t, n)
  {
    var i: nat :| i < |g.nodes| && g.nodes[i] == n;
  }

  lemma ElementsOfSum(a: seq<string>, b: seq<string>)
    ensures Elements(a + b) == Elements(a) + Elements(b)
  {
  }

  lemma AdvanceNames(g: Graph, rest: seq<string>, seen: set<string>, w: Walked, t: string, v: Visited)
    requires |g.inputs| == 1 && Progress(g, rest + [t], seen, w)
    ensures t in Stem(g) && Elements(rest) <= Stem(g)
    ensures (seen + {t}) + Elements(rest + v.made) == {g.inputs[0].name} + Elements(w.traversed + v.made)
  {
    ElementsOfSum(rest, [t]);
    ElementsOfSum(rest, v.made);
    ElementsOfSum(w.traversed, v.made);
    assert Elements([t]) == {t};
  }

  lemma AdvanceClosed(g: Graph, rest: seq<string>, seen: set<string>, w: Walked, t: string, v: Visited, n: Node)
    requires |g.inputs| == 1 && Progress(g, rest + [t], seen, w) && VisitedUpTo(g, t, |g.nodes|, v)
    requires n in g.nodes && PassesOn(seen + {t}, n)
    ensures Elements(n.outputs) <= (seen + {t}) + Elements(rest + v.made)
  {
    ElementsOfSum(rest, [t]);
    ElementsOfSum(rest, v.made);
    assert Elements([t]) == {t};
    MadeByReaders(g, t, v, n);
  }

  lemma AdvanceEdges(g: Graph, rest: seq<string>, seen: set<string>, w: Walked, t: string, v: Visited, n: Node)
    requires |g.inputs| == 1 && Progress(g, rest + [t], seen, w) && VisitedUpTo(g, t, |g.nodes|, v)
    ensures n in w.edges + v.edges <==> n in g.nodes && IsEdge(seen + {t}, n)
  {
    if n in g.nodes { MadeByReaders(g, t, v, n); }
  }

  lemma TensorPasses(g: Graph, t: string, v: Visited)
    requires t !in Names(g.outputs) && (exists n :: n in g.nodes && t in n.inputs)
    requires VisitedUpTo(g, t, |g.nodes|, v)
    ensures StemTensorOk(g, t)
  {
    forall n | n in g.nodes && t in n.inputs ensures ReaderOk(g, t, n) { MadeByReaders(g, t, v, n); }
  }

  lemma Advance(g: Graph, rest: seq<string>, seen: set<string>, w: Walked, t: string, v: Visited)
    requires WellFormed(g) && |g.inputs| == 1 && Progress(g, rest + [t], seen, w)
    requires t !in Names(g.outputs) && (exists n :: n in g.nodes && t in n.inputs)
    requires VisitedUpTo(g, t, |g.nodes|, v)
    ensures Progress(g, rest + v.made, seen + {t}, Walked(w.traversed + v.made, w.edges + v.edges))
  {
    AdvanceNames(g, rest, seen, w, t, v);
    MadeInStem(g, t, v);
    ElementsOfSum(rest, v.made);
    TensorPasses(g, t, v);
    forall n | n in g.nodes && PassesOn(seen + {t}, n)
      ensures Elements(n.outputs) <= (seen + {t}) + Elements(rest + v.made)
    {
      AdvanceClosed(g, rest, seen, w, t, v, n);
    }
    forall n ensures n in w.edges + v.edges <==> n in g.nodes && IsEdge(seen + {t}, n) {
      AdvanceEdges(g, rest, seen, w, t, v, n);
    }
  }

  lemma Revisit(g: Graph, rest: seq<string>, seen: set<string>, w: Walked, t: string)
    requires |g.inputs| == 1 && Progress(g, rest + [t], seen, w) && t in seen
    ensures Progress(g, rest, seen, w)
  {
    ElementsOfSum(rest, [t]);
  }

  // A closed set holding the input holds the stem.
  lemma {:induction false} ClosedHoldsStem(g: Graph, s: set<string>, i: nat)
    requires |g.inputs| == 1 && i <= |g.nodes| && g.inputs[0].name in s
    requires forall n :: n in g.nodes && PassesOn(s, n) ==> Elements(n.outputs) <= s
    ensures StemOf(g.inputs[0].name, g.nodes[..i]) <= s
  {
    if i > 0 {
      ClosedHoldsStem(g, s, i - 1);
      StemOneMore(g.inputs[0].name, g.nodes, i - 1);
    }
  }

  ghost predicate WalkedAll(g: Graph, w: Walked)
    requires |g.inputs| == 1
  {
    && StemOk(g)
    && Stem(g) == {g.inputs[0].name} + Elements(w.traversed)
    && forall n :: n in w.edges <==> n in g.nodes && IsEdge(Stem(g), n)
  }

  lemma WalkEnds(g: Graph, seen: set<string>, w: Walked)
    requires |g.inputs| == 1 && Progress(g, [], seen, w)
    ensures WalkedAll(g, w)
  {
    ClosedHoldsStem(g, seen, |g.nodes|);
    assert g.nodes[..|g.nodes|] == g.nodes && seen == Stem(g);
  }

  method Walk(g: Graph) returns (r: Result<Walked, Refusal>)
    requires WellFormed(g) && |g.inputs| == 1
    ensures r.Ok? <==> StemOk(g)
    ensures r.Ok? ==> WalkedAll(g, r.value) && r.value.edges != []
    ensures r.Err? ==> Violates(g, r.error)
  {
    var frontier, seen, w := [g.inputs[0].name], {}, Walked([], []);
    while frontier != []
      invariant Progress(g, frontier, seen, w)
      decreases Stem(g) - seen, |frontier|
    {
      var t, rest := frontier[|frontier| - 1], frontier[..|frontier| - 1];
      assert rest + [t] == frontier;
      if t in seen {
        Revisit(g, rest, seen, w, t);
        frontier := rest;
      } else {
        var e, v := VisitTensor(g, t);
        if e.Some? {
          StemOkImpliesNone(g, e.value);
          return Err(e.value);
        }
        Advance(g, rest, seen, w, t, v);
        seen, frontier := seen + {t}, rest + v.made;
        w := Walked(w.traversed + v.made, w.edges + v.edges);
      }
    }
    WalkEnds(g, seen, w);
    StemOkReachesQuantizer(g);
    return Ok(w);
  }

  lemma StemOkImpliesNone(g: Graph, e: Refusal)
    requires |g.inputs| == 1 && Violates(g, e)
    ensures !StemOk(g)
  {
    if StemOk(g) { StemOkHasNoViolation(g, e); }
  }

  // The checks on one stem tensor.
  method VisitTensor(g: Graph, t: string) returns (e: Option<Refusal>, v: Visited)
    requires |g.inputs| == 1 && t in Stem(g)
    ensures e.None? ==> t !in Names(g.outputs) && (exists n :: n in g.nodes && t in n.inputs)
    ensures e.None? ==> VisitedUpTo(g, t, |g.nodes|, v)
    ensures e.Some? ==> Violates(g, e.value)
  {
    v := Visited([], []);
    if t in Names(g.outputs) { return Some(StemIsOutput(t)), v; }
    if forall n :: n in g.nodes ==> t !in n.inputs { return Some(NoConsumers(t)), v; }
    var r := Visit(g, t);
    if r.Err? { return Some(r.error), v; }
    return None, r.value;
  }
}
