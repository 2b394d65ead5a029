/**
 What the tool accepts, in the operators' own names and by paths from the
 graph's input, with no mention of how the walk goes about it.
 */
module QdqGuards {
  import opened Common
  import opened QdqCodes
  import opened QdqGraph
  import opened QdqEntry
  import opened QdqSurgery
  import Exit = QdqExit

  // -------------------------------------------------------------------------
  // What data movement reaches
  // -------------------------------------------------------------------------

  // The nodes of `path`, in order, carry the input to `t`.
  predicate Carries(g: Graph, path: seq<nat>, t: string)
    requires |g.inputs| == 1
    decreases |path|
  {
    if path == [] then t == g.inputs[0].name
    else
      var i := path[|path| - 1];
      && i < |g.nodes| && t in g.nodes[i].outputs && g.nodes[i].inputs != []
      && g.nodes[i].op in ["Slice", "Transpose", "Reshape", "Identity", "Squeeze", "Unsqueeze"]
      && Carries(g, path[..|path| - 1], g.nodes[i].inputs[0])
  }

  ghost predicate Reached(g: Graph, t: string)
    requires |g.inputs| == 1
  {
    exists path :: Carries(g, path, t)
  }

  lemma {:induction false} CarriedIsStem(g: Graph, path: seq<nat>, t: string)
    requires WellFormed(g) && |g.inputs| == 1 && Carries(g, path, t)
    ensures t in Stem(g)
    decreases |path|
  {
    if path != [] {
      var i := path[|path| - 1];
      CarriedIsStem(g, path[..|path| - 1], g.nodes[i].inputs[0]);
      StemClosed(g, i);
    }
  }

  lemma {:induction false} StemIsCarried(g: Graph, m: nat, t: string) returns (path: seq<nat>)
    requires |g.inputs| == 1 && m <= |g.nodes| && t in StemOf(g.inputs[0].name, g.nodes[..m])
    ensures Carries(g, path, t)
    decreases m
  {
    path := [];
    if t != g.inputs[0].name {
      assert m > 0 by { assert g.nodes[..0] == []; }
      var k: nat := m - 1;
      StemOneMore(g.inputs[0].name, g.nodes, k);
      if t in StemOf(g.inputs[0].name, g.nodes[..k]) {
        path := StemIsCarried(g, k, t);
      } else {
        var before := StemIsCarried(g, k, g.nodes[k].inputs[0]);
        path := before + [k];
        assert path[..|path| - 1] == before;
      }
    }
  }

  // The stem is what a path of data movement reaches from the input.
  lemma StemIsReached(g: Graph, t: string)
    requires WellFormed(g) && |g.inputs| == 1
    ensures t in Stem(g) <==> Reached(g, t)
  {
    if t in Stem(g) {
      assert g.nodes[..|g.nodes|] == g.nodes;
      var path := StemIsCarried(g, |g.nodes|, t);
    }
    if path :| Carries(g, path, t) { CarriedIsStem(g, path, t); }
  }

  // -------------------------------------------------------------------------
  // Parameters
  // -------------------------------------------------------------------------

  // The node's scale and zero point are scalars among the initializers, the
  // zero point explicit and uint8, the scale positive; and they are `q`.
  predicate GivesParams(inits: map<string, Tensor>, n: Node, q: Qparams) {
    && |n.inputs| >= 3 && n.inputs[2] != ""
    && n.inputs[1] in inits && n.inputs[2] in inits
    && |inits[n.inputs[1]].vals| == 1 && |inits[n.inputs[2]].vals| == 1
    && inits[n.inputs[2]].elem == UInt8
    && inits[n.inputs[1]].vals[0] > 0.0
    && q.scale == inits[n.inputs[1]].vals[0] && q.zeroPoint == inits[n.inputs[2]].vals[0].Floor
  }

  lemma ScalarQparamsIff(inits: map<string, Tensor>, n: Node, q: Qparams)
    ensures ScalarQparams(inits, n) == Ok(q) <==> GivesParams(inits, n, q)
  {
  }

  // Why there are none, in the order the reasons are looked for.
  lemma WhyNoParams(inits: map<string, Tensor>, n: Node)
    ensures var r := ScalarQparams(inits, n);
            if |n.inputs| < 3 || n.inputs[2] == "" then r == Err(NoZeroPoint)
            else if n.inputs[1] !in inits || n.inputs[2] !in inits then r == Err(NotInitializers)
            else
              var scale, zp := inits[n.inputs[1]], inits[n.inputs[2]];
              if |scale.vals| != 1 || |zp.vals| != 1 then r == Err(PerAxis)
              else if zp.elem != UInt8 then r == Err(NotUint8)
              else r.Err? ==> r == Err(BadScale)
  {
  }

  // -------------------------------------------------------------------------
  // Entry
  // -------------------------------------------------------------------------

  predicate IsOutput(g: Graph, t: string) { exists i :: 0 <= i < |g.outputs| && g.outputs[i].name == t }

  // A reader of a reached tensor reads it as data only, and moves it on or
  // quantizes it into something that is no output of the graph.
  predicate ReaderPasses(g: Graph, t: string, n: Node) {
    && n.inputs != [] && n.inputs[0] == t && (forall i :: 0 < i < |n.inputs| ==> n.inputs[i] != t)
    && n.op in ["Slice", "Transpose", "Reshape", "Identity", "Squeeze", "Unsqueeze", "QuantizeLinear"]
    && (n.op == "QuantizeLinear" ==> forall o :: o in n.outputs ==> !IsOutput(g, o))
  }

  predicate TensorPasses(g: Graph, t: string) {
    && !IsOutput(g, t)
    && (exists n :: n in g.nodes && t in n.inputs)
    && (forall n :: n in g.nodes && t in n.inputs ==> ReaderPasses(g, t, n))
  }

  ghost predicate QuantizesInput(g: Graph, n: Node)
    requires |g.inputs| == 1
  {
    n in g.nodes && n.op == "QuantizeLinear" && n.inputs != [] && Reached(g, n.inputs[0])
  }

  ghost predicate EntryPasses(g: Graph, q: Qparams) {
    && |g.inputs| == 1 && g.inputs[0].elem == Float
    && (forall t :: Reached(g, t) ==> TensorPasses(g, t))
    && (exists n :: QuantizesInput(g, n))
    && (forall n :: QuantizesInput(g, n) ==> GivesParams(g.inits, n, q))
  }

  lemma ReaderOkIff(g: Graph, t: string, n: Node)
    ensures ReaderOk(g, t, n) <==> ReaderPasses(g, t, n)
  {
    forall o ensures o in Names(g.outputs) <==> IsOutput(g, o) {}
    if n.inputs != [] {
      assert (forall i :: 0 < i < |n.inputs| ==> n.inputs[i] != t) <==> t !in n.inputs[1..] by { TailHolds(n.inputs, t); }
    }
  }

  lemma TailHolds(s: seq<string>, t: string)
    requires s != []
    ensures t in s[1..] <==> exists i :: 0 < i < |s| && s[i] == t
  {
    if i :| 0 < i < |s| && s[i] == t { assert s[1..][i - 1] == t; }
  }

  lemma TensorOkIff(g: Graph, t: string)
    ensures StemTensorOk(g, t) <==> TensorPasses(g, t)
  {
    assert t in Names(g.outputs) <==> IsOutput(g, t);
    forall n ensures ReaderOk(g, t, n) <==> ReaderPasses(g, t, n) { ReaderOkIff(g, t, n); }
  }

  lemma EdgeIff(g: Graph, n: Node)
    requires WellFormed(g) && |g.inputs| == 1
    ensures QuantizesInput(g, n) <==> n in g.nodes && IsEdge(Stem(g), n)
  {
    if n.inputs != [] { StemIsReached(g, n.inputs[0]); }
  }

  // Entry surgery accepts exactly the graphs whose reached tensors pass and
  // whose quantizers of them give one set of parameters.
  lemma ConvertibleIff(g: Graph, q: Qparams)
    requires WellFormed(g)
    ensures Convertible(g, q) <==> EntryPasses(g, q)
  {
    if |g.inputs| == 1 {
      forall t ensures StemTensorOk(g, t) <==> TensorPasses(g, t) { TensorOkIff(g, t); }
      forall t ensures t in Stem(g) <==> Reached(g, t) { StemIsReached(g, t); }
      forall n ensures QuantizesInput(g, n) <==> n in g.nodes && IsEdge(Stem(g), n) { EdgeIff(g, n); }
      forall n ensures ScalarQparams(g.inits, n) == Ok(q) <==> GivesParams(g.inits, n, q) {
        ScalarQparamsIff(g.inits, n, q);
      }
      QuantizersGive(g, q);
    }
  }

  lemma QuantizersGive(g: Graph, q: Qparams)
    requires |g.inputs| == 1
    requires forall n :: QuantizesInput(g, n) <==> n in g.nodes && IsEdge(Stem(g), n)
    requires forall n :: ScalarQparams(g.inits, n) == Ok(q) <==> GivesParams(g.inits, n, q)
    ensures EdgesAgree(g, q) <==> forall n :: QuantizesInput(g, n) ==> GivesParams(g.inits, n, q)
  {
  }

  // Any other operator on the way is a refusal, in every mode that touches the
  // input.
  lemma OtherOperatorRefused(g: Graph, path: seq<nat>, t: string, n: Node)
    requires WellFormed(g) && |g.inputs| == 1 && Carries(g, path, t) && n in g.nodes && t in n.inputs
    requires n.op !in ["Slice", "Transpose", "Reshape", "Identity", "Squeeze", "Unsqueeze", "QuantizeLinear"]
    ensures forall q :: !Convertible(g, q)
    ensures forall opset, mode, side, c :: mode != OutputOnly ==> !Accepted(g, opset, mode, side, c)
  {
    forall q ensures !Convertible(g, q) {
      ConvertibleIff(g, q);
      assert Reached(g, t) && !ReaderPasses(g, t, n);
      assert !TensorPasses(g, t);
    }
  }

  // -------------------------------------------------------------------------
  // Exit
  // -------------------------------------------------------------------------

  // Some node dequantizes into `t`, by parameters `q`, codes some node makes
  // and nothing else reads; and nothing reads `t`.
  predicate Dequantizes(g: Graph, t: string, d: Node, q: Qparams) {
    && d in g.nodes && t in d.outputs && d.op == "DequantizeLinear" && d.inputs != []
    && (forall n :: n in g.nodes && d.inputs[0] in n.inputs ==> n == d)
    && (exists n :: n in g.nodes && d.inputs[0] in n.outputs)
    && (forall n :: n in g.nodes ==> t !in n.inputs)
    && GivesParams(g.inits, d, q)
  }

  lemma MadeIff(nodes: seq<Node>, t: string)
    ensures Exit.ProducerOf(nodes, t).Some? <==> exists n :: n in nodes && t in n.outputs
  {
    if Exit.ProducerOf(nodes, t).Some? { var j := Exit.ProducerFound(nodes, t); }
    if exists n :: n in nodes && t in n.outputs { Exit.ProducerExists(nodes, t); }
  }

  lemma OutputPassesMeans(g: Graph, i: nat)
    requires WellFormed(g) && OutputPasses(g, i)
    ensures Dequantizes(g, g.outputs[i].name, Exit.DequantizerOf(g, i), Exit.ParamsOf(g, i))
  {
    var d := Exit.DequantizerOf(g, i);
    var j := Exit.ProducerFound(g.nodes, g.outputs[i].name);
    MadeIff(g.nodes, d.inputs[0]);
    ScalarQparamsIff(g.inits, d, Exit.ParamsOf(g, i));
  }

  lemma DequantizedPasses(g: Graph, i: nat, d: Node, q: Qparams)
    requires WellFormed(g) && i < |g.outputs| && Dequantizes(g, g.outputs[i].name, d, q)
    ensures OutputPasses(g, i) && d == Exit.DequantizerOf(g, i) && q == Exit.ParamsOf(g, i)
  {
    var j :| 0 <= j < |g.nodes| && g.nodes[j] == d;
    Exit.ProducerUnique(Base(g), g.nodes, j, g.outputs[i].name);
    MadeIff(g.nodes, d.inputs[0]);
    ScalarQparamsIff(g.inits, d, q);
  }

  ghost predicate Dequantized(g: Graph, t: string) { exists d, q :: Dequantizes(g, t, d, q) }

  ghost predicate ExitPasses(g: Graph) {
    forall i: nat :: i < |g.outputs| ==> Dequantized(g, g.outputs[i].name)
  }

  // Exit surgery accepts exactly the graphs that dequantize every output so.
  lemma ExportableIff(g: Graph)
    requires WellFormed(g)
    ensures Exit.Exportable(g) <==> ExitPasses(g)
  {
    if Exit.Exportable(g) {
      forall i: nat | i < |g.outputs| ensures Dequantized(g, g.outputs[i].name) { OutputPassesMeans(g, i); }
    }
    if ExitPasses(g) {
      forall i: nat | i < |g.outputs|
        ensures Exit.Unread(g, g.outputs[i].name) && Exit.OutputOk(g, g.outputs[i].name)
      {
        assert Dequantized(g, g.outputs[i].name);
        var d, q :| Dequantizes(g, g.outputs[i].name, d, q);
        DequantizedPasses(g, i, d, q);
      }
    }
  }

  // -------------------------------------------------------------------------
  // The tool
  // -------------------------------------------------------------------------

  // What the host is told of output `i` are its own dequantizer's parameters.
  lemma SidecarTells(g: Graph, opset: Option<int>, side: Sidecar, c: Graph, i: nat)
    requires WellFormed(g) && Accepted(g, opset, OutputOnly, side, c) && i < |g.outputs|
    ensures g.outputs[i].name in side.outputs
    ensures exists d :: Dequantizes(g, g.outputs[i].name, d, side.outputs[g.outputs[i].name])
  {
    assert Exit.Exportable(g) ==> OutputPasses(g, i);
    OutputPassesMeans(g, i);
  }

  // Whatever else, an accepted graph declares opset 13 or later and quantizes
  // nothing at run time; in the modes that touch the input, its entry passes
  // with the parameters the host is told; and in those that touch the outputs,
  // the exit of the graph then at hand passes.
  lemma AcceptedIff(g: Graph, opset: Option<int>, mode: Mode, side: Sidecar, c: Graph)
    requires WellFormed(g)
    ensures Accepted(g, opset, mode, side, c)
       <==> && opset.Some? && opset.value >= 13
            && (forall n :: n in g.nodes ==> n.op != "DynamicQuantizeLinear")
            && (if mode == OutputOnly then side.input == None
                else side.input.Some? && EntryPasses(g, side.input.value))
            && var mid := if mode == OutputOnly then g else Converted(g);
            if mode == InputOnly then side.outputs == map[] && c == mid
            else ExitPasses(mid) && c == Exit.Exported(mid) && ParamsGiven(mid, |mid.outputs|, side.outputs)
  {
    EntryAcceptedIff(g, mode, side.input);
    if EntryAccepted(g, mode, side.input) { ExitAcceptedIff(g, mode, side, c); }
  }

  lemma EntryAcceptedIff(g: Graph, mode: Mode, input: Option<Qparams>)
    requires WellFormed(g)
    ensures EntryAccepted(g, mode, input)
       <==> if mode == OutputOnly then input == None else input.Some? && EntryPasses(g, input.value)
  {
    if input.Some? { ConvertibleIff(g, input.value); }
  }

  lemma ExitAcceptedIff(g: Graph, mode: Mode, side: Sidecar, c: Graph)
    requires WellFormed(g) && EntryAccepted(g, mode, side.input)
    ensures var mid := if mode == OutputOnly then g else Converted(g);
            ExitAccepted(Middle(g, mode), mode, side.outputs, c)
            <==> if mode == InputOnly then side.outputs == map[] && c == mid
                 else ExitPasses(mid) && c == Exit.Exported(mid) && ParamsGiven(mid, |mid.outputs|, side.outputs)
  {
    if mode == OutputOnly { ExportableIff(g); }
    if mode == Both {
      EntryKeepsWellFormed(g, side.input.value);
      ExportableIff(Converted(g));
    }
  }

  // -------------------------------------------------------------------------
  // What is edited, node by node
  // -------------------------------------------------------------------------

  // `at` lists, in order, the positions below `n` that are kept.
  ghost predicate KeptAt(at: seq<nat>, n: nat, keep: nat -> bool) {
    && (forall a, b :: 0 <= a < b < |at| ==> at[a] < at[b])
    && (forall k: nat :: k in at <==> k < n && keep(k))
  }

  lemma KeepOneMore(at: seq<nat>, n: nat, keep: nat -> bool)
    requires KeptAt(at, n, keep)
    ensures KeptAt(at + if keep(n) then [n] else [], n + 1, keep)
  {
    forall i | 0 <= i < |at| ensures at[i] < n { assert at[i] in at; }
  }

  // Where a reader of `x` reads from after entry surgery: the source of the
  // quantizer of the input that makes `x`, if one does.
  lemma RedirectIs(g: Graph, x: string)
    requires WellFormed(g) && |g.inputs| == 1
    ensures forall n :: QuantizesInput(g, n) && x in n.outputs ==> Redirect(Stem(g), g.nodes, x) == n.inputs[0]
    ensures (forall n :: QuantizesInput(g, n) ==> x !in n.outputs) ==> Redirect(Stem(g), g.nodes, x) == x
  {
    forall n ensures QuantizesInput(g, n) <==> n in g.nodes && IsEdge(Stem(g), n) { EdgeIff(g, n); }
    forall n | QuantizesInput(g, n) && x in n.outputs ensures Redirect(Stem(g), g.nodes, x) == n.inputs[0] {
      var i :| 0 <= i < |g.nodes| && g.nodes[i] == n;
      EdgeRedirects(g, i, x);
    }
    if forall n :: QuantizesInput(g, n) ==> x !in n.outputs { RedirectOthers(Stem(g), g.nodes, x); }
  }

  // What stays of one node: the same operator making the same outputs, reading
  // from where its inputs were redirected to.
  ghost predicate Rewires(g: Graph, n: Node, n': Node)
    requires |g.inputs| == 1
  {
    && n'.op == n.op && n'.attr == n.attr && n'.outputs == n.outputs && |n'.inputs| == |n.inputs|
    && forall i :: 0 <= i < |n.inputs| ==> n'.inputs[i] == Redirect(Stem(g), g.nodes, n.inputs[i])
  }

  ghost function NotQuantizing(g: Graph): nat -> bool
    requires |g.inputs| == 1
  {
    (k: nat) => k < |g.nodes| && !QuantizesInput(g, g.nodes[k])
  }

  ghost predicate EntryKept(g: Graph, nodes: seq<Node>, at: seq<nat>)
    requires |g.inputs| == 1
  {
    |nodes| == |at| && forall k :: 0 <= k < |at| ==> at[k] < |g.nodes| && Rewires(g, g.nodes[at[k]], nodes[k])
  }

  lemma {:induction false} EntryKeeps(g: Graph, m: nat) returns (at: seq<nat>)
    requires WellFormed(g) && |g.inputs| == 1 && m <= |g.nodes|
    ensures KeptAt(at, m, NotQuantizing(g)) && EntryKept(g, EntryNodes(Stem(g), g.nodes, g.nodes[..m]), at)
  {
    at := [];
    if m == 0 {
      assert g.nodes[..0] == [];
    } else {
      var l: nat := m - 1;
      var before := EntryKeeps(g, l);
      at := before + if NotQuantizing(g)(l) then [l] else [];
      KeepOneMore(before, l, NotQuantizing(g));
      EntryKeepsOneMore(g, l, before);
    }
  }

  lemma EntryKeepsOneMore(g: Graph, l: nat, before: seq<nat>)
    requires WellFormed(g) && |g.inputs| == 1 && l < |g.nodes|
    requires EntryKept(g, EntryNodes(Stem(g), g.nodes, g.nodes[..l]), before)
    ensures EntryKept(g, EntryNodes(Stem(g), g.nodes, g.nodes[..l + 1]),
                      before + if NotQuantizing(g)(l) then [l] else [])
  {
    PrefixOneMore(Stem(g), g.nodes, l);
    EdgeIff(g, g.nodes[l]);
    RewiredRewires(g, g.nodes[l]);
  }

  lemma RewiredRewires(g: Graph, n: Node)
    requires |g.inputs| == 1
    ensures Rewires(g, n, Rewired(Stem(g), g.nodes, n))
  {
  }

  // Entry surgery deletes the quantizers of the input and nothing else, keeps the
  // order of the rest, and leaves outputs and initializers alone.
  lemma EntryDeletes(g: Graph) returns (at: seq<nat>)
    requires WellFormed(g) && |g.inputs| == 1
    ensures var c := Converted(g);
            && KeptAt(at, |g.nodes|, NotQuantizing(g))
            && EntryKept(g, c.nodes, at)
            && c.inputs == [ValueInfo(g.inputs[0].name, UInt8)] && c.outputs == g.outputs && c.inits == g.inits
  {
    assert g.nodes[..|g.nodes|] == g.nodes;
    at := EntryKeeps(g, |g.nodes|);
  }

  ghost function NotForgotten(g: Graph): nat -> bool
    requires |g.inputs| == 1
  {
    (k: nat) => k < |g.info| && !exists n :: QuantizesInput(g, n) && g.info[k].name in n.outputs
  }

  // A declaration kept names the same tensor, of bytes if it is reached.
  ghost predicate Redeclares(g: Graph, v: ValueInfo, v': ValueInfo)
    requires |g.inputs| == 1
  {
    v'.name == v.name && (Reached(g, v.name) ==> v'.elem == UInt8) && (!Reached(g, v.name) ==> v'.elem == v.elem)
  }

  lemma DeadIs(g: Graph, t: string)
    requires WellFormed(g) && |g.inputs| == 1
    ensures t in Dead(Stem(g), g.nodes) <==> exists n :: QuantizesInput(g, n) && t in n.outputs
  {
    forall n ensures QuantizesInput(g, n) <==> n in g.nodes && IsEdge(Stem(g), n) { EdgeIff(g, n); }
  }

  // The declarations of what the deleted quantizers made are gone, the others
  // kept in order.
  lemma {:induction false} EntryRedeclares(g: Graph, m: nat) returns (at: seq<nat>)
    requires WellFormed(g) && |g.inputs| == 1 && m <= |g.info|
    ensures KeptAt(at, m, NotForgotten(g))
    ensures var info := EntryInfo(Stem(g), Dead(Stem(g), g.nodes), g.info[..m]);
            |info| == |at| && forall k :: 0 <= k < |at| ==> at[k] < |g.info| && Redeclares(g, g.info[at[k]], info[k])
    ensures m == |g.info| ==> Converted(g).info == EntryInfo(Stem(g), Dead(Stem(g), g.nodes), g.info[..m])
  {
    assert g.info[..|g.info|] == g.info;
    at := [];
    if m > 0 {
      var l: nat := m - 1;
      var before := EntryRedeclares(g, l);
      assert g.info[..m][..l] == g.info[..l];
      DeadIs(g, g.info[l].name);
      StemIsReached(g, g.info[l].name);
      KeepOneMore(before, l, NotForgotten(g));
      at := before + if NotForgotten(g)(l) then [l] else [];
    }
  }

  ghost function NotNode(nodes: seq<Node>, d: Node): nat -> bool { (k: nat) => k < |nodes| && nodes[k] != d }

  // What stays of one node once codes `code` go by the name `out`.
  ghost predicate Renames(n: Node, n': Node, code: string, out: string) {
    && n'.op == n.op && n'.attr == n.attr && n'.inputs == n.inputs && |n'.outputs| == |n.outputs|
    && forall i :: 0 <= i < |n.outputs| ==> n'.outputs[i] == if n.outputs[i] == code then out else n.outputs[i]
  }

  lemma {:induction false} ExitKeeps(nodes: seq<Node>, code: string, out: string, d: Node) returns (at: seq<nat>)
    ensures KeptAt(at, |nodes|, NotNode(nodes, d))
    ensures var kept := Exit.ExitNodes(nodes, code, out, d);
            |kept| == |at| && forall k :: 0 <= k < |at| ==> at[k] < |nodes| && Renames(nodes[at[k]], kept[k], code, out)
  {
    at := [];
    if nodes != [] {
      var front, l: nat := nodes[..|nodes| - 1], |nodes| - 1;
      var before := ExitKeeps(front, code, out, d);
      SameKept(before, front, nodes, d);
      KeepOneMore(before, l, NotNode(nodes, d));
      at := before + if NotNode(nodes, d)(l) then [l] else [];
      assert forall k :: 0 <= k < |before| ==> before[k] in before && front[before[k]] == nodes[before[k]];
    }
  }

  lemma SameKept(at: seq<nat>, front: seq<Node>, nodes: seq<Node>, d: Node)
    requires front <= nodes && KeptAt(at, |front|, NotNode(front, d))
    ensures KeptAt(at, |front|, NotNode(nodes, d))
  {
  }

  // One step of exit surgery deletes one dequantizer and nothing else, gives its
  // codes the output's name, and leaves inputs, initializers and the other outputs
  // alone.
  lemma ExitDeletes(g: Graph, i: nat, d: Node) returns (at: seq<nat>)
    requires i < |g.outputs|
    ensures var c, code, out := Exit.ExitOne(g, i, d), Exit.CodesOf(d), g.outputs[i].name;
            && KeptAt(at, |g.nodes|, NotNode(g.nodes, d))
            && |c.nodes| == |at|
            && (forall k :: 0 <= k < |at| ==> at[k] < |g.nodes| && Renames(g.nodes[at[k]], c.nodes[k], code, out))
            && c.inputs == g.inputs && c.inits == g.inits
            && |c.outputs| == |g.outputs| && c.outputs[i] == ValueInfo(out, UInt8)
            && (forall j :: 0 <= j < |g.outputs| && j != i ==> c.outputs[j] == g.outputs[j])
  {
    at := ExitKeeps(g.nodes, Exit.CodesOf(d), g.outputs[i].name, d);
  }

  ghost function NotNamed(info: seq<ValueInfo>, t: string): nat -> bool {
    (k: nat) => k < |info| && info[k].name != t
  }

  lemma {:induction false} InfoForgets(info: seq<ValueInfo>, m: nat, t: string) returns (at: seq<nat>)
    requires m <= |info|
    ensures KeptAt(at, m, NotNamed(info, t))
    ensures var kept := Exit.DropInfo(info[..m], t);
            |kept| == |at| && forall k :: 0 <= k < |at| ==> at[k] < |info| && kept[k] == info[at[k]]
  {
    at := [];
    if m > 0 {
      var l: nat := m - 1;
      var before := InfoForgets(info, l, t);
      assert info[..m][..l] == info[..l];
      KeepOneMore(before, l, NotNamed(info, t));
      at := before + if NotNamed(info, t)(l) then [l] else [];
    }
  }

  // And forgets the declaration of the codes under their old name.
  lemma ExitForgets(g: Graph, i: nat, d: Node) returns (at: seq<nat>)
    requires i < |g.outputs|
    ensures KeptAt(at, |g.info|, NotNamed(g.info, Exit.CodesOf(d)))
    ensures var kept := Exit.ExitOne(g, i, d).info;
            |kept| == |at| && forall k :: 0 <= k < |at| ==> at[k] < |g.info| && kept[k] == g.info[at[k]]
  {
    assert g.info[..|g.info|] == g.info;
    at := InfoForgets(g.info, |g.info|, Exit.CodesOf(d));
  }

  lemma {:induction false} DroppedIff(info: seq<ValueInfo>, t: string, v: ValueInfo)
    ensures v in Exit.DropInfo(info, t) <==> v in info && v.name != t
  {
    if info != [] {
      DroppedIff(info[..|info| - 1], t, v);
      assert info == info[..|info| - 1] + [info[|info| - 1]];
    }
  }

  // No output rewritten before the `m`th handed over codes named `t`.
  ghost predicate NotHandedOver(g: Graph, m: nat, t: string)
    requires m <= |g.outputs|
  {
    forall j :: 0 <= j < m ==> t != Exit.CodesOf(Exit.DequantizerOf(g, j))
  }

  lemma NextForgets(g: Graph, l: nat)
    requires l < |g.outputs|
    ensures Exit.ExitUpTo(g, l + 1).info
         == Exit.DropInfo(Exit.ExitUpTo(g, l).info, Exit.CodesOf(Exit.DequantizerOf(g, l)))
  {
  }

  // Once every output is rewritten, the declarations left are those of none of
  // the codes handed over.
  lemma {:induction false} ExportForgets(g: Graph, m: nat, v: ValueInfo)
    requires m <= |g.outputs|
    ensures v in Exit.ExitUpTo(g, m).info <==> v in g.info && NotHandedOver(g, m, v.name)
  {
    if m == 0 {
      assert Exit.ExitUpTo(g, 0).info == g.info;
    } else {
      var l: nat := m - 1;
      ExportForgets(g, l, v);
      NextForgets(g, l);
      DroppedIff(Exit.ExitUpTo(g, l).info, Exit.CodesOf(Exit.DequantizerOf(g, l)), v);
      assert NotHandedOver(g, m, v.name)
        <==> NotHandedOver(g, l, v.name) && v.name != Exit.CodesOf(Exit.DequantizerOf(g, l));
    }
  }
}
