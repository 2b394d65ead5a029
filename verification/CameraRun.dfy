/**
 One camera over a whole run: the gate's decision, the model pass it does or
 does not authorize, and the line either way. The epoch table is read twice for
 each sample, once by the gate and once by the publisher, and the control
 thread may change it in between.
 */
module CameraRun {
  import opened Common
  import opened Motion
  import opened Gate
  import opened Emit

  // One sample: what the two reads of the epoch table gave, its measurement,
  // and what the model finds on it if it is run.
  datatype Seen = Seen(
    gateEpoch: Option<string>, lineEpoch: Option<string>, verdict: Option<MotionVerdict>,
    pts: int, stamp: string, now: int, dets: seq<Det>)

  datatype Setup = Setup(wire: Wire, config: Option<MotionConfig>, camera: string)

  datatype Cam = Cam(gate: GateState, out: CameraState)

  const START := Cam(CLOSED, FRESH)

  datatype Handling = Handling(cam: Cam, decision: Decision, line: Option<Line>)

  // A camera whose gate is off is not asked for its epoch.
  function Asked(u: Setup, s: Seen): Option<string> { if u.config.None? then None else s.gateEpoch }

  function Handled(u: Setup, cam: Cam, s: Seen): Handling {
    var (gate, decision) := Decided(u.config, cam.gate, s.verdict, Asked(u, s), s.now);
    var source := if decision == Detect then Inferred(s.dets) else Remembered;
    var (out, line) := Emitted(u.wire, s.lineEpoch, cam.out, u.camera, s.pts, s.stamp, source);
    Handling(Cam(gate, out), decision, line)
  }

  // -------------------------------------------------------------------------
  // Runs
  // -------------------------------------------------------------------------

  function CamAfter(u: Setup, h: seq<Seen>, n: nat): Cam
    requires n <= |h|
  {
    if n == 0 then START else Handled(u, CamAfter(u, h, n - 1), h[n - 1]).cam
  }

  function At(u: Setup, h: seq<Seen>, k: nat): Handling
    requires k < |h|
  {
    Handled(u, CamAfter(u, h, k), h[k])
  }

  // Whether the model ran on sample `k`.
  predicate Passes(u: Setup, h: seq<Seen>, k: nat)
    requires k < |h|
  {
    At(u, h, k).decision == Detect
  }

  // A line on the wire, the sample it came from, and whether the model ran.
  datatype Sent = Sent(line: Line, at: nat, inferred: bool)

  function Trace(u: Setup, h: seq<Seen>, n: nat): seq<Sent>
    requires n <= |h|
  {
    if n == 0 then []
    else
      var a := At(u, h, n - 1);
      Trace(u, h, n - 1)
      + if a.line.Some? then [Sent(a.line.value, n - 1, a.decision == Detect)] else []
  }

  // -------------------------------------------------------------------------
  // One sample, in the policy's terms and the line's own fields
  // -------------------------------------------------------------------------

  // What the gate is handed over the run.
  function GateSamples(h: seq<Seen>): (samples: seq<Sample>)
    ensures |samples| == |h|
    ensures forall i :: 0 <= i < |h| ==> samples[i] == Sample(h[i].verdict, h[i].gateEpoch, h[i].now)
  {
    seq(|h|, i requires 0 <= i < |h| => Sample(h[i].verdict, h[i].gateEpoch, h[i].now))
  }

  lemma {:induction false} GateIsAfter(u: Setup, h: seq<Seen>, n: nat)
    requires n <= |h| && u.config.Some?
    ensures CamAfter(u, h, n).gate == GateAfter(u.config.value, GateSamples(h)[..n])
  {
    if n > 0 {
      var m: nat := n - 1;
      GateIsAfter(u, h, m);
      GateStep(u.config.value, GateSamples(h), m);
    }
  }

  // The model runs on every sample of a camera without a gate, and of one with a
  // gate exactly on those the policy says, by the epoch the gate read.
  lemma PassesIffPolicy(u: Setup, h: seq<Seen>, k: nat)
    requires k < |h| && TimeOrdered(h)
    ensures u.config.None? ==> Passes(u, h, k)
    ensures u.config.Some? ==> (Passes(u, h, k) <==> ShouldDetect(u.config.value, GateSamples(h), k))
  {
    if u.config.Some? {
      GateIsAfter(u, h, k);
      DecisionIsPolicy(u.config.value, GateSamples(h), k);
    }
  }

  // And its line is the frame of what the model found on it, or of what is
  // remembered, by the epoch the publisher read.
  lemma LineIsFrame(u: Setup, h: seq<Seen>, k: nat)
    requires k < |h|
    ensures FrameMeans(u.wire, h[k].lineEpoch, CamAfter(u, h, k).out, u.camera, h[k].pts, h[k].stamp,
                       if Passes(u, h, k) then Inferred(h[k].dets) else Remembered,
                       At(u, h, k).cam.out, At(u, h, k).line)
  {
    EmittedMeans(u.wire, h[k].lineEpoch, CamAfter(u, h, k).out, u.camera, h[k].pts, h[k].stamp,
                 if Passes(u, h, k) then Inferred(h[k].dets) else Remembered);
  }

  // -------------------------------------------------------------------------
  // Numbering and accounting
  // -------------------------------------------------------------------------

  ghost predicate Numbered(tr: seq<Sent>) {
    forall i :: 0 <= i < |tr| ==> tr[i].line.sequence == i
  }

  function Ungated(h: seq<Seen>, n: nat): nat
    requires n <= |h|
  {
    if n == 0 then 0 else Ungated(h, n - 1) + if h[n - 1].lineEpoch.None? then 1 else 0
  }

  function Unbounded(h: seq<Seen>, n: nat): nat
    requires n <= |h|
  {
    if n == 0 then 0
    else Unbounded(h, n - 1) + if h[n - 1].lineEpoch.Some? && !PtsInRange(h[n - 1].pts) then 1 else 0
  }

  // Sequence numbers are 0, 1, 2, ... with no gap and no repeat, and every
  // sample is one line or one counted suppression of a known cause.
  lemma {:induction false} LinesAreNumbered(u: Setup, h: seq<Seen>, n: nat)
    requires n <= |h|
    ensures Numbered(Trace(u, h, n)) && |Trace(u, h, n)| == CamAfter(u, h, n).out.sequence
    ensures CamAfter(u, h, n).out.ungated == Ungated(h, n)
    ensures CamAfter(u, h, n).out.unboundedPts == Unbounded(h, n)
    ensures n == |Trace(u, h, n)| + Ungated(h, n) + Unbounded(h, n)
  {
    if n > 0 { LinesAreNumbered(u, h, n - 1); }
  }

  // -------------------------------------------------------------------------
  // The seed memory
  // -------------------------------------------------------------------------

  // The last inferred line, when every line since has carried its epoch.
  ghost predicate IsSeedSource(tr: seq<Sent>, j: nat) {
    && j < |tr| && tr[j].inferred
    && forall i :: j < i < |tr| ==> !tr[i].inferred && tr[i].line.epoch == tr[j].line.epoch
  }

  ghost predicate Remembers(tr: seq<Sent>, mem: seq<Det>) {
    || (mem == [] && forall j: nat :: !IsSeedSource(tr, j))
    || (exists j: nat :: IsSeedSource(tr, j) && mem == SeedsFrom(tr[j].line.objects))
  }

  function LastEpoch(tr: seq<Sent>): Option<string> {
    if tr == [] then None else Some(tr[|tr| - 1].line.epoch)
  }

  lemma SourceGrows(tr: seq<Sent>, s: Sent, mem: seq<Det>)
    requires Remembers(tr, mem) && !s.inferred
    ensures Remembers(tr + [s], if LastEpoch(tr) == Some(s.line.epoch) then mem else [])
  {
    var more := tr + [s];
    var same := LastEpoch(tr) == Some(s.line.epoch);
    forall j: nat ensures IsSeedSource(more, j) <==> IsSeedSource(tr, j) && same {
      SourceStep(tr, s, j);
    }
    if j: nat :| IsSeedSource(tr, j) && mem == SeedsFrom(tr[j].line.objects) {
      assert same ==> IsSeedSource(more, j) && more[j] == tr[j];
    }
  }

  lemma SourceStep(tr: seq<Sent>, s: Sent, j: nat)
    requires !s.inferred
    ensures IsSeedSource(tr + [s], j) <==> IsSeedSource(tr, j) && LastEpoch(tr) == Some(s.line.epoch)
  {
    var more := tr + [s];
    if IsSeedSource(more, j) {
      assert j < |tr| && more[j] == tr[j];
      forall i | j < i < |tr| ensures !tr[i].inferred && tr[i].line.epoch == tr[j].line.epoch {
        assert more[i] == tr[i];
      }
      assert more[|tr|] == s;
    }
    if IsSeedSource(tr, j) {
      assert tr[|tr| - 1].line.epoch == tr[j].line.epoch;
    }
  }

  lemma SourceIsNew(tr: seq<Sent>, s: Sent)
    requires s.inferred
    ensures Remembers(tr + [s], SeedsFrom(s.line.objects))
  {
    assert IsSeedSource(tr + [s], |tr|);
  }

  lemma MemoryStep(u: Setup, cam: Cam, seen: Seen, tr: seq<Sent>, at: nat)
    requires Remembers(tr, cam.out.lastDets) && LastEpoch(tr) == cam.out.epoch
    ensures var a := Handled(u, cam, seen);
            var more := tr + if a.line.Some? then [Sent(a.line.value, at, a.decision == Detect)] else [];
            Remembers(more, a.cam.out.lastDets) && LastEpoch(more) == a.cam.out.epoch
  {
    var a := Handled(u, cam, seen);
    if a.line.Some? {
      var s := Sent(a.line.value, at, a.decision == Detect);
      if s.inferred { SourceIsNew(tr, s); } else { SourceGrows(tr, s, cam.out.lastDets); }
    } else {
      assert tr + [] == tr;
    }
  }

  // The memory holds the seeds of what the last inferred line carried, unless
  // a line since has changed epoch; then it holds nothing.
  lemma {:induction false} MemoryIsSeeds(u: Setup, h: seq<Seen>, n: nat)
    requires n <= |h|
    ensures Remembers(Trace(u, h, n), CamAfter(u, h, n).out.lastDets)
    ensures LastEpoch(Trace(u, h, n)) == CamAfter(u, h, n).out.epoch
  {
    if n > 0 {
      var m: nat := n - 1;
      MemoryIsSeeds(u, h, m);
      MemoryStep(u, CamAfter(u, h, m), h[m], Trace(u, h, m), m);
    }
  }

  // What one skipped sample's line may carry after the lines of `tr`.
  ghost predicate Seeded(u: Setup, tr: seq<Sent>, line: Line) {
    || (line.objects == [] && forall j: nat :: !(IsSeedSource(tr, j) && tr[j].line.epoch == line.epoch))
    || (exists j: nat ::
          && IsSeedSource(tr, j) && tr[j].line.epoch == line.epoch
          && line == Shed(u.wire, line.(objects := SeedsFrom(tr[j].line.objects))))
  }

  // A skipped sample's objects are the seeds of what the last inferred line
  // carried, cut to the line budget, and only under that line's epoch: a
  // change of epoch that lands between the two reads empties the line.
  lemma SkippedLineIsSeeded(u: Setup, h: seq<Seen>, k: nat)
    requires k < |h| && !Passes(u, h, k) && At(u, h, k).line.Some?
    ensures Seeded(u, Trace(u, h, k), At(u, h, k).line.value)
  {
    MemoryIsSeeds(u, h, k);
    var tr, line, out := Trace(u, h, k), At(u, h, k).line.value, CamAfter(u, h, k).out;
    SourceHasLastEpoch(tr);
    if out.epoch == Some(line.epoch) {
      if j: nat :| IsSeedSource(tr, j) && out.lastDets == SeedsFrom(tr[j].line.objects) {
        assert line == Shed(u.wire, line.(objects := SeedsFrom(tr[j].line.objects)));
      }
    }
  }

  lemma SourceHasLastEpoch(tr: seq<Sent>)
    ensures forall j: nat :: IsSeedSource(tr, j) ==> Some(tr[j].line.epoch) == LastEpoch(tr)
  {
    forall j: nat | IsSeedSource(tr, j) ensures Some(tr[j].line.epoch) == LastEpoch(tr) {
      if j < |tr| - 1 { assert tr[|tr| - 1].line.epoch == tr[j].line.epoch; }
    }
  }

  // -------------------------------------------------------------------------
  // The trace and the run
  // -------------------------------------------------------------------------

  ghost predicate TracedAt(u: Setup, h: seq<Seen>, n: nat, tr: seq<Sent>, i: nat)
    requires n <= |h| && i < |tr|
  {
    && tr[i].at < n
    && At(u, h, tr[i].at).line == Some(tr[i].line)
    && (tr[i].inferred <==> Passes(u, h, tr[i].at))
    && (i > 0 ==> tr[i - 1].at < tr[i].at)
  }

  lemma {:induction false} TraceIsSound(u: Setup, h: seq<Seen>, n: nat, i: nat)
    requires n <= |h| && i < |Trace(u, h, n)|
    ensures TracedAt(u, h, n, Trace(u, h, n), i)
  {
    var before := Trace(u, h, n - 1);
    if i < |before| {
      TraceIsSound(u, h, n - 1, i);
    } else if i > 0 {
      TraceIsSound(u, h, n - 1, i - 1);
    }
  }

  lemma {:induction false} TraceIsOrdered(u: Setup, h: seq<Seen>, n: nat, i: nat, j: nat)
    requires n <= |h| && i <= j < |Trace(u, h, n)|
    ensures Trace(u, h, n)[i].at <= Trace(u, h, n)[j].at
  {
    if i < j {
      TraceIsSound(u, h, n, j);
      TraceIsOrdered(u, h, n, i, j - 1);
    }
  }

  lemma TraceGrows(u: Setup, h: seq<Seen>, n: nat)
    requires n < |h|
    ensures Trace(u, h, n) <= Trace(u, h, n + 1)
    ensures At(u, h, n).line.Some? ==>
              |Trace(u, h, n + 1)| == |Trace(u, h, n)| + 1 && Trace(u, h, n + 1)[|Trace(u, h, n)|].at == n
  {
  }

  lemma {:induction false} TraceIsComplete(u: Setup, h: seq<Seen>, n: nat, k: nat) returns (i: nat)
    requires k < n <= |h| && At(u, h, k).line.Some?
    ensures i < |Trace(u, h, n)| && Trace(u, h, n)[i].at == k
  {
    var m: nat := n - 1;
    TraceGrows(u, h, m);
    if k == m { i := |Trace(u, h, m)|; } else { i := TraceIsComplete(u, h, m, k); }
  }

  // An inferred line carries objects the model found on that very sample.
  lemma InferredLineIsFound(u: Setup, h: seq<Seen>, k: nat)
    requires k < |h| && Passes(u, h, k) && At(u, h, k).line.Some?
    ensures At(u, h, k).line.value.objects <= h[k].dets
  {
  }

  // -------------------------------------------------------------------------
  // Every seed was found recently
  // -------------------------------------------------------------------------

  // `d` was found by a pass on sample `a`, put on the wire with it, and is
  // what `s` re-reports.
  ghost predicate FoundAt(u: Setup, h: seq<Seen>, a: nat, s: Det) {
    && a < |h| && Passes(u, h, a) && At(u, h, a).line.Some?
    && exists d :: d in At(u, h, a).line.value.objects && d in h[a].dets && d.evidence && Rereports(s, d)
  }

  ghost predicate SourceAt(u: Setup, h: seq<Seen>, k: nat, a: nat)
    requires k < |h|
  {
    exists j: nat :: IsSeedSource(Trace(u, h, k), j) && Trace(u, h, k)[j].at == a
  }

  // Nothing reaches a seeded line that a model pass did not find, at or above
  // its floor, and put on the wire; it comes back as a track without its
  // embedding.
  lemma SeededObjectWasFound(u: Setup, h: seq<Seen>, k: nat, s: Det) returns (a: nat)
    requires k < |h| && !Passes(u, h, k) && At(u, h, k).line.Some? && s in At(u, h, k).line.value.objects
    ensures s.kind == Tracked && s.embedding == None && s.evidence
    ensures a < k && FoundAt(u, h, a, s) && SourceAt(u, h, k, a)
    ensures At(u, h, a).line.value.epoch == At(u, h, k).line.value.epoch
  {
    SkippedLineIsSeeded(u, h, k);
    var tr, line := Trace(u, h, k), At(u, h, k).line.value;
    var j: nat :| IsSeedSource(tr, j) && tr[j].line.epoch == line.epoch
              && line == Shed(u.wire, line.(objects := SeedsFrom(tr[j].line.objects)));
    SeedsAreEvidence(tr[j].line.objects, s);
    TraceIsSound(u, h, k, j);
    a := tr[j].at;
    InferredLineIsFound(u, h, a);
  }

  // The last sample before `n` the model ran on.
  function LastPass(u: Setup, h: seq<Seen>, n: nat): (b: Option<nat>)
    requires n <= |h|
    ensures b.Some? ==> b.value < n && Passes(u, h, b.value)
    ensures forall m :: (if b.Some? then b.value < m else 0 <= m) && m < n ==> !Passes(u, h, m)
  {
    if n == 0 then None else if Passes(u, h, n - 1) then Some(n - 1) else LastPass(u, h, n - 1)
  }

  lemma PassStampsGate(u: Setup, cam: Cam, s: Seen)
    requires u.config.Some?
    ensures var a := Handled(u, cam, s);
            && a.cam.gate.lastInference == (if a.decision == Detect then Some(s.now) else cam.gate.lastInference)
            && a.cam.gate.epoch == s.gateEpoch
  {
  }

  lemma {:induction false} GateKnowsLastPass(u: Setup, h: seq<Seen>, n: nat)
    requires n <= |h| && u.config.Some?
    ensures var b := LastPass(u, h, n);
            CamAfter(u, h, n).gate.lastInference == if b.Some? then Some(h[b.value].now) else None
    ensures CamAfter(u, h, n).gate.epoch == if n == 0 then None else h[n - 1].gateEpoch
  {
    if n > 0 {
      var m: nat := n - 1;
      GateKnowsLastPass(u, h, m);
      PassStampsGate(u, CamAfter(u, h, m), h[m]);
    }
  }

  predicate TimeOrdered(h: seq<Seen>) { forall i, j :: 0 <= i <= j < |h| ==> h[i].now <= h[j].now }

  // Whatever else happens, a skipped sample is less than the re-verify bound
  // past the last model pass.
  lemma SkipFollowsPass(u: Setup, h: seq<Seen>, k: nat) returns (b: nat)
    requires k < |h| && TimeOrdered(h) && !Passes(u, h, k)
    ensures u.config.Some? && u.config.value.reverifyMs > 0 && h[k].gateEpoch.Some?
    ensures b < k && LastPass(u, h, k) == Some(b)
    ensures h[k].now - h[b].now < u.config.value.reverifyMs * NS_PER_MS
  {
    GateKnowsLastPass(u, h, k);
    b := LastPass(u, h, k).value;
  }

  // A seed source that is not the last model pass was followed by a pass whose
  // line was suppressed.
  lemma SuppressedPass(u: Setup, h: seq<Seen>, k: nat, a: nat, b: nat)
    requires a < b < k < |h| && SourceAt(u, h, k, a) && Passes(u, h, b)
    ensures At(u, h, b).line.None?
  {
    var tr := Trace(u, h, k);
    var j: nat :| IsSeedSource(tr, j) && tr[j].at == a;
    if At(u, h, b).line.Some? {
      var i := TraceIsComplete(u, h, k, b);
      TraceIsSound(u, h, k, i);
      if i <= j { TraceIsOrdered(u, h, k, i, j); }
    }
  }

  // With a bypass window at all, the sample that sees a new epoch is a pass;
  // so the epoch holds still between passes.
  lemma {:induction false} EpochHolds(u: Setup, h: seq<Seen>, b: nat, k: nat)
    requires b <= k < |h| && u.config.Some? && u.config.value.epochBypassMs > 0
    requires forall m :: b < m <= k ==> !Passes(u, h, m)
    ensures h[k].gateEpoch == h[b].gateEpoch
  {
    if b < k {
      EpochHolds(u, h, b, k - 1);
      GateKnowsLastPass(u, h, k);
      assert !Passes(u, h, k);
    }
  }

  // The clock does not go back, and the samples' timestamps are timestamps.
  ghost predicate Dated(h: seq<Seen>) {
    TimeOrdered(h) && forall i :: 0 <= i < |h| ==> PtsInRange(h[i].pts)
  }

  // An epoch the publisher has seen another reading after is not read again:
  // the host gives every stream a new epoch.
  predicate NoReturn(h: seq<Seen>) {
    forall i, j, m :: 0 <= i < j < m < |h| && h[i].lineEpoch.Some? && h[m].lineEpoch == h[i].lineEpoch ==>
      h[j].lineEpoch == h[i].lineEpoch
  }

  // The bound the gate promises on how long a seed outlives its object.
  ghost predicate FreshAt(u: Setup, h: seq<Seen>, k: nat, s: Det)
    requires k < |h| && u.config.Some?
  {
    exists a :: 0 <= a < k && FoundAt(u, h, a, s) && h[k].now - h[a].now < u.config.value.reverifyMs * NS_PER_MS
  }

  lemma NoPassSince(u: Setup, h: seq<Seen>, k: nat, b: nat)
    requires k < |h| && !Passes(u, h, k) && LastPass(u, h, k) == Some(b)
    ensures b < k && forall m :: b < m <= k ==> !Passes(u, h, m)
  {
  }

  lemma SentIff(u: Setup, cam: Cam, s: Seen)
    ensures Handled(u, cam, s).line.Some? <==> s.lineEpoch.Some? && PtsInRange(s.pts)
  {
  }

  // While no epoch comes back, every pass since a seed's source had a line: the
  // source's epoch is the skipped sample's, so it is the pass's as well.
  lemma PassBetweenIsSent(u: Setup, h: seq<Seen>, a: nat, b: nat, k: nat)
    requires a < b < k < |h| && Dated(h) && NoReturn(h)
    requires At(u, h, a).line.Some? && At(u, h, k).line.Some?
    requires At(u, h, a).line.value.epoch == At(u, h, k).line.value.epoch
    ensures At(u, h, b).line.Some?
  {
    LineEpochIsRead(u, CamAfter(u, h, a), h[a]);
    LineEpochIsRead(u, CamAfter(u, h, k), h[k]);
    assert h[b].lineEpoch == h[a].lineEpoch;
    SentIff(u, CamAfter(u, h, b), h[b]);
  }

  lemma LineEpochIsRead(u: Setup, cam: Cam, s: Seen)
    ensures var line := Handled(u, cam, s).line; line.Some? ==> Some(line.value.epoch) == s.lineEpoch
  {
  }

  // No seed outlives its object by the re-verify bound: an object on a skipped
  // sample's line was found by a pass less than that bound before. It holds
  // for every configuration, whatever the two reads of the epoch table saw.
  lemma SeedsAreFresh(u: Setup, h: seq<Seen>, k: nat, s: Det)
    requires k < |h| && Dated(h) && NoReturn(h) && !Passes(u, h, k)
    requires At(u, h, k).line.Some? && s in At(u, h, k).line.value.objects
    ensures u.config.Some? && FreshAt(u, h, k, s)
  {
    var a := SeededObjectWasFound(u, h, k, s);
    var b := SkipFollowsPass(u, h, k);
    if a < b {
      SuppressedPass(u, h, k, a, b);
      PassBetweenIsSent(u, h, a, b, k);
    }
    assert a <= b;
  }

  // -------------------------------------------------------------------------
  // The bound when an ended epoch is announced again
  // -------------------------------------------------------------------------

  // No control line lands between a sample's two reads.
  ghost predicate Steady(h: seq<Seen>) {
    Dated(h) && forall i :: 0 <= i < |h| ==> h[i].gateEpoch == h[i].lineEpoch
  }

  lemma LastPassIsSent(u: Setup, h: seq<Seen>, k: nat, b: nat)
    requires k < |h| && Steady(h) && !Passes(u, h, k) && LastPass(u, h, k) == Some(b)
    requires u.config.Some? && u.config.value.epochBypassMs > 0 && h[k].gateEpoch.Some?
    ensures At(u, h, b).line.Some?
  {
    NoPassSince(u, h, k, b);
    EpochHolds(u, h, b, k);
    SentIff(u, CamAfter(u, h, b), h[b]);
  }

  // With a bypass window the bound holds on steady runs even where epochs come
  // back.
  lemma SteadySeedsAreFresh(u: Setup, h: seq<Seen>, k: nat, s: Det)
    requires k < |h| && Steady(h) && !Passes(u, h, k)
    requires At(u, h, k).line.Some? && s in At(u, h, k).line.value.objects
    requires u.config.Some? && (u.config.value.epochBypassMs > 0 || u.config.value.reverifyMs == 0)
    ensures FreshAt(u, h, k, s)
  {
    var a := SeededObjectWasFound(u, h, k, s);
    var b := SkipFollowsPass(u, h, k);
    LastPassIsSent(u, h, k, b);
    if a < b { SuppressedPass(u, h, k, a, b); }
    assert a == b;
  }

  const QUIET := MotionVerdict(0.0, false, false, false)

  function Still(gateEpoch: Option<string>, lineEpoch: Option<string>, pts: int, now: int, dets: seq<Det>): Seen {
    Seen(gateEpoch, lineEpoch, Some(QUIET), pts, "", now, dets)
  }

  // A pass that finds `d`; a pass at `T` whose line is suppressed; and, in the
  // same instant, a sample the gate skips.
  function ThreeSamples(d: Det, e: string, mid: Seen): seq<Seen> {
    [Still(Some(e), Some(e), 0, 0, [d]), mid, Still(Some(e), Some(e), 0, mid.now, [])]
  }

  function Unlimited(c: MotionConfig): Setup { Setup(l => 0, Some(c), "camera") }

  // Only the sample at time 0 found `d`, and the skipped one re-reports it.
  ghost predicate StaleAfter(c: MotionConfig, d: Det, h: seq<Seen>) {
    && |h| == 3 && !Passes(Unlimited(c), h, 2)
    && At(Unlimited(c), h, 2).line.Some? && SeedOf(d) in At(Unlimited(c), h, 2).line.value.objects
    && !FreshAt(Unlimited(c), h, 2, SeedOf(d))
  }

  function FirstCam(d: Det, e: string): Cam {
    Cam(GateState(None, Some(0), Some(e), Some(0)), CameraState(1, 0, 0, [SeedOf(d)], Some(e)))
  }

  lemma FirstSampleFinds(c: MotionConfig, d: Det, e: string, mid: Seen)
    requires d.evidence
    ensures var h := ThreeSamples(d, e, mid);
            Passes(Unlimited(c), h, 0) && CamAfter(Unlimited(c), h, 1) == FirstCam(d, e)
  {
    var h := ThreeSamples(d, e, mid);
    var full := Line("camera", e, 0, 0, "", [d]);
    assert full.objects[..1] == [d];
    assert At(Unlimited(c), h, 0).line == Some(Shed(l => 0, full));
    assert SeedsFrom([d]) == SeedsFrom([]) + [SeedOf(d)];
  }

  // The camera after a suppressed pass at `now`: the gate stamped, the memory
  // as it was, and no window open.
  predicate Stamped(c: MotionConfig, d: Det, e: string, cam: Cam, now: int) {
    && cam.gate.lastMotion.None? && cam.gate.lastInference == Some(now)
    && (cam.gate.epoch == Some(e) || c.epochBypassMs == 0)
    && !Within(cam.gate.epochChangedAt, c.epochBypassMs, now)
    && cam.out.epoch == Some(e) && cam.out.lastDets == [SeedOf(d)]
  }

  lemma StampedSkips(c: MotionConfig, d: Det, e: string, cam: Cam, now: int)
    requires c.reverifyMs > 0 && Stamped(c, d, e, cam, now)
    ensures var a := Handled(Unlimited(c), cam, Still(Some(e), Some(e), 0, now, []));
            a.decision == Skip && a.line.Some? && a.line.value.objects == [SeedOf(d)]
  {
    var full := Line("camera", e, cam.out.sequence, 0, "", [SeedOf(d)]);
    assert full.objects[..1] == [SeedOf(d)];
    assert Handled(Unlimited(c), cam, Still(Some(e), Some(e), 0, now, [])).line == Some(Shed(l => 0, full));
  }

  // A pass that leaves the camera so makes the next sample stale.
  lemma LastSampleReports(c: MotionConfig, d: Det, e: string, mid: Seen)
    requires d.evidence && c.reverifyMs > 0 && mid.now >= c.reverifyMs * NS_PER_MS
    requires var a := Handled(Unlimited(c), FirstCam(d, e), mid);
             a.line.None? && Stamped(c, d, e, a.cam, mid.now)
    ensures StaleAfter(c, d, ThreeSamples(d, e, mid))
  {
    var h, u := ThreeSamples(d, e, mid), Unlimited(c);
    FirstSampleFinds(c, d, e, mid);
    assert At(u, h, 1) == Handled(u, FirstCam(d, e), mid);
    StampedSkips(c, d, e, CamAfter(u, h, 2), mid.now);
    assert forall a :: 0 <= a < 2 && FoundAt(u, h, a, SeedOf(d)) ==> a == 0;
  }

  lemma EpochlessPass(c: MotionConfig, d: Det, e: string, now: int)
    requires c.epochBypassMs == 0
    ensures var a := Handled(Unlimited(c), FirstCam(d, e), Still(None, None, 0, now, []));
            a.line.None? && Stamped(c, d, e, a.cam, now)
  {
  }

  lemma EpochComesBack(d: Det, e: string, now: int)
    requires now >= 0
    ensures var h := ThreeSamples(d, e, Still(None, None, 0, now, []));
            Steady(h) && !NoReturn(h)
  {
    var h := ThreeSamples(d, e, Still(None, None, 0, now, []));
    assert h[0].lineEpoch == h[2].lineEpoch != h[1].lineEpoch;
  }

  // A pass while the camera has no epoch stamps the gate and emits nothing.
  // With no bypass window, the same epoch announced again, which the host never
  // does, causes no other.
  lemma StaleWithoutBypass(c: MotionConfig, d: Det, e: string)
    requires d.evidence && c.reverifyMs > 0 && c.epochBypassMs == 0
    ensures var h := ThreeSamples(d, e, Still(None, None, 0, c.reverifyMs * NS_PER_MS, []));
            Steady(h) && !NoReturn(h) && StaleAfter(c, d, h)
  {
    EpochComesBack(d, e, c.reverifyMs * NS_PER_MS);
    EpochlessPass(c, d, e, c.reverifyMs * NS_PER_MS);
    LastSampleReports(c, d, e, Still(None, None, 0, c.reverifyMs * NS_PER_MS, []));
  }

  // Two ways to lose a pass's line while its epoch holds.
  function LostLine(e: string, badPts: bool, now: int): Seen {
    if badPts then Still(Some(e), Some(e), MAX_PTS + 1, now, []) else Still(Some(e), None, 0, now, [])
  }

  lemma LostPass(c: MotionConfig, d: Det, e: string, badPts: bool, now: int)
    requires now >= c.reverifyMs * NS_PER_MS && now >= c.epochBypassMs * NS_PER_MS
    ensures var a := Handled(Unlimited(c), FirstCam(d, e), LostLine(e, badPts, now));
            a.line.None? && Stamped(c, d, e, a.cam, now)
  {
  }

  lemma LostLineBreaksOne(d: Det, e: string, badPts: bool, now: int)
    requires now >= 0
    ensures var h := ThreeSamples(d, e, LostLine(e, badPts, now));
            TimeOrdered(h) && if badPts then NoReturn(h) && !Dated(h) else Dated(h) && !NoReturn(h)
  {
    var h := ThreeSamples(d, e, LostLine(e, badPts, now));
    if badPts { assert !PtsInRange(h[1].pts); } else { assert h[0].lineEpoch == h[2].lineEpoch != h[1].lineEpoch; }
  }

  // Both conditions of the bound are needed, whatever the configuration. A pass
  // whose timestamp is not one stamps the gate and leaves the memory alone, with
  // the epoch never changing; so does a pass whose line meets the end of an
  // epoch that is then announced again.
  lemma StaleAfterSuppression(c: MotionConfig, d: Det, e: string, badPts: bool)
    requires d.evidence && c.reverifyMs > 0
    ensures var h := ThreeSamples(d, e, LostLine(e, badPts, Max(c.reverifyMs, c.epochBypassMs) * NS_PER_MS));
            && TimeOrdered(h) && StaleAfter(c, d, h)
            && if badPts then NoReturn(h) && !Dated(h) else Dated(h) && !NoReturn(h)
  {
    var now := Max(c.reverifyMs, c.epochBypassMs) * NS_PER_MS;
    LostPass(c, d, e, badPts, now);
    LastSampleReports(c, d, e, LostLine(e, badPts, now));
    LostLineBreaksOne(d, e, badPts, now);
  }

  ghost predicate AlwaysFresh(c: MotionConfig) {
    forall h: seq<Seen>, k: nat, s: Det {:trigger FreshAt(Unlimited(c), h, k, s)} ::
      && k < |h| && Steady(h) && !Passes(Unlimited(c), h, k)
      && At(Unlimited(c), h, k).line.Some? && s in At(Unlimited(c), h, k).line.value.objects
      ==> FreshAt(Unlimited(c), h, k, s)
  }

  // Over runs where an ended epoch may be announced again, the bound holds on
  // every steady one exactly for the cameras that have a bypass window, or that
  // are never gated at all.
  lemma AlwaysFreshIff(c: MotionConfig)
    ensures AlwaysFresh(c) <==> c.epochBypassMs > 0 || c.reverifyMs == 0
  {
    if c.epochBypassMs > 0 || c.reverifyMs == 0 {
      forall h: seq<Seen>, k: nat, s: Det |
        && k < |h| && Steady(h) && !Passes(Unlimited(c), h, k)
        && At(Unlimited(c), h, k).line.Some? && s in At(Unlimited(c), h, k).line.value.objects
        ensures FreshAt(Unlimited(c), h, k, s)
      {
        SteadySeedsAreFresh(Unlimited(c), h, k, s);
      }
    } else {
      var d := Det("person", 1.0, (0.0, 0.0, 1.0, 1.0), Detected, true, None);
      StaleWithoutBypass(c, d, "e");
      var h := ThreeSamples(d, "e", Still(None, None, 0, c.reverifyMs * NS_PER_MS, []));
      assert !FreshAt(Unlimited(c), h, 2, SeedOf(d));
    }
  }
}
