/**
 The whole detect pipeline: the control thread folding announcements into the
 epoch table while one inference thread takes the cameras' samples, one at a
 time, in whatever order they come.
 */
module Pipeline {
  import opened Common
  import opened Control
  import opened Motion
  import opened Gate
  import opened Emit
  import opened CameraRun
  import Telemetry
  import Timestamp

  // -------------------------------------------------------------------------
  // One sample, as the inference loop handles it
  // -------------------------------------------------------------------------

  // `between` is what the control thread folds in after the gate has read the
  // epoch table and before the publisher reads it; `found` is what the model
  // finds if it is run.
  method SampleLine(gate: GateKeeper, reporter: Telemetry.Reporter, publisher: Publisher, wire: Wire, camera: string,
                    config: Option<MotionConfig>, verdict: Option<MotionVerdict>, pts: int, at: int, now: int,
                    between: seq<ControlEvent>, found: seq<Det>)
    returns (line: Option<Line>, status: Option<Telemetry.Report>)
    modifies gate, reporter, publisher, publisher.streams
    ensures var epochs := old(publisher.streams.epochs);
            publisher.streams.epochs == AppliedAll(epochs, between)
    ensures var epochs := old(publisher.streams.epochs);
            var seen := Seen(EpochOf(epochs, camera), EpochOf(AppliedAll(epochs, between), camera), verdict, pts,
                             Timestamp.Rfc3339Utc(at), now, found);
            var done := Handled(Setup(wire, config, camera),
                                Cam(old(gate.Value()), StateOf(old(publisher.cameras), camera)), seen);
            && gate.Value() == done.cam.gate && line == done.line
            && publisher.cameras == old(publisher.cameras)[camera := done.cam.out]
            && (reporter.Value(), status)
               == if config.None? then (old(reporter.Value()), None)
                  else Telemetry.Folded(old(reporter.Value()),
                         Telemetry.Sighting(done.decision, ChangeOf(verdict), now))
  {
    var epoch := if config.Some? then EpochOf(publisher.streams.epochs, camera) else None;
    var decision := gate.Decide(config, verdict, epoch, now);
    status := None;
    if config.Some? { status := reporter.Observe(decision, ChangeOf(verdict), now); }
    ApplyAll(publisher.streams, between);
    if decision == Detect {
      line := publisher.Emit(wire, camera, pts, at, Inferred(found));
    } else {
      line := publisher.Emit(wire, camera, pts, at, Remembered);
    }
  }

  function ChangeOf(verdict: Option<MotionVerdict>): Option<real> {
    if verdict.None? then None else Some(verdict.value.changedFraction)
  }

  method ApplyAll(streams: Streams, events: seq<ControlEvent>)
    modifies streams
    ensures streams.epochs == AppliedAll(old(streams.epochs), events)
  {
    var i := 0;
    while i < |events|
      invariant i <= |events| && streams.epochs == AppliedAll(old(streams.epochs), events[..i])
    {
      streams.Apply(events[i]);
      i := i + 1;
      assert events[..i][..i - 1] == events[..i - 1];
    }
    assert events[..i] == events;
  }

  // -------------------------------------------------------------------------
  // The system
  // -------------------------------------------------------------------------

  datatype Sampled = Sampled(verdict: Option<MotionVerdict>, pts: int, stamp: string, now: int, dets: seq<Det>)

  datatype Action =
    | Announce(event: ControlEvent)
    | Decide(camera: string, sample: Sampled)
    | Publish(camera: string)

  // A sample between the gate's decision and its line.
  datatype InFlight = InFlight(camera: string, sample: Sampled, gateEpoch: Option<string>, decision: Decision)

  // `seen`, `lines` and `reports` are what each camera's samples saw and sent
  // so far.
  datatype Sys = Sys(
    epochs: Epochs, gates: map<string, GateState>, reporters: map<string, Telemetry.TelemetryState>,
    cameras: map<string, CameraState>, busy: Option<InFlight>,
    seen: map<string, seq<Seen>>, lines: map<string, seq<Line>>, reports: map<string, seq<Telemetry.Report>>)

  datatype Program = Program(wire: Wire, configs: map<string, MotionConfig>)

  function Get<T>(m: map<string, T>, camera: string, none: T): T { if camera in m then m[camera] else none }

  function SetupOf(p: Program, camera: string): Setup {
    Setup(p.wire, if camera in p.configs then Some(p.configs[camera]) else None, camera)
  }

  // The inference thread takes a sample when it has none in hand, and emits
  // the one it has.
  predicate Enabled(s: Sys, a: Action) {
    match a
    case Announce(_) => true
    case Decide(_, _) => s.busy.None?
    case Publish(camera) => s.busy.Some? && s.busy.value.camera == camera
  }

  function Step(p: Program, s: Sys, a: Action): Sys
    requires Enabled(s, a)
  {
    match a
    case Announce(event) => s.(epochs := Applied(s.epochs, event))
    case Decide(camera, sample) =>
      var u, read := SetupOf(p, camera), EpochOf(s.epochs, camera);
      var (gate, decision) := Decided(u.config, Get(s.gates, camera, CLOSED), sample.verdict,
                                      if u.config.None? then None else read, sample.now);
      var (reporter, report) := Observed(u, Get(s.reporters, camera, Telemetry.SILENT), decision, sample);
      s.(gates := s.gates[camera := gate], busy := Some(InFlight(camera, sample, read, decision)),
         reporters := s.reporters[camera := reporter],
         reports := s.reports[camera := Get(s.reports, camera, []) + Listed(report)])
    case Publish(camera) =>
      var f, read := s.busy.value, EpochOf(s.epochs, camera);
      var (out, line) := Emitted(p.wire, read, Get(s.cameras, camera, FRESH), camera, f.sample.pts, f.sample.stamp,
                                 if f.decision == Detect then Inferred(f.sample.dets) else Remembered);
      s.(cameras := s.cameras[camera := out], busy := None,
         seen := s.seen[camera := Get(s.seen, camera, []) + [SeenOf(f, read)]],
         lines := s.lines[camera := Get(s.lines, camera, []) + Listed(line)])
  }

  function Listed<T>(x: Option<T>): seq<T> { if x.Some? then [x.value] else [] }

  // A camera whose gate is off has no telemetry.
  function Observed(u: Setup, t: Telemetry.TelemetryState, decision: Decision, sample: Sampled)
    : (Telemetry.TelemetryState, Option<Telemetry.Report>)
  {
    if u.config.None? then (t, None)
    else Telemetry.Folded(t, Telemetry.Sighting(decision, ChangeOf(sample.verdict), sample.now))
  }

  function SeenOf(f: InFlight, lineEpoch: Option<string>): Seen {
    Seen(f.gateEpoch, lineEpoch, f.sample.verdict, f.sample.pts, f.sample.stamp, f.sample.now, f.sample.dets)
  }

  ghost predicate IsRun(p: Program, s: Sys, acts: seq<Action>)
    decreases |acts|
  {
    acts == [] || (Enabled(s, acts[0]) && IsRun(p, Step(p, s, acts[0]), acts[1..]))
  }

  function Final(p: Program, s: Sys, acts: seq<Action>): Sys
    requires IsRun(p, s, acts)
    decreases |acts|
  {
    if acts == [] then s else Final(p, Step(p, s, acts[0]), acts[1..])
  }

  function Boot(served: set<string>): Sys {
    Sys(map c | c in served :: None, map[], map[], map[], None, map[], map[], map[])
  }

  // -------------------------------------------------------------------------
  // The loop's body is three kinds of step
  // -------------------------------------------------------------------------

  function Announces(events: seq<ControlEvent>): seq<Action> {
    seq(|events|, i requires 0 <= i < |events| => Announce(events[i]))
  }

  lemma {:induction false} AnnouncesApply(p: Program, s: Sys, events: seq<ControlEvent>, rest: seq<Action>)
    requires IsRun(p, s.(epochs := AppliedAll(s.epochs, events)), rest)
    ensures IsRun(p, s, Announces(events) + rest)
    ensures Final(p, s, Announces(events) + rest) == Final(p, s.(epochs := AppliedAll(s.epochs, events)), rest)
    decreases |events|
  {
    if events == [] {
      assert Announces(events) + rest == rest;
    } else {
      var front, last := events[..|events| - 1], events[|events| - 1];
      var t := s.(epochs := AppliedAll(s.epochs, front));
      var more := [Announce(last)] + rest;
      assert Step(p, t, Announce(last)) == s.(epochs := AppliedAll(s.epochs, events)) && more[1..] == rest;
      AnnouncesApply(p, s, front, more);
      assert Announces(events) + rest == Announces(front) + more;
    }
  }

  // What `SampleLine` does to the gate, the telemetry and the publisher is what
  // the system does by deciding the sample, folding in the announcements, and
  // publishing its line.
  lemma SampleIsThreeSteps(p: Program, s: Sys, c: string, sample: Sampled, between: seq<ControlEvent>)
    requires s.busy.None?
    ensures var acts := [Decide(c, sample)] + Announces(between) + [Publish(c)];
            var u, epochs := SetupOf(p, c), AppliedAll(s.epochs, between);
            var seen := Seen(EpochOf(s.epochs, c), EpochOf(epochs, c), sample.verdict, sample.pts, sample.stamp,
                             sample.now, sample.dets);
            var done := Handled(u, Cam(Get(s.gates, c, CLOSED), Get(s.cameras, c, FRESH)), seen);
            var (reporter, report) := Observed(u, Get(s.reporters, c, Telemetry.SILENT), done.decision, sample);
            && IsRun(p, s, acts)
            && Final(p, s, acts)
               == Sys(epochs, s.gates[c := done.cam.gate], s.reporters[c := reporter], s.cameras[c := done.cam.out], None,
                      s.seen[c := Get(s.seen, c, []) + [seen]],
                      s.lines[c := Get(s.lines, c, []) + Listed(done.line)],
                      s.reports[c := Get(s.reports, c, []) + Listed(report)])
  {
    var acts := [Decide(c, sample)] + Announces(between) + [Publish(c)];
    var t := Step(p, s, Decide(c, sample));
    var last := t.(epochs := AppliedAll(s.epochs, between));
    assert IsRun(p, Step(p, last, Publish(c)), []);
    assert [Publish(c)][1..] == [];
    AnnouncesApply(p, t, between, [Publish(c)]);
    assert acts[0] == Decide(c, sample) && acts[1..] == Announces(between) + [Publish(c)];
  }

  // -------------------------------------------------------------------------
  // Each camera is the camera of a run of its own
  // -------------------------------------------------------------------------

  // Everything of the system that is camera `c`'s.
  datatype View = View(
    served: bool, epoch: Option<string>, gate: GateState, reporter: Telemetry.TelemetryState, out: CameraState,
    busy: Option<InFlight>, seen: seq<Seen>, lines: seq<Line>, reports: seq<Telemetry.Report>)

  function ViewOf(s: Sys, c: string): View {
    View(c in s.epochs, EpochOf(s.epochs, c), Get(s.gates, c, CLOSED), Get(s.reporters, c, Telemetry.SILENT),
         Get(s.cameras, c, FRESH), if s.busy.Some? && s.busy.value.camera == c then s.busy else None,
         Get(s.seen, c, []), Get(s.lines, c, []), Get(s.reports, c, []))
  }

  // The run so far is the run of `c` over the samples it saw; a sample in
  // flight has been decided and not yet published.
  ghost predicate Follows(p: Program, c: string, v: View) {
    var u, n := SetupOf(p, c), |v.seen|;
    && v.out == CamAfter(u, v.seen, n).out
    && v.lines == LinesOf(Trace(u, v.seen, n))
    && if v.busy.None? then v.gate == CamAfter(u, v.seen, n).gate
       else
         var f := v.busy.value;
         (v.gate, f.decision)
         == Decided(u.config, CamAfter(u, v.seen, n).gate, f.sample.verdict,
                    if u.config.None? then None else f.gateEpoch, f.sample.now)
  }

  // What the telemetry of a camera was shown: the samples it saw, and the one
  // in flight.
  function SightingsOf(u: Setup, h: seq<Seen>, n: nat): seq<Telemetry.Sighting>
    requires n <= |h|
  {
    if n == 0 || u.config.None? then []
    else
      var x := h[n - 1];
      SightingsOf(u, h, n - 1) + [Telemetry.Sighting(At(u, h, n - 1).decision, ChangeOf(x.verdict), x.now)]
  }

  function Sighted(u: Setup, v: View): seq<Telemetry.Sighting> {
    SightingsOf(u, v.seen, |v.seen|)
    + if v.busy.None? || u.config.None? then []
      else [Telemetry.Sighting(v.busy.value.decision, ChangeOf(v.busy.value.sample.verdict), v.busy.value.sample.now)]
  }

  // The reporter's state and the reports sent are those of that history.
  ghost predicate Tells(u: Setup, v: View) {
    var h := Sighted(u, v);
    v.reporter == Telemetry.StateAfter(h, |h|) && v.reports == Telemetry.ReportsUpTo(h, |h|)
  }

  function LinesOf(tr: seq<Sent>): (lines: seq<Line>)
    ensures |lines| == |tr|
    ensures forall i :: 0 <= i < |tr| ==> lines[i] == tr[i].line
  {
    seq(|tr|, i requires 0 <= i < |tr| => tr[i].line)
  }

  // A camera's history is not changed by what follows it.
  lemma {:induction false} PrefixKept(u: Setup, h: seq<Seen>, more: seq<Seen>, n: nat)
    requires n <= |h| && h <= more
    ensures CamAfter(u, more, n) == CamAfter(u, h, n) && Trace(u, more, n) == Trace(u, h, n)
  {
    if n > 0 { PrefixKept(u, h, more, n - 1); }
  }

  lemma AtKept(u: Setup, h: seq<Seen>, more: seq<Seen>, k: nat)
    requires k < |h| && h <= more
    ensures At(u, more, k) == At(u, h, k)
  {
    PrefixKept(u, h, more, k);
  }

  lemma AtNext(u: Setup, h: seq<Seen>, x: Seen)
    ensures At(u, h + [x], |h|) == Handled(u, CamAfter(u, h, |h|), x)
  {
    PrefixKept(u, h, h + [x], |h|);
    assert (h + [x])[|h|] == x;
  }

  lemma StepFollows(p: Program, s: Sys, a: Action, c: string)
    requires Enabled(s, a) && Follows(p, c, ViewOf(s, c))
    ensures Follows(p, c, ViewOf(Step(p, s, a), c))
  {
    if a.Publish? && a.camera == c {
      PublishFollows(p, s, c);
    } else {
      assert ViewOf(Step(p, s, a), c).seen == ViewOf(s, c).seen;
    }
  }

  // One more sample seen extends the run by one handling.
  lemma OneMoreSeen(u: Setup, h: seq<Seen>, x: Seen)
    ensures var cam, more, n := CamAfter(u, h, |h|), h + [x], |h| + 1;
            var a := Handled(u, cam, x);
            && CamAfter(u, more, n) == a.cam
            && LinesOf(Trace(u, more, n)) == LinesOf(Trace(u, h, |h|)) + if a.line.Some? then [a.line.value] else []
  {
    var more := h + [x];
    PrefixKept(u, h, more, |h|);
    AtNext(u, h, x);
    assert CamAfter(u, more, |h| + 1) == At(u, more, |h|).cam;
  }

  function Published(u: Setup, f: InFlight, out: CameraState, read: Option<string>): (CameraState, Option<Line>) {
    Emitted(u.wire, read, out, u.camera, f.sample.pts, f.sample.stamp,
            if f.decision == Detect then Inferred(f.sample.dets) else Remembered)
  }

  lemma PublishChanges(p: Program, s: Sys, c: string)
    requires Enabled(s, Publish(c))
    ensures var v, w, f := ViewOf(s, c), ViewOf(Step(p, s, Publish(c)), c), s.busy.value;
            var (out, line) := Published(SetupOf(p, c), f, v.out, v.epoch);
            && w.seen == v.seen + [SeenOf(f, v.epoch)] && w.busy.None? && w.gate == v.gate && w.out == out
            && w.lines == v.lines + Listed(line) && w.reporter == v.reporter && w.reports == v.reports
  {
  }

  lemma PublishHandles(u: Setup, cam: Cam, f: InFlight, gate: GateState, read: Option<string>)
    requires (gate, f.decision)
          == Decided(u.config, cam.gate, f.sample.verdict, if u.config.None? then None else f.gateEpoch, f.sample.now)
    ensures var a := Handled(u, cam, SeenOf(f, read));
            a.cam.gate == gate && (a.cam.out, a.line) == Published(u, f, cam.out, read)
  {
  }

  lemma PublishFollows(p: Program, s: Sys, c: string)
    requires Enabled(s, Publish(c)) && Follows(p, c, ViewOf(s, c))
    ensures Follows(p, c, ViewOf(Step(p, s, Publish(c)), c))
  {
    var v, u, f := ViewOf(s, c), SetupOf(p, c), s.busy.value;
    PublishChanges(p, s, c);
    PublishHandles(u, CamAfter(u, v.seen, |v.seen|), f, v.gate, v.epoch);
    LineFollows(p, c, v, ViewOf(Step(p, s, Publish(c)), c), SeenOf(f, v.epoch));
  }

  lemma LineFollows(p: Program, c: string, v: View, w: View, x: Seen)
    requires var u := SetupOf(p, c);
             var cam := CamAfter(u, v.seen, |v.seen|);
             var a := Handled(u, cam, x);
             && v.lines == LinesOf(Trace(u, v.seen, |v.seen|))
             && w.seen == v.seen + [x] && w.busy.None? && w.gate == a.cam.gate && w.out == a.cam.out
             && w.lines == v.lines + Listed(a.line)
    ensures Follows(p, c, w)
  {
    OneMoreSeen(SetupOf(p, c), v.seen, x);
  }

  // Whatever the other cameras and the control thread do, each camera goes
  // through exactly the run of the samples it saw on its own.
  lemma {:induction false} EveryCameraFollows(p: Program, s: Sys, acts: seq<Action>, c: string)
    requires IsRun(p, s, acts) && Follows(p, c, ViewOf(s, c))
    ensures Follows(p, c, ViewOf(Final(p, s, acts), c))
    decreases |acts|
  {
    if acts != [] {
      StepFollows(p, s, acts[0], c);
      EveryCameraFollows(p, Step(p, s, acts[0]), acts[1..], c);
    }
  }

  // On the wire, each camera's lines are numbered from zero without a gap,
  // and its samples are its lines and its two counts of suppressions.
  lemma EveryCameraIsNumbered(p: Program, served: set<string>, acts: seq<Action>, c: string)
    requires IsRun(p, Boot(served), acts)
    ensures var v := ViewOf(Final(p, Boot(served), acts), c);
            && (forall i :: 0 <= i < |v.lines| ==> v.lines[i].sequence == i && v.lines[i].camera == c)
            && |v.seen| == |v.lines| + v.out.ungated + v.out.unboundedPts
  {
    EveryCameraFollows(p, Boot(served), acts, c);
    var v, u := ViewOf(Final(p, Boot(served), acts), c), SetupOf(p, c);
    LinesAreNumbered(u, v.seen, |v.seen|);
    forall i: nat | i < |v.lines| ensures v.lines[i].sequence == i && v.lines[i].camera == c {
      TraceIsSound(u, v.seen, |v.seen|, i);
    }
  }

  // -------------------------------------------------------------------------
  // What each camera reports of its gate
  // -------------------------------------------------------------------------

  lemma {:induction false} SightingsKept(u: Setup, h: seq<Seen>, more: seq<Seen>, n: nat)
    requires n <= |h| && h <= more
    ensures SightingsOf(u, more, n) == SightingsOf(u, h, n)
  {
    if n > 0 {
      SightingsKept(u, h, more, n - 1);
      AtKept(u, h, more, n - 1);
    }
  }

  lemma {:induction false} ReportsKept(h: seq<Telemetry.Sighting>, more: seq<Telemetry.Sighting>, n: nat)
    requires n <= |h| && h <= more
    ensures Telemetry.StateAfter(more, n) == Telemetry.StateAfter(h, n)
    ensures Telemetry.ReportsUpTo(more, n) == Telemetry.ReportsUpTo(h, n)
  {
    if n > 0 { ReportsKept(h, more, n - 1); }
  }

  lemma OneMoreSighted(h: seq<Telemetry.Sighting>, x: Telemetry.Sighting)
    ensures var more := h + [x];
            var (t, report) := Telemetry.Folded(Telemetry.StateAfter(h, |h|), x);
            && Telemetry.StateAfter(more, |more|) == t
            && Telemetry.ReportsUpTo(more, |more|) == Telemetry.ReportsUpTo(h, |h|) + Listed(report)
  {
    var more := h + [x];
    ReportsKept(h, more, |h|);
    assert more[|h|] == x;
  }

  // A sample is shown to the telemetry when it is decided; its line adds
  // nothing.
  lemma DecideTells(p: Program, s: Sys, c: string, sample: Sampled)
    requires Enabled(s, Decide(c, sample)) && Tells(SetupOf(p, c), ViewOf(s, c))
    ensures Tells(SetupOf(p, c), ViewOf(Step(p, s, Decide(c, sample)), c))
  {
    var u, v, w := SetupOf(p, c), ViewOf(s, c), ViewOf(Step(p, s, Decide(c, sample)), c);
    if u.config.Some? {
      var x := Telemetry.Sighting(w.busy.value.decision, ChangeOf(sample.verdict), sample.now);
      assert Sighted(u, v) == SightingsOf(u, v.seen, |v.seen|);
      assert Sighted(u, w) == Sighted(u, v) + [x];
      OneMoreSighted(Sighted(u, v), x);
    } else {
      assert Sighted(u, w) == Sighted(u, v);
    }
  }

  lemma PublishTells(p: Program, s: Sys, c: string)
    requires Enabled(s, Publish(c)) && Follows(p, c, ViewOf(s, c)) && Tells(SetupOf(p, c), ViewOf(s, c))
    ensures Tells(SetupOf(p, c), ViewOf(Step(p, s, Publish(c)), c))
  {
    var u, v, f := SetupOf(p, c), ViewOf(s, c), s.busy.value;
    PublishChanges(p, s, c);
    DecisionKept(u, CamAfter(u, v.seen, |v.seen|), f, v.gate, v.epoch);
    LineTellsNothing(u, v, ViewOf(Step(p, s, Publish(c)), c), f, v.epoch);
  }

  lemma LineTellsNothing(u: Setup, v: View, w: View, f: InFlight, read: Option<string>)
    requires Tells(u, v) && v.busy == Some(f) && w.busy.None?
    requires w.seen == v.seen + [SeenOf(f, read)] && w.reporter == v.reporter && w.reports == v.reports
    requires Handled(u, CamAfter(u, v.seen, |v.seen|), SeenOf(f, read)).decision == f.decision
    ensures Tells(u, w)
  {
    SightingsOfOneMore(u, v.seen, SeenOf(f, read));
    assert Sighted(u, w) == Sighted(u, v);
  }

  lemma SightingsOfOneMore(u: Setup, h: seq<Seen>, x: Seen)
    ensures SightingsOf(u, h + [x], |h| + 1)
         == SightingsOf(u, h, |h|)
            + if u.config.None? then []
              else [Telemetry.Sighting(Handled(u, CamAfter(u, h, |h|), x).decision, ChangeOf(x.verdict), x.now)]
  {
    SightingsKept(u, h, h + [x], |h|);
    AtNext(u, h, x);
  }

  lemma DecisionKept(u: Setup, cam: Cam, f: InFlight, gate: GateState, read: Option<string>)
    requires (gate, f.decision)
          == Decided(u.config, cam.gate, f.sample.verdict, if u.config.None? then None else f.gateEpoch, f.sample.now)
    ensures Handled(u, cam, SeenOf(f, read)).decision == f.decision
  {
  }

  lemma StepTells(p: Program, s: Sys, a: Action, c: string)
    requires Enabled(s, a) && Follows(p, c, ViewOf(s, c)) && Tells(SetupOf(p, c), ViewOf(s, c))
    ensures Tells(SetupOf(p, c), ViewOf(Step(p, s, a), c))
  {
    if a.Publish? && a.camera == c {
      PublishTells(p, s, c);
    } else if a.Decide? && a.camera == c {
      DecideTells(p, s, c, a.sample);
    } else {
      var v, w := ViewOf(s, c), ViewOf(Step(p, s, a), c);
      assert w.seen == v.seen && w.busy == v.busy && w.reporter == v.reporter && w.reports == v.reports;
    }
  }

  lemma {:induction false} EveryReporterFollows(p: Program, s: Sys, acts: seq<Action>, c: string)
    requires IsRun(p, s, acts) && Follows(p, c, ViewOf(s, c)) && Tells(SetupOf(p, c), ViewOf(s, c))
    ensures Tells(SetupOf(p, c), ViewOf(Final(p, s, acts), c))
    decreases |acts|
  {
    if acts != [] {
      StepFollows(p, s, acts[0], c);
      StepTells(p, s, acts[0], c);
      EveryReporterFollows(p, Step(p, s, acts[0]), acts[1..], c);
    }
  }

  // Whatever the other cameras do, the states a camera reports are the runs of
  // its own windows' states, and a camera whose gate is off reports nothing.
  lemma EveryCameraReports(p: Program, served: set<string>, acts: seq<Action>, c: string)
    requires IsRun(p, Boot(served), acts)
    ensures var v, u := ViewOf(Final(p, Boot(served), acts), c), SetupOf(p, c);
            var h := Sighted(u, v);
            && v.reports == Telemetry.ReportsUpTo(h, |h|)
            && (u.config.None? ==> v.reports == [])
            && (Telemetry.Ordered(h) ==>
                  Telemetry.ReportedStates(h, |h|) == Telemetry.Runs(Telemetry.WindowStates(h, |h|)))
  {
    EveryReporterFollows(p, Boot(served), acts, c);
    var v, u := ViewOf(Final(p, Boot(served), acts), c), SetupOf(p, c);
    var h := Sighted(u, v);
    if Telemetry.Ordered(h) { Telemetry.ReportsAreRuns(h, |h|); }
  }

  // -------------------------------------------------------------------------
  // Epochs do not come back, and no seed outlives its object
  // -------------------------------------------------------------------------

  // The epochs announced for a camera.
  function Announced(acts: seq<Action>, c: string): set<string> {
    if acts == [] then {}
    else
      var last := acts[|acts| - 1];
      Announced(acts[..|acts| - 1], c)
      + if last.Announce? && last.event.Started? && last.event.camera == c then {last.event.epoch} else {}
  }

  // An announcement that leaves the camera on no stream of epoch `e`.
  predicate Leaves(a: Action, c: string, e: string) {
    match a
    case Announce(Started(camera, epoch)) => camera == c && epoch != e
    case Announce(Ended(camera, epoch)) => camera == c && epoch == e
    case _ => false
  }

  // The epochs announced for a camera and left since.
  function Superseded(acts: seq<Action>, c: string): set<string> {
    if acts == [] then {}
    else
      var front, last := acts[..|acts| - 1], acts[|acts| - 1];
      Superseded(front, c) + set e | e in Announced(front, c) && Leaves(last, c, e)
  }

  // The host never takes a camera back to an epoch it has left. It may repeat
  // the one the camera is on.
  predicate NeverReannounced(acts: seq<Action>, c: string) {
    forall i :: 0 <= i < |acts| && acts[i].Announce? && acts[i].event.Started? && acts[i].event.camera == c ==>
      acts[i].event.epoch !in Superseded(acts[..i], c)
  }

  // What the announcements so far say of the epochs read so far, with the
  // camera on `now`.
  ghost predicate Settled(h: seq<Seen>, now: Option<string>, announced: set<string>, superseded: set<string>) {
    && NoReturn(h)
    && (now.Some? ==> now.value in announced && now.value !in superseded)
    && (forall i :: 0 <= i < |h| && h[i].lineEpoch.Some? ==> h[i].lineEpoch.value in announced)
    && (forall i :: 0 <= i < |h| && h[i].lineEpoch.Some? && h[i].lineEpoch != now ==>
          h[i].lineEpoch.value in superseded)
    && (forall i, j :: 0 <= i < j < |h| && h[i].lineEpoch.Some? && h[j].lineEpoch != h[i].lineEpoch ==>
          h[i].lineEpoch.value in superseded)
  }

  lemma ReadSettles(h: seq<Seen>, now: Option<string>, announced: set<string>, superseded: set<string>, x: Seen)
    requires Settled(h, now, announced, superseded) && x.lineEpoch == now
    ensures Settled(h + [x], now, announced, superseded)
  {
  }

  lemma AnnouncementSettles(h: seq<Seen>, now: Option<string>, announced: set<string>, superseded: set<string>,
                            next: Option<string>, announced': set<string>, superseded': set<string>)
    requires Settled(h, now, announced, superseded)
    requires announced <= announced' && superseded <= superseded'
    requires next.Some? ==> next.value in announced' && next.value !in superseded'
    requires now.Some? && next != now ==> now.value in superseded'
    ensures Settled(h, next, announced', superseded')
  {
  }

  ghost predicate SettledBy(v: View, past: seq<Action>, c: string) {
    Settled(v.seen, v.epoch, Announced(past, c), Superseded(past, c))
  }

  lemma PastGrows(past: seq<Action>, a: Action, c: string)
    ensures Announced(past + [a], c)
         == Announced(past, c)
            + if a.Announce? && a.event.Started? && a.event.camera == c then {a.event.epoch} else {}
    ensures Superseded(past + [a], c) == Superseded(past, c) + set e | e in Announced(past, c) && Leaves(a, c, e)
  {
    assert (past + [a])[..|past|] == past;
  }

  lemma StepSettles(p: Program, s: Sys, past: seq<Action>, a: Action, c: string)
    requires Enabled(s, a) && SettledBy(ViewOf(s, c), past, c)
    requires a.Announce? && a.event.Started? && a.event.camera == c ==> a.event.epoch !in Superseded(past, c)
    ensures SettledBy(ViewOf(Step(p, s, a), c), past + [a], c)
  {
    var v, w, more := ViewOf(s, c), ViewOf(Step(p, s, a), c), past + [a];
    PastGrows(past, a, c);
    if a.Publish? && a.camera == c {
      PublishChanges(p, s, c);
      assert Announced(more, c) == Announced(past, c) && Superseded(more, c) == Superseded(past, c);
      ReadSettles(v.seen, v.epoch, Announced(past, c), Superseded(past, c), SeenOf(s.busy.value, v.epoch));
      assert w.epoch == v.epoch;
    } else {
      assert w.seen == v.seen;
      AnnouncementSettles(v.seen, v.epoch, Announced(past, c), Superseded(past, c),
                          w.epoch, Announced(more, c), Superseded(more, c));
    }
  }

  lemma NextIsNew(past: seq<Action>, acts: seq<Action>, c: string)
    requires acts != [] && NeverReannounced(past + acts, c)
    ensures var a := acts[0];
            a.Announce? && a.event.Started? && a.event.camera == c ==> a.event.epoch !in Superseded(past, c)
    ensures past + [acts[0]] + acts[1..] == past + acts
  {
    assert (past + acts)[|past|] == acts[0] && (past + acts)[..|past|] == past;
  }

  lemma {:induction false} EpochsSettle(p: Program, s: Sys, past: seq<Action>, acts: seq<Action>, c: string)
    requires IsRun(p, s, acts) && SettledBy(ViewOf(s, c), past, c) && NeverReannounced(past + acts, c)
    ensures SettledBy(ViewOf(Final(p, s, acts), c), past + acts, c)
    decreases |acts|
  {
    if acts == [] {
      assert past + acts == past;
    } else {
      NextIsNew(past, acts, c);
      StepSettles(p, s, past, acts[0], c);
      EpochsSettle(p, Step(p, s, acts[0]), past + [acts[0]], acts[1..], c);
    }
  }

  lemma EpochsNeverReturn(p: Program, served: set<string>, acts: seq<Action>, c: string)
    requires IsRun(p, Boot(served), acts) && NeverReannounced(acts, c)
    ensures NoReturn(ViewOf(Final(p, Boot(served), acts), c).seen)
  {
    assert [] + acts == acts;
    EpochsSettle(p, Boot(served), [], acts, c);
  }

  // Every object on every line of every camera was found by the model: on that
  // very sample, or on one less than the re-verify bound before.
  lemma EveryObjectIsFresh(p: Program, served: set<string>, acts: seq<Action>, c: string, i: nat, d: Det)
    requires IsRun(p, Boot(served), acts) && NeverReannounced(acts, c)
    requires var v := ViewOf(Final(p, Boot(served), acts), c);
             Dated(v.seen) && i < |v.lines| && d in v.lines[i].objects
    ensures var v, u := ViewOf(Final(p, Boot(served), acts), c), SetupOf(p, c);
            var tr := Trace(u, v.seen, |v.seen|);
            && i < |tr| && tr[i].line == v.lines[i] && tr[i].at < |v.seen|
            && if tr[i].inferred then d in v.seen[tr[i].at].dets
               else u.config.Some? && FreshAt(u, v.seen, tr[i].at, d)
  {
    EveryCameraFollows(p, Boot(served), acts, c);
    EpochsNeverReturn(p, served, acts, c);
    var v, u := ViewOf(Final(p, Boot(served), acts), c), SetupOf(p, c);
    ObjectIsFresh(u, v.seen, i, d);
  }

  lemma ObjectIsFresh(u: Setup, h: seq<Seen>, i: nat, d: Det)
    requires Dated(h) && NoReturn(h) && i < |Trace(u, h, |h|)| && d in Trace(u, h, |h|)[i].line.objects
    ensures var t := Trace(u, h, |h|)[i];
            && t.at < |h|
            && if t.inferred then d in h[t.at].dets else u.config.Some? && FreshAt(u, h, t.at, d)
  {
    var t := Trace(u, h, |h|)[i];
    TraceIsSound(u, h, |h|, i);
    if t.inferred { InferredLineIsFound(u, h, t.at); } else { SeedsAreFresh(u, h, t.at, d); }
  }

  // -------------------------------------------------------------------------
  // No camera affects another
  // -------------------------------------------------------------------------

  predicate Concerns(a: Action, c: string) {
    match a
    case Announce(Started(camera, _)) => camera == c
    case Announce(Ended(camera, _)) => camera == c
    case Announce(Ignored) => false
    case Decide(camera, _) => camera == c
    case Publish(camera) => camera == c
  }

  function Only(acts: seq<Action>, c: string): seq<Action> {
    if acts == [] then [] else (if Concerns(acts[0], c) then [acts[0]] else []) + Only(acts[1..], c)
  }

  lemma OthersLeaveAlone(p: Program, s: Sys, a: Action, c: string)
    requires Enabled(s, a) && !Concerns(a, c)
    ensures ViewOf(Step(p, s, a), c) == ViewOf(s, c)
  {
  }

  lemma OwnStepsAgree(p: Program, q: Program, s: Sys, t: Sys, a: Action, c: string)
    requires SetupOf(p, c) == SetupOf(q, c) && ViewOf(s, c) == ViewOf(t, c)
    requires Enabled(s, a) && Enabled(t, a) && Concerns(a, c)
    ensures ViewOf(Step(p, s, a), c) == ViewOf(Step(q, t, a), c)
  {
  }

  // Two runs that agree on what concerns a camera, in order, leave it in the
  // same state with the same lines, whatever the other cameras are, do, or are
  // configured to do.
  lemma {:induction false} CamerasAreIndependent(
    p: Program, q: Program, s: Sys, t: Sys, acts: seq<Action>, bcts: seq<Action>, c: string)
    requires SetupOf(p, c) == SetupOf(q, c) && ViewOf(s, c) == ViewOf(t, c)
    requires IsRun(p, s, acts) && IsRun(q, t, bcts) && Only(acts, c) == Only(bcts, c)
    ensures ViewOf(Final(p, s, acts), c) == ViewOf(Final(q, t, bcts), c)
    decreases |acts| + |bcts|
  {
    if acts != [] && !Concerns(acts[0], c) {
      OthersLeaveAlone(p, s, acts[0], c);
      CamerasAreIndependent(p, q, Step(p, s, acts[0]), t, acts[1..], bcts, c);
    } else if bcts != [] && !Concerns(bcts[0], c) {
      OthersLeaveAlone(q, t, bcts[0], c);
      CamerasAreIndependent(p, q, s, Step(q, t, bcts[0]), acts, bcts[1..], c);
    } else if acts != [] {
      OnlyHead(acts, c);
      OnlyHead(bcts, c);
      OwnStepsAgree(p, q, s, t, acts[0], c);
      CamerasAreIndependent(p, q, Step(p, s, acts[0]), Step(q, t, bcts[0]), acts[1..], bcts[1..], c);
    }
  }

  lemma OnlyHead(acts: seq<Action>, c: string)
    requires acts != [] ==> Concerns(acts[0], c)
    ensures acts == [] <==> Only(acts, c) == []
    ensures acts != [] ==> Only(acts, c)[0] == acts[0] && Only(acts, c)[1..] == Only(acts[1..], c)
  {
  }
}
