/**
 What a camera tells the host about its gate: five-second windows of samples,
 and a report whenever a closed window's state is not the last one reported.
 */
module Telemetry {
  import opened Common
  import opened Gate

  const REPORT_WINDOW_NS := 5_000_000_000

  datatype WindowState = Detecting | Gated

  datatype Report = Report(
    previous: Option<WindowState>, state: WindowState, inferred: nat, sampled: nat,
    elapsed: nat, peak: Option<real>)
  {
    predicate Timed() { elapsed > 0 }

    function Seconds(): real { elapsed as real / 1_000_000_000.0 }

    // Frames inferred per second, and frames sampled per second.
    function Fps(): real
      requires Timed()
    {
      inferred as real / Seconds()
    }

    function SampledFps(): real
      requires Timed()
    {
      sampled as real / Seconds()
    }
  }

  // One sample as telemetry sees it.
  datatype Sighting = Sighting(decision: Decision, change: Option<real>, now: int)

  datatype TelemetryState = TelemetryState(
    window: Option<int>, samples: nat, inferences: nat, peak: Option<real>, reported: Option<WindowState>)

  const SILENT := TelemetryState(None, 0, 0, None, None)

  function Higher(peak: Option<real>, change: Option<real>): Option<real> {
    if change.None? then peak
    else if peak.Some? && peak.value >= change.value then peak
    else change
  }

  function Counted(t: TelemetryState, s: Sighting): TelemetryState {
    t.(samples := t.samples + 1,
       inferences := t.inferences + if s.decision == Detect then 1 else 0,
       peak := Higher(t.peak, s.change))
  }

  function StateOfWindow(inferences: nat, samples: nat): WindowState {
    if inferences < samples then Gated else Detecting
  }

  function ReportOf(t: TelemetryState, elapsed: nat): Option<Report> {
    var state := StateOfWindow(t.inferences, t.samples);
    if t.reported == Some(state) then None
    else Some(Report(t.reported, state, t.inferences, t.samples, elapsed, t.peak))
  }

  function Folded(t: TelemetryState, s: Sighting): (TelemetryState, Option<Report>) {
    if t.window.None? then (t.(window := Some(s.now)), None)
    else
      var c := Counted(t, s);
      var elapsed := Elapsed(t.window.value, s.now);
      if elapsed < REPORT_WINDOW_NS then (c, None)
      else
        (TelemetryState(Some(s.now), 0, 0, None, Some(StateOfWindow(c.inferences, c.samples))),
         ReportOf(c, elapsed))
  }

  class Reporter {
    var window: Option<int>
    var samples: nat
    var inferences: nat
    var peakChange: Option<real>
    var reported: Option<WindowState>

    constructor ()
      ensures Value() == SILENT
    {
      window, samples, inferences, peakChange, reported := None, 0, 0, None, None;
    }

    function Value(): TelemetryState
      reads this
    {
      TelemetryState(window, samples, inferences, peakChange, reported)
    }

    method Observe(decision: Decision, change: Option<real>, now: int) returns (report: Option<Report>)
      modifies this
      ensures (Value(), report) == Folded(old(Value()), Sighting(decision, change, now))
    {
      if window.None? {
        window := Some(now);
        return None;
      }
      samples := samples + 1;
      if decision == Detect { inferences := inferences + 1; }
      if change.Some? {
        if peakChange.None? || peakChange.value < change.value { peakChange := change; }
      }
      var elapsed := Elapsed(window.value, now);
      if elapsed < REPORT_WINDOW_NS { return None; }
      var state := if inferences < samples then Gated else Detecting;
      report := if reported != Some(state)
        then Some(Report(reported, state, inferences, samples, elapsed, peakChange)) else None;
      reported := Some(state);
      window := Some(now);
      samples, inferences, peakChange := 0, 0, None;
    }
  }

  // -------------------------------------------------------------------------
  // Windows, told from the samples
  // -------------------------------------------------------------------------

  predicate Ordered(h: seq<Sighting>) { forall i, j :: 0 <= i <= j < |h| ==> h[i].now <= h[j].now }

  // The sample that opened the window sample `k` falls in. A window holds the
  // samples after its opener, its closer included.
  function OpenerOf(h: seq<Sighting>, k: nat): (o: nat)
    requires 0 < k <= |h|
    ensures o < k
    decreases k, 0
  {
    if k == 1 then 0 else if Closes(h, k - 1) then k - 1 else OpenerOf(h, k - 1)
  }

  // Whether sample `k` is the first of its window at or past the report age.
  predicate Closes(h: seq<Sighting>, k: nat)
    requires k < |h|
    decreases k, 1
  {
    k > 0 && h[k].now - h[OpenerOf(h, k)].now >= 5_000_000_000
  }

  predicate SkippedIn(h: seq<Sighting>, lo: nat, hi: nat)
    requires hi <= |h|
  {
    exists j :: lo <= j < hi && h[j].decision == Skip
  }

  function InferredIn(h: seq<Sighting>, lo: nat, hi: nat): (n: nat)
    requires lo <= hi <= |h|
    ensures n <= hi - lo
    ensures n < hi - lo <==> SkippedIn(h, lo, hi)
  {
    if lo == hi then 0 else
      assert SkippedIn(h, lo, hi) <==> SkippedIn(h, lo, hi - 1) || h[hi - 1].decision == Skip;
      InferredIn(h, lo, hi - 1) + if h[hi - 1].decision == Detect then 1 else 0
  }

  function PeakIn(h: seq<Sighting>, lo: nat, hi: nat): (p: Option<real>)
    requires lo <= hi <= |h|
    ensures forall j :: lo <= j < hi && h[j].change.Some? ==> p.Some? && h[j].change.value <= p.value
    ensures p.Some? ==> exists j :: lo <= j < hi && h[j].change == p
  {
    if lo == hi then None else Higher(PeakIn(h, lo, hi - 1), h[hi - 1].change)
  }

  // The state of the window that sample `k` closes.
  function ClosedState(h: seq<Sighting>, k: nat): WindowState
    requires 0 < k < |h|
  {
    if SkippedIn(h, OpenerOf(h, k) + 1, k + 1) then Gated else Detecting
  }

  // The states of the windows closed by the first `n` samples, in order.
  function WindowStates(h: seq<Sighting>, n: nat): seq<WindowState>
    requires n <= |h|
  {
    if n == 0 then [] else WindowStates(h, n - 1) + if Closes(h, n - 1) then [ClosedState(h, n - 1)] else []
  }

  function Last<T>(s: seq<T>): Option<T> { if s == [] then None else Some(s[|s| - 1]) }

  // The run-length encoding without the lengths: one entry per run.
  function Runs<T(==)>(s: seq<T>): seq<T> {
    if s == [] then []
    else
      var front := s[..|s| - 1];
      Runs(front) + if Last(front) == Some(s[|s| - 1]) then [] else [s[|s| - 1]]
  }

  // -------------------------------------------------------------------------
  // The running state is a summary of the history
  // -------------------------------------------------------------------------

  function StateAfter(h: seq<Sighting>, n: nat): TelemetryState
    requires n <= |h|
  {
    if n == 0 then SILENT else Folded(StateAfter(h, n - 1), h[n - 1]).0
  }

  function ReportAt(h: seq<Sighting>, k: nat): Option<Report>
    requires k < |h|
  {
    Folded(StateAfter(h, k), h[k]).1
  }

  // The reports sent over the first `n` samples, in order.
  function ReportsUpTo(h: seq<Sighting>, n: nat): seq<Report>
    requires n <= |h|
  {
    if n == 0 then []
    else ReportsUpTo(h, n - 1) + if ReportAt(h, n - 1).Some? then [ReportAt(h, n - 1).value] else []
  }

  // The states they name.
  function ReportedStates(h: seq<Sighting>, n: nat): seq<WindowState>
    requires n <= |h|
  {
    if n == 0 then []
    else ReportedStates(h, n - 1) + if ReportAt(h, n - 1).Some? then [ReportAt(h, n - 1).value.state] else []
  }

  ghost predicate Summary(h: seq<Sighting>, n: nat, t: TelemetryState)
    requires n <= |h|
  {
    && t.reported == Last(WindowStates(h, n))
    && if n == 0 then t == SILENT
       else
         var o := OpenerOf(h, n);
         && t.window == Some(h[o].now)
         && t.samples == n - 1 - o
         && t.inferences == InferredIn(h, o + 1, n)
         && t.peak == PeakIn(h, o + 1, n)
  }

  lemma CountedSummary(h: seq<Sighting>, n: nat, t: TelemetryState)
    requires 0 < n < |h| && Summary(h, n, t)
    ensures var o, c := OpenerOf(h, n), Counted(t, h[n]);
            && c.samples == n - o
            && c.inferences == InferredIn(h, o + 1, n + 1)
            && c.peak == PeakIn(h, o + 1, n + 1)
            && StateOfWindow(c.inferences, c.samples) == ClosedState(h, n)
  {
  }

  lemma FoldedSummary(h: seq<Sighting>, n: nat, t: TelemetryState)
    requires n < |h| && Ordered(h) && Summary(h, n, t)
    ensures Summary(h, n + 1, Folded(t, h[n]).0)
  {
    if n > 0 {
      CountedSummary(h, n, t);
      assert WindowStates(h, n + 1) == WindowStates(h, n) + if Closes(h, n) then [ClosedState(h, n)] else [];
    }
  }

  lemma {:induction false} StateIsSummary(h: seq<Sighting>, n: nat)
    requires n <= |h| && Ordered(h)
    ensures Summary(h, n, StateAfter(h, n))
  {
    if n > 0 {
      var m: nat := n - 1;
      StateIsSummary(h, m);
      FoldedSummary(h, m, StateAfter(h, m));
      assert Summary(h, m + 1, StateAfter(h, n));
    }
  }

  // -------------------------------------------------------------------------
  // What is reported
  // -------------------------------------------------------------------------

  // What sample `k` reports of the window it closes.
  ghost predicate Tells(h: seq<Sighting>, k: nat, r: Report)
    requires 0 < k < |h|
  {
    var o := OpenerOf(h, k);
    && r.previous == Last(WindowStates(h, k))
    && r.state == ClosedState(h, k)
    && r.sampled == k - o
    && r.inferred == InferredIn(h, o + 1, k + 1)
    && r.elapsed == h[k].now - h[o].now
    && r.peak == PeakIn(h, o + 1, k + 1)
  }

  // A report goes out exactly when a window closes in a state that is not the
  // window's before it, and its numbers are exact counts over that window.
  lemma ReportMeans(h: seq<Sighting>, k: nat)
    requires k < |h| && Ordered(h)
    ensures ReportAt(h, k).Some? <==> Closes(h, k) && Last(WindowStates(h, k)) != Some(ClosedState(h, k))
    ensures ReportAt(h, k).Some? ==> Tells(h, k, ReportAt(h, k).value)
  {
    StateIsSummary(h, k);
    if k > 0 { CountedSummary(h, k, StateAfter(h, k)); }
  }

  lemma {:induction false} RunsEndAlike<T>(s: seq<T>)
    ensures Last(Runs(s)) == Last(s)
  {
    if s != [] { RunsEndAlike(s[..|s| - 1]); }
  }

  // What reaches the host is the run-length encoding of the window states.
  lemma {:induction false} ReportsAreRuns(h: seq<Sighting>, n: nat)
    requires n <= |h| && Ordered(h)
    ensures ReportedStates(h, n) == Runs(WindowStates(h, n))
  {
    if n > 0 {
      ReportsAreRuns(h, n - 1);
      ReportMeans(h, n - 1);
      var before := WindowStates(h, n - 1);
      var after := WindowStates(h, n);
      assert Closes(h, n - 1) ==> after[..|before|] == before;
      assert !Closes(h, n - 1) ==> after == before;
    }
  }

  // The encoding never repeats itself...
  lemma {:induction false} RunsAlternate<T>(s: seq<T>, i: nat)
    requires i + 1 < |Runs(s)|
    ensures Runs(s)[i] != Runs(s)[i + 1]
  {
    var front := s[..|s| - 1];
    RunsEndAlike(front);
    if i + 1 < |Runs(front)| { RunsAlternate(front, i); }
  }

  // ...so of two reports in a row, one says gated and the other detecting.
  lemma ReportsAlternate(h: seq<Sighting>, n: nat, i: nat)
    requires n <= |h| && Ordered(h) && i + 1 < |ReportedStates(h, n)|
    ensures ReportedStates(h, n)[i] != ReportedStates(h, n)[i + 1]
  {
    ReportsAreRuns(h, n);
    RunsAlternate(WindowStates(h, n), i);
  }

  // Each report sent, in order: it names its state, and tells of the window that
  // some sample closes.
  lemma {:induction false} EveryReportTells(h: seq<Sighting>, n: nat, i: nat) returns (k: nat)
    requires n <= |h| && Ordered(h) && i < |ReportsUpTo(h, n)|
    ensures |ReportsUpTo(h, n)| == |ReportedStates(h, n)| && ReportsUpTo(h, n)[i].state == ReportedStates(h, n)[i]
    ensures 0 < k < n && Closes(h, k) && Tells(h, k, ReportsUpTo(h, n)[i])
  {
    ReportsAreStates(h, n);
    var m: nat := n - 1;
    if i < |ReportsUpTo(h, m)| {
      k := EveryReportTells(h, m, i);
    } else {
      k := m;
      ReportMeans(h, m);
    }
  }

  lemma {:induction false} ReportsAreStates(h: seq<Sighting>, n: nat)
    requires n <= |h|
    ensures |ReportsUpTo(h, n)| == |ReportedStates(h, n)|
    ensures forall i :: 0 <= i < |ReportsUpTo(h, n)| ==> ReportsUpTo(h, n)[i].state == ReportedStates(h, n)[i]
  {
    if n > 0 { ReportsAreStates(h, n - 1); }
  }

  lemma {:induction false} OpenerAfterClose(h: seq<Sighting>, j: nat, k: nat)
    requires j < k <= |h| && Closes(h, j)
    ensures j <= OpenerOf(h, k)
    decreases k
  {
    if j < k - 1 { OpenerAfterClose(h, j, k - 1); }
  }

  // Any two reports are at least one window apart.
  lemma ReportsAreSpaced(h: seq<Sighting>, j: nat, k: nat)
    requires j < k < |h| && Ordered(h) && ReportAt(h, j).Some? && ReportAt(h, k).Some?
    ensures h[k].now - h[j].now >= 5_000_000_000
  {
    ReportMeans(h, j);
    ReportMeans(h, k);
    OpenerAfterClose(h, j, k);
  }

  // The rates are finite, the inferred one never exceeds the sampled one, and
  // the two agree exactly when the window is a detecting one.
  lemma RatesAreBounded(h: seq<Sighting>, k: nat)
    requires k < |h| && Ordered(h) && ReportAt(h, k).Some?
    ensures var r := ReportAt(h, k).value;
            && r.Timed() && r.Seconds() >= 5.0 && r.sampled > 0
            && 0.0 <= r.Fps() <= r.SampledFps() <= r.sampled as real / 5.0
            && (r.Fps() == r.SampledFps() <==> r.state == Detecting)
  {
    ReportMeans(h, k);
    var r := ReportAt(h, k).value;
    DivideOrder(r.inferred as real, r.sampled as real, r.Seconds(), 5.0);
  }

  // A rate, over the window it is of, is the count of that window.
  lemma RatesAreCounts(r: Report)
    requires r.Timed()
    ensures r.Fps() * r.elapsed as real == 1_000_000_000.0 * r.inferred as real
    ensures r.SampledFps() * r.elapsed as real == 1_000_000_000.0 * r.sampled as real
  {
    PerSecond(r.inferred as real, r.elapsed as real);
    PerSecond(r.sampled as real, r.elapsed as real);
  }

  lemma PerSecond(count: real, elapsed: real)
    requires elapsed > 0.0
    ensures count / (elapsed / 1_000_000_000.0) * elapsed == 1_000_000_000.0 * count
  {
    var s := elapsed / 1_000_000_000.0;
    var f := count / s;
    assert f * s == count && elapsed == s * 1_000_000_000.0;
    assert f * (s * 1_000_000_000.0) == f * s * 1_000_000_000.0;
  }

  lemma DivideOrder(a: real, b: real, s: real, least: real)
    requires 0.0 <= a <= b && 0.0 < least <= s
    ensures 0.0 <= a / s <= b / s <= b / least
    ensures a / s == b / s <==> a == b
  {
    var x, y, z := a / s, b / s, b / least;
    assert x * s == a && y * s == b && z * least == b;
    assert (y - x) * s == b - a;
    assert z * (s - least) >= 0.0;
    assert (z - y) * s == z * (s - least);
  }
}
