/**
 The motion gate's policy: whether one sample is worth a model pass. Instants
 are nanoseconds on a clock that does not go back.
 */
module Gate {
  import opened Common
  import opened Motion

  const NS_PER_MS := 1_000_000

  datatype Decision = Detect | Skip

  datatype GateState = GateState(
    lastMotion: Option<int>, lastInference: Option<int>, epoch: Option<string>, epochChangedAt: Option<int>)

  const CLOSED := GateState(None, None, None, None)

  // An earlier instant than expected reads as no time at all.
  function Elapsed(at: int, now: int): nat { Max(now - at, 0) }

  predicate Within(since: Option<int>, ms: nat, now: int) {
    since.Some? && Elapsed(since.value, now) < ms * NS_PER_MS
  }

  predicate Unmeasured(verdict: Option<MotionVerdict>) {
    verdict.None? || verdict.value.motion || verdict.value.calibrating || verdict.value.sceneCut
  }

  predicate SawMotion(verdict: Option<MotionVerdict>) { verdict.Some? && verdict.value.motion }

  function Decided(config: Option<MotionConfig>, g: GateState, verdict: Option<MotionVerdict>,
                   epoch: Option<string>, now: int): (GateState, Decision)
  {
    if config.None? then (g, Detect)
    else
      var c := config.value;
      var changed := if g.epoch != epoch then g.(epoch := epoch, epochChangedAt := Some(now)) else g;
      var seen := if SawMotion(verdict) then changed.(lastMotion := Some(now)) else changed;
      var detect :=
        || Unmeasured(verdict)
        || epoch.None?
        || Within(seen.lastMotion, c.lingerMs, now)
        || Within(seen.epochChangedAt, c.epochBypassMs, now)
        || !Within(seen.lastInference, c.reverifyMs, now);
      if detect then (seen.(lastInference := Some(now)), Detect) else (seen, Skip)
  }

  class GateKeeper {
    var lastMotion: Option<int>
    var lastInference: Option<int>
    var epoch: Option<string>
    var epochChangedAt: Option<int>

    constructor ()
      ensures Value() == CLOSED
    {
      lastMotion, lastInference, epoch, epochChangedAt := None, None, None, None;
    }

    function Value(): GateState
      reads this
    {
      GateState(lastMotion, lastInference, epoch, epochChangedAt)
    }

    method Decide(config: Option<MotionConfig>, verdict: Option<MotionVerdict>, epoch: Option<string>, now: int)
      returns (decision: Decision)
      modifies this
      ensures (Value(), decision) == Decided(config, old(Value()), verdict, epoch, now)
    {
      if config.None? { return Detect; }
      if this.epoch != epoch {
        this.epoch := epoch;
        epochChangedAt := Some(now);
      }
      if SawMotion(verdict) { lastMotion := Some(now); }
      if Unmeasured(verdict) || epoch.None?
         || Within(lastMotion, config.value.lingerMs, now)
         || Within(epochChangedAt, config.value.epochBypassMs, now)
         || !Within(lastInference, config.value.reverifyMs, now)
      {
        lastInference := Some(now);
        return Detect;
      }
      return Skip;
    }
  }

  // -------------------------------------------------------------------------
  // The decision as a function of the history
  // -------------------------------------------------------------------------

  datatype Sample = Sample(verdict: Option<MotionVerdict>, epoch: Option<string>, now: int)

  predicate InOrder(h: seq<Sample>) { forall i, j :: 0 <= i <= j < |h| ==> h[i].now <= h[j].now }

  // The gate after the samples of `h`, from closed.
  function GateAfter(c: MotionConfig, h: seq<Sample>): GateState {
    if h == [] then CLOSED
    else
      var last := h[|h| - 1];
      Decided(Some(c), GateAfter(c, h[..|h| - 1]), last.verdict, last.epoch, last.now).0
  }

  function DecisionAt(c: MotionConfig, h: seq<Sample>, k: nat): Decision
    requires k < |h|
  {
    Decided(Some(c), GateAfter(c, h[..k]), h[k].verdict, h[k].epoch, h[k].now).1
  }

  predicate EpochChangesAt(h: seq<Sample>, j: nat)
    requires j < |h|
  {
    h[j].epoch != if j == 0 then None else h[j - 1].epoch
  }

  predicate Recent(h: seq<Sample>, j: nat, k: nat, ms: nat)
    requires j < |h| && k < |h|
  {
    h[k].now - h[j].now < ms * 1_000_000
  }

  predicate MovedIn(h: seq<Sample>, j: nat)
    requires j < |h|
  {
    h[j].verdict.Some? && h[j].verdict.value.motion
  }

  // The verdict is a measurement of a still picture.
  predicate StillIn(h: seq<Sample>, j: nat)
    requires j < |h|
  {
    match h[j].verdict
    case None => false
    case Some(v) => !v.motion && !v.calibrating && !v.sceneCut
  }

  // Some sample up to `k` moved, within the linger window.
  ghost predicate Lingers(c: MotionConfig, h: seq<Sample>, k: nat)
    requires k < |h|
  {
    exists j: nat :: j <= k && MovedIn(h, j) && Recent(h, j, k, c.lingerMs)
  }

  // The epoch changed at some sample up to `k`, within the bypass window.
  ghost predicate Bypassed(c: MotionConfig, h: seq<Sample>, k: nat)
    requires k < |h|
  {
    exists j: nat :: j <= k && EpochChangesAt(h, j) && Recent(h, j, k, c.epochBypassMs)
  }

  // The model ran on some sample before `k`, within the re-verify window.
  ghost predicate Verified(c: MotionConfig, h: seq<Sample>, k: nat)
    requires k < |h|
    decreases k, 0
  {
    exists j: nat :: j < k && ShouldDetect(c, h, j) && Recent(h, j, k, c.reverifyMs)
  }

  // The policy, told from the samples themselves: the model runs on sample `k`
  // when its verdict says nothing about stillness, its camera has no epoch,
  // some sample within the linger window moved, the epoch changed within the
  // bypass window, or the model ran on no sample within the re-verify window.
  ghost predicate ShouldDetect(c: MotionConfig, h: seq<Sample>, k: nat)
    requires k < |h|
    decreases k, 1
  {
    !StillIn(h, k) || h[k].epoch.None? || Lingers(c, h, k) || Bypassed(c, h, k) || !Verified(c, h, k)
  }

  // `at` is the time of the last sample before `n` that satisfies `p`.
  ghost predicate IsLast(h: seq<Sample>, n: nat, p: nat -> bool, at: Option<int>)
    requires n <= |h|
  {
    && (forall j: nat :: j < n && p(j) ==> at.Some? && h[j].now <= at.value)
    && (at.Some? ==> exists j: nat :: j < n && p(j) && h[j].now == at.value)
  }

  lemma WithinIffRecent(h: seq<Sample>, n: nat, p: nat -> bool, at: Option<int>, k: nat, ms: nat)
    requires n <= |h| && k < |h| && n <= k + 1 && InOrder(h) && IsLast(h, n, p, at)
    ensures Within(at, ms, h[k].now) <==> exists j: nat :: j < n && p(j) && Recent(h, j, k, ms)
  {
    if at.Some? {
      var j: nat :| j < n && p(j) && h[j].now == at.value;
      assert h[j].now <= h[k].now;
      assert Within(at, ms, h[k].now) ==> Recent(h, j, k, ms);
    }
    if m: nat :| m < n && p(m) && Recent(h, m, k, ms) {
      assert h[m].now <= at.value;
    }
  }

  ghost function Moved(h: seq<Sample>): nat -> bool { (j: nat) => j < |h| && MovedIn(h, j) }

  ghost function ChangedEpoch(h: seq<Sample>): nat -> bool { (j: nat) => j < |h| && EpochChangesAt(h, j) }

  ghost function Ran(c: MotionConfig, h: seq<Sample>): nat -> bool { (j: nat) => j < |h| && ShouldDetect(c, h, j) }

  ghost predicate GateFits(c: MotionConfig, h: seq<Sample>, n: nat, g: GateState)
    requires n <= |h|
  {
    && IsLast(h, n, Moved(h), g.lastMotion)
    && IsLast(h, n, ChangedEpoch(h), g.epochChangedAt)
    && IsLast(h, n, Ran(c, h), g.lastInference)
    && g.epoch == (if n == 0 then None else h[n - 1].epoch)
  }

  lemma LastGrows(h: seq<Sample>, n: nat, p: nat -> bool, at: Option<int>)
    requires n < |h| && InOrder(h) && IsLast(h, n, p, at)
    ensures IsLast(h, n + 1, p, if p(n) then Some(h[n].now) else at)
  {
  }

  function MovedAt(g: GateState, s: Sample): Option<int> {
    if SawMotion(s.verdict) then Some(s.now) else g.lastMotion
  }

  function ChangedAt(g: GateState, s: Sample): Option<int> {
    if g.epoch != s.epoch then Some(s.now) else g.epochChangedAt
  }

  lemma LingerWindow(c: MotionConfig, h: seq<Sample>, n: nat, g: GateState)
    requires n < |h| && InOrder(h) && IsLast(h, n, Moved(h), g.lastMotion)
    ensures IsLast(h, n + 1, Moved(h), MovedAt(g, h[n]))
    ensures Within(MovedAt(g, h[n]), c.lingerMs, h[n].now) <==> Lingers(c, h, n)
  {
    LastGrows(h, n, Moved(h), g.lastMotion);
    WithinIffRecent(h, n + 1, Moved(h), MovedAt(g, h[n]), n, c.lingerMs);
    if j: nat :| j < n + 1 && Moved(h)(j) && Recent(h, j, n, c.lingerMs) {
      assert Lingers(c, h, n);
    }
    if j: nat :| j <= n && MovedIn(h, j) && Recent(h, j, n, c.lingerMs) {
      assert Moved(h)(j);
    }
  }

  lemma BypassWindow(c: MotionConfig, h: seq<Sample>, n: nat, g: GateState)
    requires n < |h| && InOrder(h) && IsLast(h, n, ChangedEpoch(h), g.epochChangedAt)
    requires g.epoch == if n == 0 then None else h[n - 1].epoch
    ensures IsLast(h, n + 1, ChangedEpoch(h), ChangedAt(g, h[n]))
    ensures Within(ChangedAt(g, h[n]), c.epochBypassMs, h[n].now) <==> Bypassed(c, h, n)
  {
    LastGrows(h, n, ChangedEpoch(h), g.epochChangedAt);
    WithinIffRecent(h, n + 1, ChangedEpoch(h), ChangedAt(g, h[n]), n, c.epochBypassMs);
    if j: nat :| j < n + 1 && ChangedEpoch(h)(j) && Recent(h, j, n, c.epochBypassMs) {
      assert Bypassed(c, h, n);
    }
    if j: nat :| j <= n && EpochChangesAt(h, j) && Recent(h, j, n, c.epochBypassMs) {
      assert ChangedEpoch(h)(j);
    }
  }

  lemma ReverifyWindow(c: MotionConfig, h: seq<Sample>, n: nat, g: GateState)
    requires n < |h| && InOrder(h) && IsLast(h, n, Ran(c, h), g.lastInference)
    ensures Within(g.lastInference, c.reverifyMs, h[n].now) <==> Verified(c, h, n)
  {
    WithinIffRecent(h, n, Ran(c, h), g.lastInference, n, c.reverifyMs);
    if j: nat :| j < n && Ran(c, h)(j) && Recent(h, j, n, c.reverifyMs) {
      assert Verified(c, h, n);
    }
    if j: nat :| j < n && ShouldDetect(c, h, j) && Recent(h, j, n, c.reverifyMs) {
      assert Ran(c, h)(j);
    }
  }

  // One more sample keeps the state the exact summary of the history.
  lemma DecideFits(c: MotionConfig, h: seq<Sample>, n: nat, g: GateState)
    requires n < |h| && InOrder(h) && GateFits(c, h, n, g)
    ensures var (g', d) := Decided(Some(c), g, h[n].verdict, h[n].epoch, h[n].now);
            (d == Detect <==> ShouldDetect(c, h, n)) && GateFits(c, h, n + 1, g')
  {
    LingerWindow(c, h, n, g);
    BypassWindow(c, h, n, g);
    ReverifyWindow(c, h, n, g);
    LastGrows(h, n, Ran(c, h), g.lastInference);
    assert Ran(c, h)(n) == ShouldDetect(c, h, n);
  }

  lemma GateStep(c: MotionConfig, h: seq<Sample>, n: nat)
    requires n < |h|
    ensures GateAfter(c, h[..n + 1])
         == Decided(Some(c), GateAfter(c, h[..n]), h[n].verdict, h[n].epoch, h[n].now).0
  {
    assert h[..n + 1][..n] == h[..n];
  }

  lemma {:induction false} GateFollowsHistory(c: MotionConfig, h: seq<Sample>, n: nat)
    requires n <= |h| && InOrder(h)
    ensures GateFits(c, h, n, GateAfter(c, h[..n]))
  {
    if n > 0 {
      var m: nat := n - 1;
      GateFollowsHistory(c, h, m);
      DecideFits(c, h, m, GateAfter(c, h[..m]));
      GateStep(c, h, m);
    }
  }

  // The gate's running state loses nothing: every decision is the declared
  // policy applied to the whole history.
  lemma DecisionIsPolicy(c: MotionConfig, h: seq<Sample>, k: nat)
    requires k < |h| && InOrder(h)
    ensures DecisionAt(c, h, k) == Detect <==> ShouldDetect(c, h, k)
  {
    GateFollowsHistory(c, h, k);
    DecideFits(c, h, k, GateAfter(c, h[..k]));
  }

  // -------------------------------------------------------------------------
  // A camera still learning its background is never gated
  // -------------------------------------------------------------------------

  // One measured frame; `reopened` when it is the first of a new detector.
  datatype Shot = Shot(frame: Frame, reopened: bool, epoch: Option<string>, now: int)

  // The frames the present detector has seen.
  function Stretch(shots: seq<Shot>): (frames: seq<Frame>)
    ensures shots != [] ==> frames != []
  {
    if shots == [] then []
    else
      var last := shots[|shots| - 1];
      (if last.reopened then [] else Stretch(shots[..|shots| - 1])) + [last.frame]
  }

  predicate ShotsOk(shots: seq<Shot>) { forall i :: 0 <= i < |shots| ==> FramesOk([shots[i].frame]) }

  lemma {:induction false} StretchOk(shots: seq<Shot>)
    requires ShotsOk(shots)
    ensures FramesOk(Stretch(shots))
  {
    if shots != [] {
      StretchOk(shots[..|shots| - 1]);
      assert FramesOk([shots[|shots| - 1].frame]);
    }
  }

  function VerdictOf(c: MotionConfig, frames: seq<Frame>): MotionVerdict
    requires ConfigOk(c) && FramesOk(frames) && frames != []
  {
    var last := frames[|frames| - 1];
    Observed(c, After(c, frames[..|frames| - 1]), last.thumb, last.pts).1
  }

  // The samples the gate is handed.
  function SamplesOf(c: MotionConfig, shots: seq<Shot>): (h: seq<Sample>)
    requires ConfigOk(c) && ShotsOk(shots)
    ensures |h| == |shots|
  {
    if shots == [] then []
    else
      var last := shots[|shots| - 1];
      StretchOk(shots);
      SamplesOf(c, shots[..|shots| - 1]) + [Sample(Some(VerdictOf(c, Stretch(shots))), last.epoch, last.now)]
  }

  lemma {:induction false} SampleIsVerdict(c: MotionConfig, shots: seq<Shot>, k: nat)
    requires ConfigOk(c) && ShotsOk(shots) && k < |shots|
    ensures FramesOk(Stretch(shots[..k + 1]))
    ensures SamplesOf(c, shots)[k].verdict == Some(VerdictOf(c, Stretch(shots[..k + 1])))
  {
    StretchOk(shots[..k + 1]);
    if k == |shots| - 1 {
      assert shots[..k + 1] == shots;
    } else {
      SampleIsVerdict(c, shots[..|shots| - 1], k);
      assert shots[..|shots| - 1][..k + 1] == shots[..k + 1];
    }
  }

  // The calibrating flag of a verdict, read off the frames it was measured on.
  lemma CalibratingIff(c: MotionConfig, frames: seq<Frame>)
    requires ConfigOk(c) && FramesOk(frames) && frames != []
    ensures VerdictOf(c, frames).calibrating <==> !LearnedWithin(frames, Restart(frames))
  {
    var last := frames[|frames| - 1];
    VerdictMeans(c, After(c, frames[..|frames| - 1]), last.thumb, last.pts);
    CalibratedIff(c, frames);
  }

  // Only a measurement of a still picture is ever skipped.
  lemma SkipIsStill(c: MotionConfig, h: seq<Sample>, k: nat)
    requires k < |h| && DecisionAt(c, h, k) == Skip
    ensures h[k].verdict.Some?
    ensures !h[k].verdict.value.motion && !h[k].verdict.value.calibrating && !h[k].verdict.value.sceneCut
  {
  }

  lemma LearningTakesTen(frames: seq<Frame>, lo: nat)
    requires lo < |frames| && LearnedWithin(frames, lo)
    ensures |frames| > lo + 10
  {
    var m :| lo < m <= |frames| && EndsWindow(frames[..m], lo);
  }

  // A skipped sample was measured by a detector past its learning window:
  // since it was opened, and since the picture last changed size, ten frames
  // had come before one dated five seconds after the earliest of them.
  lemma NeverGatedWhileLearning(c: MotionConfig, shots: seq<Shot>, k: nat)
    requires ConfigOk(c) && ShotsOk(shots) && k < |shots|
    requires DecisionAt(c, SamplesOf(c, shots), k) == Skip
    ensures var frames := Stretch(shots[..k + 1]);
            LearnedWithin(frames, Restart(frames)) && |frames| > Restart(frames) + 10
  {
    var frames := Stretch(shots[..k + 1]);
    SampleIsVerdict(c, shots, k);
    SkipIsStill(c, SamplesOf(c, shots), k);
    CalibratingIff(c, frames);
    LearningTakesTen(frames, Restart(frames));
  }

  // Nor is a frame most of whose pixels moved: a changed scene always runs the
  // model.
  lemma CutIsNeverGated(c: MotionConfig, shots: seq<Shot>, k: nat)
    requires ConfigOk(c) && ShotsOk(shots) && k < |shots| && FramesOk(Stretch(shots[..k + 1]))
    requires var frames := Stretch(shots[..k + 1]);
             var d, t := After(c, frames[..|frames| - 1]), frames[|frames| - 1].thumb;
             SameSize(d, t) && |MovedPixels(d.background, t.pixels, c.threshold)| as real > 0.8 * |t.pixels| as real
    ensures DecisionAt(c, SamplesOf(c, shots), k) == Detect
  {
    var frames := Stretch(shots[..k + 1]);
    var last := frames[|frames| - 1];
    SampleIsVerdict(c, shots, k);
    VerdictIsOfPixels(c, After(c, frames[..|frames| - 1]), last.thumb, last.pts);
    if DecisionAt(c, SamplesOf(c, shots), k) == Skip { SkipIsStill(c, SamplesOf(c, shots), k); }
  }
}
