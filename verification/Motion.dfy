/**
 One camera's motion measurement: a rolling-average background, the window in
 which it is still being learned, and the verdict on each thumbnail. The
 program's single-precision floats are reals here.
 */
module Motion {
  import opened Common
  import opened Thumbnail

  const LIGHTNING_FRACTION := 0.8
  const CALIBRATION_ALPHA := 0.2
  const CALIBRATION_WINDOW_NS := 5_000_000_000
  const CALIBRATION_MIN_FRAMES: nat := 10
  const I64_MAX := 0x7FFF_FFFF_FFFF_FFFF
  const I64_MIN := -0x8000_0000_0000_0000

  // The resolved knobs of one camera. The last three are the gate's.
  datatype MotionConfig = MotionConfig(
    threshold: nat, minAreaFraction: real, alpha: real,
    lingerMs: nat, epochBypassMs: nat, reverifyMs: nat)

  // What validation lets through.
  predicate ConfigOk(c: MotionConfig) {
    1 <= c.threshold <= 254 && 0.0 < c.minAreaFraction < LIGHTNING_FRACTION && 0.0 < c.alpha <= 1.0
  }

  datatype MotionVerdict = MotionVerdict(changedFraction: real, motion: bool, calibrating: bool, sceneCut: bool)

  const STILL := MotionVerdict(0.0, false, true, false)

  // -------------------------------------------------------------------------
  // One observation as a function
  // -------------------------------------------------------------------------

  datatype Detector = Detector(
    background: seq<real>, w: nat, h: nat, frames: nat, startedAt: Option<int>, calibrated: bool)

  const NEW := Detector([], 0, 0, 0, None, false)

  predicate ThumbOk(t: Thumb) { t.w > 0 && t.h > 0 && |t.pixels| == t.w * t.h && t.pixels != [] }

  predicate DetectorOk(d: Detector) {
    && |d.background| == d.w * d.h
    && (d.w > 0 && d.h > 0 ==> d.background != [])
    && forall i :: 0 <= i < |d.background| ==> 0.0 <= d.background[i] <= 255.0
  }

  predicate SameSize(d: Detector, t: Thumb) { d.w == t.w && d.h == t.h }

  function SaturatingSub(a: int, b: int): int { Max(I64_MIN, Min(a - b, I64_MAX)) }

  function SaturatingNext(n: nat): nat { Min(n + 1, U32_MAX) }

  function Pictured(t: Thumb): (bg: seq<real>)
    ensures |bg| == |t.pixels|
    ensures forall i :: 0 <= i < |bg| ==> bg[i] == t.pixels[i] as real
  {
    seq(|t.pixels|, i requires 0 <= i < |t.pixels| => t.pixels[i] as real)
  }

  predicate Differs(bg: real, px: byte, threshold: nat) { Abs(px as real - bg) > threshold as real }

  function ChangedUpTo(bg: seq<real>, pixels: seq<byte>, threshold: nat, n: nat): (c: nat)
    requires n <= |bg| && n <= |pixels|
    ensures c <= n
  {
    if n == 0 then 0
    else ChangedUpTo(bg, pixels, threshold, n - 1) + if Differs(bg[n - 1], pixels[n - 1], threshold) then 1 else 0
  }

  function ChangedFraction(bg: seq<real>, pixels: seq<byte>, threshold: nat): (f: real)
    requires |bg| == |pixels| && bg != []
  {
    ChangedUpTo(bg, pixels, threshold, |bg|) as real / |bg| as real
  }

  function Folded(bg: seq<real>, pixels: seq<byte>, alpha: real): (r: seq<real>)
    requires |bg| == |pixels|
    ensures |r| == |bg|
    ensures forall i :: 0 <= i < |r| ==> r[i] == bg[i] + alpha * (pixels[i] as real - bg[i])
  {
    seq(|bg|, i requires 0 <= i < |bg| => bg[i] + alpha * (pixels[i] as real - bg[i]))
  }

  // Where the calibration window starts once this frame's time is known.
  function Rebased(started: Option<int>, pts: Option<int>): Option<int> {
    if pts.Some? && (started.None? || pts.value < started.value) then pts else started
  }

  predicate WindowOver(started: Option<int>, pts: Option<int>) {
    started.Some? && pts.Some? && SaturatingSub(pts.value, started.value) >= CALIBRATION_WINDOW_NS
  }

  function Calibrate(d: Detector, pts: Option<int>): Detector {
    if d.calibrated then d
    else
      var started := Rebased(d.startedAt, pts);
      d.(startedAt := started,
         calibrated := d.frames >= CALIBRATION_MIN_FRAMES && WindowOver(started, pts))
  }

  function Observed(c: MotionConfig, d: Detector, t: Thumb, pts: Option<int>): (r: (Detector, MotionVerdict))
    requires DetectorOk(d) && ThumbOk(t)
  {
    if !SameSize(d, t) then (Detector(Pictured(t), t.w, t.h, 1, pts, false), STILL)
    else
      var k := Calibrate(d, pts).(frames := SaturatingNext(d.frames));
      var fraction := ChangedFraction(d.background, t.pixels, c.threshold);
      if fraction > LIGHTNING_FRACTION then
        (k.(background := Pictured(t)), MotionVerdict(fraction, false, !k.calibrated, true))
      else
        var alpha := if k.calibrated then c.alpha else CALIBRATION_ALPHA;
        (k.(background := Folded(d.background, t.pixels, alpha)),
         MotionVerdict(fraction, k.calibrated && fraction >= c.minAreaFraction, !k.calibrated, false))
  }

  // -------------------------------------------------------------------------
  // The detector as the program runs it
  // -------------------------------------------------------------------------

  class MotionDetector {
    const config: MotionConfig
    var background: seq<real>
    var w: nat
    var h: nat
    var frames: nat
    var startedAt: Option<int>
    var calibrated: bool

    constructor (config: MotionConfig)
      ensures this.config == config && Value() == NEW && DetectorOk(Value())
    {
      this.config := config;
      background, w, h := [], 0, 0;
      frames, startedAt, calibrated := 0, None, false;
    }

    function Value(): Detector
      reads this
    {
      Detector(background, w, h, frames, startedAt, calibrated)
    }

    method TakeBackground(thumb: Thumb)
      requires ThumbOk(thumb)
      modifies this
      ensures Value() == old(Value()).(background := Pictured(thumb), w := thumb.w, h := thumb.h)
    {
      background := Pictured(thumb);
      w, h := thumb.w, thumb.h;
    }

    method CountChanged(thumb: Thumb) returns (changed: nat)
      requires ThumbOk(thumb) && DetectorOk(Value()) && SameSize(Value(), thumb)
      ensures changed == ChangedUpTo(background, thumb.pixels, config.threshold, |background|)
    {
      changed := 0;
      for i := 0 to |background|
        invariant changed == ChangedUpTo(background, thumb.pixels, config.threshold, i)
      {
        if Differs(background[i], thumb.pixels[i], config.threshold) { changed := changed + 1; }
      }
    }

    method Fold(thumb: Thumb, alpha: real)
      requires ThumbOk(thumb) && DetectorOk(Value()) && SameSize(Value(), thumb)
      modifies this`background
      ensures background == Folded(old(background), thumb.pixels, alpha)
    {
      ghost var goal := Folded(background, thumb.pixels, alpha);
      ghost var before := background;
      for i := 0 to |background|
        invariant |background| == |before|
        invariant forall k :: 0 <= k < i ==> background[k] == goal[k]
        invariant forall k :: i <= k < |background| ==> background[k] == before[k]
      {
        var bg := background[i];
        background := background[i := bg + alpha * (thumb.pixels[i] as real - bg)];
      }
    }

    method Learn(pts: Option<int>)
      modifies this
      ensures Value() == Calibrate(old(Value()), pts)
    {
      if !calibrated {
        if startedAt.None? && pts.Some? {
          startedAt := pts;
        } else if startedAt.Some? && pts.Some? && pts.value < startedAt.value {
          startedAt := pts;
        }
        calibrated := frames >= CALIBRATION_MIN_FRAMES && WindowOver(startedAt, pts);
      }
    }

    method Observe(thumb: Thumb, pts: Option<int>) returns (verdict: MotionVerdict)
      requires ThumbOk(thumb) && DetectorOk(Value())
      modifies this
      ensures (Value(), verdict) == Observed(config, old(Value()), thumb, pts)
    {
      if w != thumb.w || h != thumb.h {
        TakeBackground(thumb);
        frames := 1;
        startedAt := pts;
        calibrated := false;
        return STILL;
      }
      Learn(pts);
      var calibrating := !calibrated;
      var changed := CountChanged(thumb);
      var fraction := changed as real / |background| as real;
      if fraction > LIGHTNING_FRACTION {
        TakeBackground(thumb);
        frames := SaturatingNext(frames);
        return MotionVerdict(fraction, false, calibrating, true);
      }
      Fold(thumb, if calibrating then CALIBRATION_ALPHA else config.alpha);
      frames := SaturatingNext(frames);
      return MotionVerdict(fraction, !calibrating && fraction >= config.minAreaFraction, calibrating, false);
    }
  }

  // -------------------------------------------------------------------------
  // What every observation keeps
  // -------------------------------------------------------------------------

  lemma MixStaysInRange(bg: real, px: real, alpha: real)
    requires 0.0 <= bg <= 255.0 && 0.0 <= px <= 255.0 && 0.0 <= alpha <= 1.0
    ensures 0.0 <= bg + alpha * (px - bg) <= 255.0
  {
    var d := px - bg;
    var step := alpha * d;
    MulBounds(d, alpha);
    assert if 0.0 <= d then 0.0 <= step <= d else d <= step <= 0.0;
    StepInRange(bg, px, step);
  }

  lemma StepInRange(bg: real, px: real, step: real)
    requires 0.0 <= bg <= 255.0 && 0.0 <= px <= 255.0
    requires if bg <= px then 0.0 <= step <= px - bg else px - bg <= step <= 0.0
    ensures 0.0 <= bg + step <= 255.0
  {
  }

  lemma MulBounds(d: real, f: real)
    requires 0.0 <= f <= 1.0
    ensures 0.0 <= d ==> 0.0 <= f * d <= d
    ensures d <= 0.0 ==> d <= f * d <= 0.0
  {
    var rest := (1.0 - f) * d;
    assert rest == d - f * d;
  }

  lemma BackgroundStaysInRange(c: MotionConfig, d: Detector, t: Thumb, pts: Option<int>)
    requires ConfigOk(c) && DetectorOk(d) && ThumbOk(t)
    ensures DetectorOk(Observed(c, d, t, pts).0) && SameSize(Observed(c, d, t, pts).0, t)
  {
    if SameSize(d, t) {
      var alpha := if Calibrate(d, pts).calibrated then c.alpha else CALIBRATION_ALPHA;
      FoldedInRange(d.background, t.pixels, alpha);
    }
  }

  lemma FoldedInRange(background: seq<real>, pixels: seq<byte>, alpha: real)
    requires |background| == |pixels| && 0.0 <= alpha <= 1.0
    requires forall i :: 0 <= i < |background| ==> 0.0 <= background[i] <= 255.0
    ensures forall i :: 0 <= i < |background| ==> 0.0 <= Folded(background, pixels, alpha)[i] <= 255.0
  {
    forall i | 0 <= i < |background| ensures 0.0 <= Folded(background, pixels, alpha)[i] <= 255.0 {
      var px := pixels[i] as real;
      assert 0.0 <= px <= 255.0;
      MixStaysInRange(background[i], px, alpha);
    }
  }

  lemma FractionInRange(bg: seq<real>, pixels: seq<byte>, threshold: nat)
    requires |bg| == |pixels| && bg != []
    ensures 0.0 <= ChangedFraction(bg, pixels, threshold) <= 1.0
  {
    var n, c := |bg| as real, ChangedUpTo(bg, pixels, threshold, |bg|) as real;
    QuotientInRange(c / n, c, n);
  }

  lemma QuotientInRange(q: real, c: real, n: real)
    requires 0.0 <= c <= n && n > 0.0 && q * n == c
    ensures 0.0 <= q <= 1.0
  {
    if q < 0.0 { PositiveProduct(-q, n); }
    if q > 1.0 { PositiveProduct(q - 1.0, n); }
  }

  lemma PositiveProduct(x: real, y: real)
    requires x > 0.0 && y > 0.0
    ensures x * y > 0.0
  {
  }

  // The three ways to report no motion are told apart, and motion is only ever
  // reported of a calibrated background and a part of the picture.
  lemma VerdictMeans(c: MotionConfig, d: Detector, t: Thumb, pts: Option<int>)
    requires ConfigOk(c) && DetectorOk(d) && ThumbOk(t)
    ensures var (d', v) := Observed(c, d, t, pts);
            && v.calibrating == !d'.calibrated
            && (v.motion <==> d'.calibrated && c.minAreaFraction <= v.changedFraction <= LIGHTNING_FRACTION)
            && (v.sceneCut <==> v.changedFraction > LIGHTNING_FRACTION)
            && 0.0 <= v.changedFraction <= 1.0
            && (v.sceneCut ==> d'.background == Pictured(t))
            && (d.calibrated && SameSize(d, t) ==> d'.calibrated)
  {
    if SameSize(d, t) { FractionInRange(d.background, t.pixels, c.threshold); }
  }

  // The pixels that moved by more than the threshold, brighter or darker.
  ghost function MovedPixels(bg: seq<real>, pixels: seq<byte>, threshold: nat): set<nat>
    requires |bg| == |pixels|
  {
    set i: nat | i < |pixels| && MovedBy(bg[i], pixels[i] as real, threshold as real)
  }

  predicate MovedBy(bg: real, px: real, threshold: real) { px - bg > threshold || bg - px > threshold }

  lemma {:induction false} MovedOneMore(bg: seq<real>, pixels: seq<byte>, threshold: nat, n: nat)
    requires |bg| == |pixels| && n < |pixels|
    ensures MovedPixels(bg[..n + 1], pixels[..n + 1], threshold)
         == MovedPixels(bg[..n], pixels[..n], threshold)
            + if MovedBy(bg[n], pixels[n] as real, threshold as real) then {n} else {}
  {
  }

  lemma {:induction false} CountIsMoved(bg: seq<real>, pixels: seq<byte>, threshold: nat, n: nat)
    requires |bg| == |pixels| && n <= |pixels|
    ensures ChangedUpTo(bg, pixels, threshold, n) == |MovedPixels(bg[..n], pixels[..n], threshold)|
  {
    if n == 0 {
      assert MovedPixels(bg[..0], pixels[..0], threshold) == {};
    } else {
      var m: nat := n - 1;
      CountIsMoved(bg, pixels, threshold, m);
      MovedOneMore(bg, pixels, threshold, m);
      assert m !in MovedPixels(bg[..m], pixels[..m], threshold);
      assert Differs(bg[m], pixels[m], threshold) <==> MovedBy(bg[m], pixels[m] as real, threshold as real);
    }
  }

  // The fraction a picture of the background's size is reported with is that of
  // the pixels that moved by more than the threshold, in either direction.
  lemma FractionIsMoved(c: MotionConfig, d: Detector, t: Thumb, pts: Option<int>)
    requires DetectorOk(d) && ThumbOk(t) && SameSize(d, t)
    ensures Observed(c, d, t, pts).1.changedFraction
         == |MovedPixels(d.background, t.pixels, c.threshold)| as real / |t.pixels| as real
  {
    FractionIs(c, d, t, pts);
    CountIsMoved(d.background, t.pixels, c.threshold, |t.pixels|);
    assert d.background[..|t.pixels|] == d.background && t.pixels[..|t.pixels|] == t.pixels;
  }

  lemma FractionIs(c: MotionConfig, d: Detector, t: Thumb, pts: Option<int>)
    requires DetectorOk(d) && ThumbOk(t) && SameSize(d, t)
    ensures |d.background| == |t.pixels| > 0
    ensures Observed(c, d, t, pts).1.changedFraction
         == ChangedUpTo(d.background, t.pixels, c.threshold, |t.pixels|) as real / |t.pixels| as real
  {
  }

  lemma Quotient(a: real, n: real)
    requires n > 0.0
    ensures a / n * n == a
  {
  }

  // What is learned of a picture: a cut replaces the background, and otherwise
  // each pixel moves towards it, a fifth of the way until calibrated.
  predicate Learns(c: MotionConfig, d: Detector, t: Thumb, cut: bool, d': Detector) {
    && d'.w == t.w && d'.h == t.h && d'.frames == Min(d.frames + 1, 4_294_967_295)
    && |d.background| == |d'.background| == |t.pixels|
    && forall i :: 0 <= i < |t.pixels| ==>
         var bg, px := d.background[i], t.pixels[i] as real;
         d'.background[i]
         == if cut then px else if d'.calibrated then bg + c.alpha * (px - bg) else bg + 0.2 * (px - bg)
  }

  // A verdict on a picture, by the fraction it carries.
  predicate ReadsFraction(c: MotionConfig, d: Detector, t: Thumb, d': Detector, v: MotionVerdict) {
    var f := v.changedFraction;
    && (v.sceneCut <==> f > 0.8)
    && (v.motion <==> d'.calibrated && c.minAreaFraction <= f && !(f > 0.8))
    && (v.calibrating <==> !d'.calibrated)
    && Learns(c, d, t, f > 0.8, d')
  }

  lemma VerdictIsOfFraction(c: MotionConfig, d: Detector, t: Thumb, pts: Option<int>)
    requires DetectorOk(d) && ThumbOk(t) && SameSize(d, t)
    ensures ReadsFraction(c, d, t, Observed(c, d, t, pts).0, Observed(c, d, t, pts).1)
  {
  }

  // And by the pixels: a calibrated detector reports motion exactly when at least
  // the least area of them moved and at most four fifths, and a cut exactly when
  // more did.
  ghost predicate ReadsPixels(c: MotionConfig, d: Detector, t: Thumb, d': Detector, v: MotionVerdict)
    requires |d.background| == |t.pixels| > 0
  {
    var n, moved := |t.pixels| as real, |MovedPixels(d.background, t.pixels, c.threshold)| as real;
    && v.changedFraction == moved / n
    && (v.sceneCut <==> moved > 0.8 * n)
    && (v.motion <==> d'.calibrated && c.minAreaFraction * n <= moved <= 0.8 * n)
    && (v.calibrating <==> !d'.calibrated)
    && Learns(c, d, t, moved > 0.8 * n, d')
  }

  lemma VerdictIsOfPixels(c: MotionConfig, d: Detector, t: Thumb, pts: Option<int>)
    requires DetectorOk(d) && ThumbOk(t) && SameSize(d, t)
    ensures |d.background| == |t.pixels| > 0
    ensures ReadsPixels(c, d, t, Observed(c, d, t, pts).0, Observed(c, d, t, pts).1)
  {
    var r := Observed(c, d, t, pts);
    FractionIsMoved(c, d, t, pts);
    VerdictIsOfFraction(c, d, t, pts);
    PixelsByFraction(c, d, t, r.0, r.1);
  }

  lemma PixelsByFraction(c: MotionConfig, d: Detector, t: Thumb, d': Detector, v: MotionVerdict)
    requires |d.background| == |t.pixels| > 0 && ReadsFraction(c, d, t, d', v)
    requires v.changedFraction == |MovedPixels(d.background, t.pixels, c.threshold)| as real / |t.pixels| as real
    ensures ReadsPixels(c, d, t, d', v)
  {
    var n, moved := |t.pixels| as real, |MovedPixels(d.background, t.pixels, c.threshold)| as real;
    Quotient(moved, n);
    AgainstFraction(v.changedFraction, 0.8, n, moved);
    AgainstFraction(v.changedFraction, c.minAreaFraction, n, moved);
  }

  lemma AgainstFraction(f: real, limit: real, n: real, moved: real)
    requires n > 0.0 && f * n == moved
    ensures f > limit <==> moved > limit * n
    ensures f >= limit <==> moved >= limit * n
  {
    if f < limit { ProductOrder(f, limit, n); }
    if f > limit { ProductOrder(limit, f, n); }
  }

  lemma ProductOrder(x: real, y: real, n: real)
    requires n > 0.0 && x < y
    ensures x * n < y * n
  {
    PositiveProduct(y - x, n);
    assert (y - x) * n == y * n - x * n;
  }

  // A picture of another size is all a new detector knows.
  lemma NewSizeStartsOver(c: MotionConfig, d: Detector, t: Thumb, pts: Option<int>)
    requires DetectorOk(d) && ThumbOk(t) && (d.w != t.w || d.h != t.h)
    ensures var (d', v) := Observed(c, d, t, pts);
            && v == MotionVerdict(0.0, false, true, false)
            && d'.w == t.w && d'.h == t.h && d'.frames == 1 && d'.startedAt == pts && !d'.calibrated
            && |d'.background| == |t.pixels|
            && forall i :: 0 <= i < |t.pixels| ==> d'.background[i] == t.pixels[i] as real
  {
  }

  // -------------------------------------------------------------------------
  // When a detector is calibrated
  // -------------------------------------------------------------------------

  datatype Frame = Frame(thumb: Thumb, pts: Option<int>)

  predicate FramesOk(frames: seq<Frame>) {
    forall i :: 0 <= i < |frames| ==>
      ThumbOk(frames[i].thumb) && (frames[i].pts.Some? ==> I64_MIN <= frames[i].pts.value <= I64_MAX)
  }

  // The detector after `frames`, from new.
  function After(c: MotionConfig, frames: seq<Frame>): (d: Detector)
    requires ConfigOk(c) && FramesOk(frames)
    ensures DetectorOk(d)
  {
    if frames == [] then NEW
    else
      var last := frames[|frames| - 1];
      var before := After(c, frames[..|frames| - 1]);
      BackgroundStaysInRange(c, before, last.thumb, last.pts);
      Observed(c, before, last.thumb, last.pts).0
  }

  // Where the last stretch of frames of one geometry begins.
  function Restart(frames: seq<Frame>): (r: nat)
    requires frames != []
    ensures r < |frames|
    decreases |frames|
  {
    var n := |frames|;
    if n > 1 && SameGeometry(frames[n - 2].thumb, frames[n - 1].thumb) then Restart(frames[..n - 1]) else n - 1
  }

  predicate SameGeometry(a: Thumb, b: Thumb) { a.w == b.w && a.h == b.h }

  // The earliest time any frame from `lo` on carries.
  function Earliest(frames: seq<Frame>, lo: nat): Option<int>
    requires lo <= |frames|
    decreases |frames|
  {
    if lo == |frames| then None
    else Rebased(Earliest(frames[..|frames| - 1], lo), frames[|frames| - 1].pts)
  }

  // The last frame is past the learning window of the stretch begun at `lo`:
  // ten frames came before it, and it is dated five seconds after the earliest
  // of them.
  predicate EndsWindow(frames: seq<Frame>, lo: nat)
    requires lo < |frames|
  {
    var pts := frames[|frames| - 1].pts;
    && |frames| - 1 - lo >= 10
    && pts.Some?
    && Earliest(frames, lo).Some? && pts.value - Earliest(frames, lo).value >= 5_000_000_000
  }

  ghost predicate LearnedWithin(frames: seq<Frame>, lo: nat)
    requires lo < |frames|
  {
    exists m :: lo < m <= |frames| && EndsWindow(frames[..m], lo)
  }

  lemma SaturationIsInvisible(a: int, b: int)
    requires I64_MIN <= a <= I64_MAX && I64_MIN <= b <= I64_MAX
    ensures SaturatingSub(a, b) >= CALIBRATION_WINDOW_NS <==> a - b >= CALIBRATION_WINDOW_NS
  {
  }

  lemma {:induction false} EarliestIsFrameTime(frames: seq<Frame>, lo: nat)
    requires FramesOk(frames) && lo <= |frames|
    ensures Earliest(frames, lo).Some? ==> I64_MIN <= Earliest(frames, lo).value <= I64_MAX
    decreases |frames|
  {
    if lo < |frames| { EarliestIsFrameTime(frames[..|frames| - 1], lo); }
  }

  // What the history says of the detector.
  ghost predicate HistoryFits(d: Detector, frames: seq<Frame>, r: nat)
    requires r < |frames|
  {
    && SameSize(d, frames[|frames| - 1].thumb)
    && d.frames == Min(|frames| - r, U32_MAX)
    && (d.calibrated <==> LearnedWithin(frames, r))
    && (!d.calibrated ==> d.startedAt == Earliest(frames, r))
  }

  // Calibration, read off the history: a detector is calibrated exactly when
  // some frame since the last change of geometry ended the learning window,
  // whatever the clock did.
  lemma {:induction false} CalibratedIff(c: MotionConfig, frames: seq<Frame>)
    requires ConfigOk(c) && FramesOk(frames) && frames != []
    ensures HistoryFits(After(c, frames), frames, Restart(frames))
    decreases |frames|
  {
    var n := |frames|;
    if n > 1 { CalibratedIff(c, frames[..n - 1]); }
    if Restart(frames) == n - 1 {
      RestartsFresh(c, frames);
    } else {
      CalibrateStep(c, frames);
    }
  }

  lemma RestartsFresh(c: MotionConfig, frames: seq<Frame>)
    requires ConfigOk(c) && FramesOk(frames) && frames != [] && Restart(frames) == |frames| - 1
    requires |frames| > 1 ==> SameSize(After(c, frames[..|frames| - 1]), frames[|frames| - 2].thumb)
    ensures HistoryFits(After(c, frames), frames, |frames| - 1)
  {
    var n := |frames|;
    assert n > 1 ==> Restart(frames[..n - 1]) < n - 1;
    assert Earliest(frames[..n - 1], n - 1) == None;
  }

  lemma LearnedLater(frames: seq<Frame>, lo: nat)
    requires lo < |frames| - 1
    ensures LearnedWithin(frames, lo) <==> LearnedWithin(frames[..|frames| - 1], lo) || EndsWindow(frames, lo)
  {
    var front := frames[..|frames| - 1];
    assert frames[..|frames|] == frames;
    forall m | lo < m <= |front| ensures frames[..m] == front[..m] {}
    if LearnedWithin(frames, lo) {
      var m :| lo < m <= |frames| && EndsWindow(frames[..m], lo);
      assert m <= |front| ==> frames[..m] == front[..m];
    }
    if LearnedWithin(front, lo) {
      var m :| lo < m <= |front| && EndsWindow(front[..m], lo);
      assert frames[..m] == front[..m];
    }
  }

  lemma CalibrateStep(c: MotionConfig, frames: seq<Frame>)
    requires ConfigOk(c) && FramesOk(frames) && |frames| > 1
    requires SameGeometry(frames[|frames| - 2].thumb, frames[|frames| - 1].thumb)
    requires HistoryFits(After(c, frames[..|frames| - 1]), frames[..|frames| - 1], Restart(frames[..|frames| - 1]))
    ensures HistoryFits(After(c, frames), frames, Restart(frames))
  {
    var front, last := frames[..|frames| - 1], frames[|frames| - 1];
    var d, r := After(c, front), Restart(front);
    LearnedLater(frames, r);
    EarliestIsFrameTime(frames, r);
    ObservedCalibration(c, d, last.thumb, last.pts);
    if !d.calibrated && last.pts.Some? {
      assert Earliest(frames, r) == Rebased(d.startedAt, last.pts);
      SaturationIsInvisible(last.pts.value, Earliest(frames, r).value);
    }
  }

  lemma ObservedCalibration(c: MotionConfig, d: Detector, t: Thumb, pts: Option<int>)
    requires DetectorOk(d) && ThumbOk(t) && SameSize(d, t)
    ensures var d' := Observed(c, d, t, pts).0;
            && SameSize(d', t) && d'.frames == SaturatingNext(d.frames)
            && d'.calibrated == Calibrate(d, pts).calibrated && d'.startedAt == Calibrate(d, pts).startedAt
  {
  }

  // -------------------------------------------------------------------------
  // A held picture is absorbed
  // -------------------------------------------------------------------------

  function Slower(c: MotionConfig): real { if c.alpha < CALIBRATION_ALPHA then c.alpha else CALIBRATION_ALPHA }

  // Every background pixel is within 255 / (1 + n * a) of the picture.
  ghost predicate Near(background: seq<real>, pixels: seq<byte>, a: real, n: nat) {
    && |background| == |pixels|
    && forall i :: 0 <= i < |pixels| ==> NearAt(background[i], pixels[i] as real, a, n)
  }

  predicate NearAt(bg: real, px: real, a: real, n: nat) {
    Abs(px - bg) * (1.0 + n as real * a) <= 255.0
  }

  // One fold shrinks the distance at least as fast as the bound.
  lemma FoldShrinks(bg: real, px: real, alpha: real, a: real, n: nat)
    requires 0.0 < a <= alpha <= 1.0
    requires NearAt(bg, px, a, n)
    ensures NearAt(bg + alpha * (px - bg), px, a, n + 1)
  {
    var e := Abs(px - bg);
    var m := 1.0 + n as real * a;
    assert Abs(px - (bg + alpha * (px - bg))) == (1.0 - alpha) * e by {
      assert px - (bg + alpha * (px - bg)) == (1.0 - alpha) * (px - bg);
    }
    ShrinkBound(e, m, alpha, a);
    assert 1.0 + (n + 1) as real * a == m + a;
  }

  lemma ShrinkBound(e: real, m: real, alpha: real, a: real)
    requires 0.0 <= e && 1.0 <= m && 0.0 < a <= alpha <= 1.0 && e * m <= 255.0
    ensures (1.0 - alpha) * e * (m + a) <= 255.0
  {
    // (1 - alpha)(m + a) <= (1 - a)(m + a) = m - a (m - 1 + a) <= m.
    var f := (1.0 - alpha) * (m + a);
    ProductNonNegative(alpha - a, m + a);
    assert (1.0 - a) * (m + a) - f == (alpha - a) * (m + a);
    ProductNonNegative(a, m - 1.0 + a);
    assert (1.0 - a) * (m + a) == m - a * (m - 1.0 + a);
    assert f <= m;
    MulMono(e, f, m);
    RegroupProduct(e, 1.0 - alpha, m + a);
  }

  lemma RegroupProduct(e: real, x: real, y: real)
    ensures x * e * y == e * (x * y)
  {
  }

  lemma MulMono(e: real, x: real, y: real)
    requires 0.0 <= e && x <= y
    ensures e * x <= e * y
  {
    assert e * (y - x) >= 0.0;
  }

  // Observing the same picture `times` over, however the frames are dated.
  function Held(c: MotionConfig, d: Detector, t: Thumb, times: seq<Option<int>>): (r: Detector)
    requires ConfigOk(c) && DetectorOk(d) && ThumbOk(t)
    ensures DetectorOk(r) && (times != [] || SameSize(d, t) ==> SameSize(r, t))
    decreases |times|
  {
    if times == [] then d
    else
      var front := Held(c, d, t, times[..|times| - 1]);
      BackgroundStaysInRange(c, front, t, times[|times| - 1]);
      Observed(c, front, t, times[|times| - 1]).0
  }

  lemma {:induction false} HeldComesNear(c: MotionConfig, d: Detector, t: Thumb, times: seq<Option<int>>)
    requires ConfigOk(c) && DetectorOk(d) && ThumbOk(t) && (SameSize(d, t) || times != [])
    ensures Near(Held(c, d, t, times).background, t.pixels, Slower(c), |times|)
    decreases |times|
  {
    var a := Slower(c);
    if times == [] {
      forall i | 0 <= i < |t.pixels| ensures NearAt(d.background[i], t.pixels[i] as real, a, 0) {
        assert Abs(t.pixels[i] as real - d.background[i]) <= 255.0;
      }
    } else {
      var front, pts := Held(c, d, t, times[..|times| - 1]), times[|times| - 1];
      if SameSize(front, t) {
        HeldComesNear(c, d, t, times[..|times| - 1]);
      }
      ObservedComesNear(c, front, t, pts, |times| - 1);
    }
  }

  lemma ObservedComesNear(c: MotionConfig, d: Detector, t: Thumb, pts: Option<int>, n: nat)
    requires ConfigOk(c) && DetectorOk(d) && ThumbOk(t)
    requires SameSize(d, t) ==> Near(d.background, t.pixels, Slower(c), n)
    ensures Near(Observed(c, d, t, pts).0.background, t.pixels, Slower(c), n + 1)
  {
    PictureIsNear(t, Slower(c), n + 1);
    if SameSize(d, t) {
      FoldedIsNear(d.background, t.pixels, if Calibrate(d, pts).calibrated then c.alpha else CALIBRATION_ALPHA,
                   Slower(c), n);
    }
  }

  lemma PictureIsNear(t: Thumb, a: real, n: nat)
    ensures Near(Pictured(t), t.pixels, a, n)
  {
    forall i | 0 <= i < |t.pixels| ensures NearAt(Pictured(t)[i], t.pixels[i] as real, a, n) {
      assert Abs(t.pixels[i] as real - Pictured(t)[i]) == 0.0;
    }
  }

  lemma FoldedIsNear(background: seq<real>, pixels: seq<byte>, alpha: real, a: real, n: nat)
    requires 0.0 < a <= alpha <= 1.0 && Near(background, pixels, a, n)
    ensures Near(Folded(background, pixels, alpha), pixels, a, n + 1)
  {
    forall i | 0 <= i < |pixels| ensures NearAt(Folded(background, pixels, alpha)[i], pixels[i] as real, a, n + 1) {
      FoldShrinks(background[i], pixels[i] as real, alpha, a, n);
    }
  }

  lemma {:induction false} NoneChanged(bg: seq<real>, pixels: seq<byte>, threshold: nat, n: nat)
    requires n <= |bg| && n <= |pixels|
    requires forall i :: 0 <= i < n ==> !Differs(bg[i], pixels[i], threshold)
    ensures ChangedUpTo(bg, pixels, threshold, n) == 0
  {
    if n > 0 { NoneChanged(bg, pixels, threshold, n - 1); }
  }

  predicate ReadsUnchanged(v: MotionVerdict) { v.changedFraction == 0.0 && !v.motion && !v.sceneCut }

  // The picture has been held for n frames with
  // n >= (255 / threshold - 1) / min(alpha, 0.2).
  predicate HeldLongEnough(c: MotionConfig, n: nat) {
    255.0 <= c.threshold as real * (1.0 + n as real * Slower(c))
  }

  // From any state, a picture held long enough reads as unchanged from then
  // on: no motion, no scene cut.
  lemma HeldPictureIsAbsorbed(c: MotionConfig, d: Detector, t: Thumb, times: seq<Option<int>>, pts: Option<int>)
    requires ConfigOk(c) && DetectorOk(d) && ThumbOk(t) && times != []
    requires HeldLongEnough(c, |times|)
    ensures ReadsUnchanged(Observed(c, Held(c, d, t, times), t, pts).1)
  {
    var held := Held(c, d, t, times);
    assert Near(held.background, t.pixels, Slower(c), |times|) by { HeldComesNear(c, d, t, times); }
    NearReadsStill(c, held, t, pts, |times|);
  }

  lemma NearReadsStill(c: MotionConfig, d: Detector, t: Thumb, pts: Option<int>, n: nat)
    requires ConfigOk(c) && DetectorOk(d) && ThumbOk(t) && SameSize(d, t)
    requires Near(d.background, t.pixels, Slower(c), n) && HeldLongEnough(c, n)
    ensures ReadsUnchanged(Observed(c, d, t, pts).1)
  {
    forall i | 0 <= i < |t.pixels| ensures !Differs(d.background[i], t.pixels[i], c.threshold) {
      assert NearAt(d.background[i], t.pixels[i] as real, Slower(c), n);
      NearIsUnchanged(d.background[i], t.pixels[i], Slower(c), n, c.threshold);
    }
    NoneChanged(d.background, t.pixels, c.threshold, |t.pixels|);
  }

  lemma NearIsUnchanged(bg: real, px: byte, a: real, n: nat, threshold: nat)
    requires 0.0 < a && NearAt(bg, px as real, a, n)
    requires 255.0 <= threshold as real * (1.0 + n as real * a)
    ensures !Differs(bg, px, threshold)
  {
    assert n as real * a >= 0.0;
    WithinThreshold(Abs(px as real - bg), 1.0 + n as real * a, threshold as real);
  }

  lemma WithinThreshold(e: real, m: real, threshold: real)
    requires 1.0 <= m && e * m <= 255.0 <= threshold * m
    ensures e <= threshold
  {
    assert e > threshold ==> (e - threshold) * m > 0.0;
    assert (e - threshold) * m == e * m - threshold * m;
  }
}
