/**
 The overlay player's path sampling: a cursor that playback moves forward and
 a backward seek repositions by binary search, against a sampler that searches
 from the start every time. Times and coordinates are reals.
 */
module TrackOverlay {
  import opened Common

  const MAX_LERP_GAP_MS := 1000.0
  const BOX_HOLD_MS := 300.0

  datatype Box = Box(x: real, y: real, w: real, h: real)

  // A path's columns. `scores` is empty when the file carries none, and holds
  // `None` for a sample without a score.
  datatype Path = Path(times: seq<real>, boxes: seq<Box>, scores: seq<Option<real>>)

  predicate Sorted(times: seq<real>) { forall i, j :: 0 <= i <= j < |times| ==> times[i] <= times[j] }

  ghost predicate PathOk(p: Path) { |p.boxes| == |p.times| && Sorted(p.times) }

  // -------------------------------------------------------------------------
  // The stateless sampler
  // -------------------------------------------------------------------------

  // The last of the first `n` times at or before `t`, searched for one by one.
  function LastAtOrBefore(times: seq<real>, n: nat, t: real): (i: nat)
    requires 0 < n <= |times| && times[0] <= t
    ensures i < n && times[i] <= t
    ensures forall k :: i < k < n ==> times[k] > t
  {
    if n == 1 || times[n - 1] <= t then n - 1 else LastAtOrBefore(times, n - 1, t)
  }

  predicate InRange(p: Path, t: real) {
    p.times != [] && p.times[0] <= t <= p.times[|p.times| - 1]
  }

  function Lerp(a: real, b: real, f: real): real { a + (b - a) * f }

  function LerpBox(a: Box, b: Box, f: real): Box {
    Box(Lerp(a.x, b.x, f), Lerp(a.y, b.y, f), Lerp(a.w, b.w, f), Lerp(a.h, b.h, f))
  }

  // The box between samples `i` and `i + 1`.
  function Between(p: Path, i: nat, t: real): Option<Box>
    requires i + 1 < |p.times| && |p.boxes| == |p.times|
  {
    var t0, t1 := p.times[i], p.times[i + 1];
    if t1 - t0 >= MAX_LERP_GAP_MS then
      if t >= t1 then Some(p.boxes[i + 1])
      else if t - t0 <= BOX_HOLD_MS then Some(p.boxes[i])
      else None
    else
      var f := if t1 > t0 then Clamp((t - t0) / (t1 - t0)) else 0.0;
      Some(LerpBox(p.boxes[i], p.boxes[i + 1], f))
  }

  function Clamp(f: real): real { if f < 0.0 then 0.0 else if f > 1.0 then 1.0 else f }

  // What is shown at `t`, from the path alone.
  function SampleOf(p: Path, t: real): Option<Box>
    requires |p.boxes| == |p.times|
  {
    if !InRange(p, t) then None
    else if |p.times| == 1 then Some(p.boxes[0])
    else Between(p, LastAtOrBefore(p.times, |p.times| - 1, t), t)
  }

  // The score of the newest sample at or before `t`.
  function ScoreOf(p: Path, t: real): Option<real>
    requires InRange(p, t)
  {
    if p.scores == [] then None
    else p.scores[Min(LastAtOrBefore(p.times, |p.times|, t), |p.scores| - 1)]
  }

  // -------------------------------------------------------------------------
  // The sampler with a cursor
  // -------------------------------------------------------------------------

  class Track {
    const path: Path
    var cursor: nat

    constructor (path: Path)
      requires PathOk(path)
      ensures this.path == path && Valid()
    {
      this.path := path;
      cursor := 0;
    }

    // The cursor names a sample, and the last one only on a path of one.
    ghost predicate Valid()
      reads this
    {
      PathOk(path) && (cursor == 0 || cursor + 1 < |path.times|)
    }

    method SampleAt(t: real) returns (box: Option<Box>)
      requires Valid()
      modifies this
      ensures Valid()
      ensures box == SampleOf(path, t)
      ensures InRange(path, t) && |path.times| > 1 ==> cursor == LastAtOrBefore(path.times, |path.times| - 1, t)
      ensures !(InRange(path, t) && |path.times| > 1) ==> cursor == old(cursor)
    {
      var times := path.times;
      var n := |times|;
      if n == 0 || t < times[0] || t > times[n - 1] { return None; }
      if n == 1 { return Some(path.boxes[0]); }
      if t < times[cursor] {
        var lo, hi := 0, n - 1;
        while lo < hi
          invariant 0 <= lo <= hi <= n - 1
          invariant forall k :: 0 <= k < lo ==> times[k] <= t
          invariant hi < n - 1 ==> t < times[hi]
        {
          var mid := (lo + hi) / 2;
          if times[mid] <= t { lo := mid + 1; } else { hi := mid; }
        }
        cursor := Max(lo - 1, 0);
      }
      while cursor < n - 2 && times[cursor + 1] <= t
        invariant cursor <= n - 2 && times[cursor] <= t
        decreases n - cursor
      {
        cursor := cursor + 1;
      }
      CursorIsLast(times, n - 1, t, cursor);
      box := Between(path, cursor, t);
    }

    // Called after `SampleAt` at the same time found a box.
    method SampleScoreAt(t: real) returns (score: Option<real>)
      requires Valid() && InRange(path, t)
      requires |path.times| > 1 ==> cursor == LastAtOrBefore(path.times, |path.times| - 1, t)
      requires |path.times| == 1 ==> cursor == 0
      ensures score == ScoreOf(path, t)
    {
      if path.scores == [] { return None; }
      var i := cursor;
      var j := if i + 1 < |path.times| && t >= path.times[i + 1] then i + 1 else i;
      CursorIsLast(path.times, |path.times|, t, j);
      score := path.scores[Min(j, |path.scores| - 1)];
    }

    // Any sequence of seeks, forward or backward, shows what the stateless
    // sampler shows.
    method Playback(seeks: seq<real>) returns (boxes: seq<Option<Box>>)
      requires Valid()
      modifies this
      ensures Valid() && |boxes| == |seeks|
      ensures forall k :: 0 <= k < |seeks| ==> boxes[k] == SampleOf(path, seeks[k])
    {
      boxes := [];
      for k := 0 to |seeks|
        invariant Valid() && |boxes| == k
        invariant forall j :: 0 <= j < k ==> boxes[j] == SampleOf(path, seeks[j])
      {
        var box := SampleAt(seeks[k]);
        boxes := boxes + [box];
      }
    }
  }

  lemma CursorIsLast(times: seq<real>, n: nat, t: real, i: nat)
    requires Sorted(times) && i < n <= |times|
    requires times[0] <= t && times[i] <= t
    requires i + 1 < n ==> t < times[i + 1]
    ensures LastAtOrBefore(times, n, t) == i
  {
    forall k | i < k < n ensures times[k] > t {
      assert times[i + 1] <= times[k];
    }
  }

  // -------------------------------------------------------------------------
  // What is shown
  // -------------------------------------------------------------------------

  // At a sample's own time its own box is shown, unless a later sample shares
  // the time.
  lemma SamplesAreExact(p: Path, k: nat)
    requires PathOk(p) && k < |p.times|
    requires forall j :: k < j < |p.times| ==> p.times[k] < p.times[j]
    requires k > 0 ==> p.times[k - 1] < p.times[k]
    ensures SampleOf(p, p.times[k]) == Some(p.boxes[k])
  {
    var n, t := |p.times|, p.times[k];
    assert InRange(p, t);
    if n > 1 {
      if k < n - 1 {
        CursorIsLast(p.times, n - 1, t, k);
        LerpEnds(p.boxes[k], p.boxes[k + 1]);
        QuotientEnds(p.times[k + 1] - t);
      } else {
        CursorIsLast(p.times, n - 1, t, k - 1);
        LerpEnds(p.boxes[k - 1], p.boxes[k]);
        QuotientEnds(t - p.times[k - 1]);
      }
    }
  }

  lemma LerpEnds(a: Box, b: Box)
    ensures LerpBox(a, b, 0.0) == a && LerpBox(a, b, 1.0) == b
  {
  }

  lemma QuotientEnds(d: real)
    requires d > 0.0
    ensures 0.0 / d == 0.0 && d / d == 1.0
  {
  }

  // `v` lies between `a` and `b`, in either order.
  predicate Within(v: real, a: real, b: real) { (a <= v <= b) || (b <= v <= a) }

  lemma LerpWithin(a: real, b: real, f: real)
    requires 0.0 <= f <= 1.0
    ensures Within(Lerp(a, b, f), a, b)
  {
    if a <= b {
      ProductSign(b - a, f);
      ProductSign(b - a, 1.0 - f);
      assert a <= Lerp(a, b, f) <= b;
    } else {
      ProductSign(a - b, f);
      ProductSign(a - b, 1.0 - f);
      assert b <= Lerp(a, b, f) <= a;
    }
  }

  lemma ProductSign(x: real, y: real)
    requires x >= 0.0 && y >= 0.0
    ensures x * y >= 0.0
  {
  }

  predicate BoxWithin(v: Box, a: Box, b: Box) {
    Within(v.x, a.x, b.x) && Within(v.y, a.y, b.y) && Within(v.w, a.w, b.w) && Within(v.h, a.h, b.h)
  }

  // No box is invented in a gap: what is shown is an observed sample's own
  // box, held for 300 ms at most, or lies between two samples less than a
  // second apart.
  lemma NothingInventedInGaps(p: Path, t: real)
    requires PathOk(p) && SampleOf(p, t).Some? && |p.times| > 1
    ensures var i := LastAtOrBefore(p.times, |p.times| - 1, t);
            var box := SampleOf(p, t).value;
            if p.times[i + 1] - p.times[i] < MAX_LERP_GAP_MS then
              BoxWithin(box, p.boxes[i], p.boxes[i + 1])
            else
              || (box == p.boxes[i + 1] && t >= p.times[i + 1])
              || (box == p.boxes[i] && p.times[i] <= t <= p.times[i] + BOX_HOLD_MS)
  {
    var i := LastAtOrBefore(p.times, |p.times| - 1, t);
    var t0, t1 := p.times[i], p.times[i + 1];
    if t1 - t0 < MAX_LERP_GAP_MS {
      var f := if t1 > t0 then Clamp((t - t0) / (t1 - t0)) else 0.0;
      var a, b := p.boxes[i], p.boxes[i + 1];
      LerpWithin(a.x, b.x, f);
      LerpWithin(a.y, b.y, f);
      LerpWithin(a.w, b.w, f);
      LerpWithin(a.h, b.h, f);
    }
  }

  // `v` is where the straight line from `a` at `t0` to `b` at `t1` is at `t`.
  predicate OnLine(v: real, a: real, b: real, t0: real, t1: real, t: real) {
    (v - a) * (t1 - t0) == (b - a) * (t - t0)
  }

  predicate BoxOnLine(v: Box, a: Box, b: Box, t0: real, t1: real, t: real) {
    && OnLine(v.x, a.x, b.x, t0, t1, t) && OnLine(v.y, a.y, b.y, t0, t1, t)
    && OnLine(v.w, a.w, b.w, t0, t1, t) && OnLine(v.h, a.h, b.h, t0, t1, t)
  }

  lemma LerpOnLine(a: real, b: real, t0: real, t1: real, t: real)
    requires t0 < t1
    ensures OnLine(Lerp(a, b, (t - t0) / (t1 - t0)), a, b, t0, t1, t)
  {
    var f, d := (t - t0) / (t1 - t0), t1 - t0;
    assert f * d == t - t0;
    Reassociate(b - a, f, d);
    assert Lerp(a, b, f) - a == (b - a) * f;
  }

  lemma Reassociate(x: real, y: real, z: real)
    ensures x * y * z == x * (y * z)
  {
  }

  lemma FractionInRange(t0: real, t1: real, t: real)
    requires t0 <= t <= t1 && t0 < t1
    ensures Clamp((t - t0) / (t1 - t0)) == (t - t0) / (t1 - t0)
  {
    var f, d := (t - t0) / (t1 - t0), t1 - t0;
    assert f * d == t - t0;
    if f < 0.0 { ProductPositive(-f, d); }
    if f > 1.0 {
      ProductPositive(f - 1.0, d);
      assert (f - 1.0) * d == f * d - d;
    }
  }

  lemma ProductPositive(x: real, y: real)
    requires x > 0.0 && y > 0.0
    ensures x * y > 0.0
  {
  }

  // Between two samples less than a second apart the box is on the straight line
  // between theirs; in a longer gap the first is held for 300 ms, and then nothing
  // is shown.
  lemma ShownBetween(p: Path, i: nat, t: real)
    requires PathOk(p) && i + 1 < |p.times| && p.times[i] <= t < p.times[i + 1]
    ensures var t0, t1, shown := p.times[i], p.times[i + 1], SampleOf(p, t);
            if t1 - t0 < 1000.0 then shown.Some? && BoxOnLine(shown.value, p.boxes[i], p.boxes[i + 1], t0, t1, t)
            else shown == if t - t0 <= 300.0 then Some(p.boxes[i]) else None
  {
    var a, b, t0, t1 := p.boxes[i], p.boxes[i + 1], p.times[i], p.times[i + 1];
    assert p.times[0] <= t0 && t1 <= p.times[|p.times| - 1];
    CursorIsLast(p.times, |p.times| - 1, t, i);
    FractionInRange(t0, t1, t);
    LerpOnLine(a.x, b.x, t0, t1, t);
    LerpOnLine(a.y, b.y, t0, t1, t);
    LerpOnLine(a.w, b.w, t0, t1, t);
    LerpOnLine(a.h, b.h, t0, t1, t);
  }

  // At the path's end its last box is shown, or the one before it if they share
  // the time; and outside the path nothing.
  lemma ShownAtEnds(p: Path, t: real)
    requires PathOk(p)
    ensures p.times == [] || t < p.times[0] || t > p.times[|p.times| - 1] ==> SampleOf(p, t).None?
    ensures |p.times| == 1 && t == p.times[0] ==> SampleOf(p, t) == Some(p.boxes[0])
    ensures |p.times| > 1 && t == p.times[|p.times| - 1] ==>
              var n := |p.times|;
              SampleOf(p, t) == Some(p.boxes[if p.times[n - 2] < t then n - 1 else n - 2])
  {
    var n := |p.times|;
    if n > 1 && t == p.times[n - 1] {
      CursorIsLast(p.times, n - 1, t, n - 2);
      var t0 := p.times[n - 2];
      LerpEnds(p.boxes[n - 2], p.boxes[n - 1]);
      if t0 < t { QuotientEnds(t - t0); }
    }
  }

  // The score is that of the newest sample at or before `t`, or the last there is.
  lemma ScoreShown(p: Path, i: nat, t: real)
    requires PathOk(p) && i < |p.times| && p.times[i] <= t <= p.times[|p.times| - 1]
    requires i + 1 < |p.times| ==> t < p.times[i + 1]
    ensures InRange(p, t)
    ensures ScoreOf(p, t)
         == if p.scores == [] then None else if i < |p.scores| then p.scores[i] else p.scores[|p.scores| - 1]
  {
    assert p.times[0] <= p.times[i];
    CursorIsLast(p.times, |p.times|, t, i);
  }

  // -------------------------------------------------------------------------
  // Delta decoding
  // -------------------------------------------------------------------------

  function PrefixSum(column: seq<int>, n: nat): int
    requires n <= |column|
  {
    if n == 0 then 0 else PrefixSum(column, n - 1) + column[n - 1]
  }

  method Undelta(column: seq<int>) returns (out: seq<int>)
    ensures |out| == |column|
    ensures forall i :: 0 <= i < |column| ==> out[i] == PrefixSum(column, i + 1)
  {
    out := [];
    var acc := 0;
    for i := 0 to |column|
      invariant acc == PrefixSum(column, i) && |out| == i
      invariant forall k :: 0 <= k < i ==> out[k] == PrefixSum(column, k + 1)
    {
      acc := acc + column[i];
      out := out + [acc];
    }
  }

  // The writer's side: each value less the one before it.
  function Delta(values: seq<int>): (column: seq<int>)
    ensures |column| == |values|
  {
    seq(|values|, i requires 0 <= i < |values| => if i == 0 then values[0] else values[i] - values[i - 1])
  }

  lemma {:induction false} UndeltaOfDelta(values: seq<int>, i: nat)
    requires i < |values|
    ensures PrefixSum(Delta(values), i + 1) == values[i]
  {
    if i > 0 { UndeltaOfDelta(values, i - 1); }
  }

  lemma {:induction false} PrefixSumMonotone(column: seq<int>, m: nat, n: nat)
    requires m <= n <= |column| && forall k :: 0 < k < |column| ==> column[k] >= 0
    requires m > 0
    ensures PrefixSum(column, m) <= PrefixSum(column, n)
    decreases n
  {
    if m < n { PrefixSumMonotone(column, m, n - 1); }
  }

  // A file whose time and index steps do not go backward decodes to paths the
  // sampler accepts.
  lemma DecodedTimesSorted(ts: seq<int>, ti: seq<int>, times: seq<real>)
    requires forall k :: 0 < k < |ts| ==> ts[k] >= 0
    requires forall k :: 0 < k < |ti| ==> ti[k] >= 0
    requires |times| == |ti|
    requires forall i :: 0 <= i < |ti| ==> DecodedAt(ts, ti, i, times[i])
    ensures Sorted(times)
  {
    forall i, j | 0 <= i <= j < |times| ensures times[i] <= times[j] {
      assert DecodedAt(ts, ti, i, times[i]) && DecodedAt(ts, ti, j, times[j]);
      PrefixSumMonotone(ti, i + 1, j + 1);
      PrefixSumMonotone(ts, PrefixSum(ti, i + 1) + 1, PrefixSum(ti, j + 1) + 1);
    }
  }

  // A path's i-th time is the file's time at the i-th decoded index.
  predicate DecodedAt(ts: seq<int>, ti: seq<int>, i: nat, time: real)
    requires i < |ti|
  {
    var k := PrefixSum(ti, i + 1);
    0 <= k < |ts| && time == PrefixSum(ts, k + 1) as real
  }
}
