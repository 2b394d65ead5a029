/**
 The motion detector's thumbnail: a box-filter downsample of packed RGB24 rows
 to a gray picture at most 96 pixels wide.
 */
module Thumbnail {
  import opened Common

  const MAX_THUMB_W: nat := 96

  // The largest value a u32 holds.
  const U32_MAX := 0xFFFF_FFFF

  datatype Thumb = Thumb(w: nat, h: nat, pixels: seq<byte>)

  function ThumbWidth(contentW: nat): (w: nat)
    ensures 0 < w <= MAX_THUMB_W
  {
    Min(Max(contentW, 1), MAX_THUMB_W)
  }

  function ThumbHeight(contentW: nat, contentH: nat): nat {
    Max(contentH * ThumbWidth(contentW) / Max(contentW, 1), 1)
  }

  // BT.601 luma scaled by 256. The weights sum to 256, so grey stays grey.
  function Luma256(r: byte, g: byte, b: byte): (l: nat)
    ensures 256 * Min(r, Min(g, b)) <= l <= 256 * Max(r, Max(g, b)) <= 255 * 256
  {
    77 * r + 150 * g + 29 * b
  }

  // -------------------------------------------------------------------------
  // Boxes along one axis: `n` of them over `len` pixels
  // -------------------------------------------------------------------------

  function BoxStart(t: nat, n: nat, len: nat): nat
    requires n > 0
  {
    t * len / n
  }

  function BoxEnd(t: nat, n: nat, len: nat): nat
    requires n > 0
  {
    Max((t + 1) * len / n, BoxStart(t, n, len) + 1)
  }

  lemma DivBounds(a: nat, n: nat)
    requires n > 0
    ensures n * (a / n) <= a < n * (a / n) + n
  {
  }

  lemma MulOrder(a: int, b: int, n: int)
    requires n > 0
    ensures n * a < n * b + n ==> a <= b
    ensures a <= b ==> n * a <= n * b
  {
    if a <= b {
      assert n * (b - a) >= 0;
    } else {
      assert n * (a - b - 1) >= 0;
    }
  }

  // With at least as many pixels as boxes no box is empty, so the guard that
  // widens an empty one never acts.
  lemma BoxesAreTight(t: nat, n: nat, len: nat)
    requires 0 < n <= len
    ensures BoxStart(t, n, len) < (t + 1) * len / n
    ensures BoxEnd(t, n, len) == BoxStart(t + 1, n, len)
  {
    var s, e := t * len / n, (t + 1) * len / n;
    DivBounds(t * len, n);
    DivBounds((t + 1) * len, n);
    assert (t + 1) * len == t * len + len;
    assert n * (s + 1) == n * s + n;
    MulOrder(s + 1, e, n);
  }

  // The box a pixel falls in.
  function BoxOf(y: nat, n: nat, len: nat): nat
    requires 0 < n && y < len
  {
    ((y + 1) * n - 1) / len
  }

  // The boxes partition the pixels: each pixel is in one box and no other.
  lemma BoxesPartition(y: nat, n: nat, len: nat, t: nat)
    requires 0 < n <= len && y < len
    ensures BoxOf(y, n, len) < n
    ensures BoxStart(t, n, len) <= y < BoxEnd(t, n, len) <==> t == BoxOf(y, n, len)
  {
    BoxesAreTight(t, n, len);
    StartIff(t, n, len, y);
    StartIff(t + 1, n, len, y);
    assert BoxOf(y, n, len) < n by {
      var q := BoxOf(y, n, len);
      DivBounds((y + 1) * n - 1, len);
      assert (y + 1) * n <= len * n by { MulOrder(y + 1, len, n); }
      if q >= n { MulOrder(n, q, len); }
    }
  }

  // Box `t` starts at or before `y` exactly when `t` is at most `y`'s box.
  lemma StartIff(t: nat, n: nat, len: nat, y: nat)
    requires 0 < n && y < len
    ensures BoxStart(t, n, len) <= y <==> t <= BoxOf(y, n, len)
  {
    var s, q := BoxStart(t, n, len), BoxOf(y, n, len);
    DivBounds(t * len, n);
    DivBounds((y + 1) * n - 1, len);
    assert (y + 1) * n == n * y + n;
    if s <= y {
      MulOrder(s, y, n);
      assert len * t == t * len;
      MulOrder(t, q, len);
    } else {
      MulOrder(y + 1, s, n);
      assert n * (y + 1) == n * y + n;
      assert len * t == t * len;
      if t <= q { MulOrder(t, q, len); }
    }
  }

  // -------------------------------------------------------------------------
  // The mean under one box
  // -------------------------------------------------------------------------

  // Packed RGB24 rows, `stride` bytes apart.
  datatype Plane = Plane(data: seq<byte>, stride: nat, w: nat, h: nat)

  predicate PlaneOk(p: Plane) {
    p.w > 0 && p.h > 0 && 3 * p.w <= p.stride && p.stride * p.h <= |p.data|
  }

  lemma PixelInPlane(p: Plane, x: nat, y: nat)
    requires PlaneOk(p) && x < p.w && y < p.h
    ensures y * p.stride + 3 * x + 3 <= y * p.stride + p.w * 3 <= |p.data|
  {
    MulOrder(y + 1, p.h, p.stride);
    assert p.stride * (y + 1) == y * p.stride + p.stride;
  }

  function PixelLuma(p: Plane, x: nat, y: nat): (l: nat)
    requires PlaneOk(p) && x < p.w && y < p.h
    ensures l <= 255 * 256
  {
    PixelInPlane(p, x, y);
    var at := y * p.stride + 3 * x;
    Luma256(p.data[at], p.data[at + 1], p.data[at + 2])
  }

  function RowSum(p: Plane, y: nat, x0: nat, x1: nat): nat
    requires PlaneOk(p) && y < p.h && x0 <= x1 <= p.w
    decreases x1
  {
    if x0 == x1 then 0 else RowSum(p, y, x0, x1 - 1) + PixelLuma(p, x1 - 1, y)
  }

  function BoxSum(p: Plane, x0: nat, x1: nat, y0: nat, y1: nat): nat
    requires PlaneOk(p) && x0 <= x1 <= p.w && y0 <= y1 <= p.h
    decreases y1
  {
    if y0 == y1 then 0 else BoxSum(p, x0, x1, y0, y1 - 1) + RowSum(p, y1 - 1, x0, x1)
  }

  ghost predicate LumaBetween(p: Plane, x0: nat, x1: nat, y0: nat, y1: nat, lo: nat, hi: nat)
    requires PlaneOk(p) && x0 <= x1 <= p.w && y0 <= y1 <= p.h
  {
    forall x, y :: x0 <= x < x1 && y0 <= y < y1 ==> lo <= PixelLuma(p, x, y) <= hi
  }

  lemma {:induction false} RowSumBounds(p: Plane, y: nat, x0: nat, x1: nat, lo: nat, hi: nat)
    requires PlaneOk(p) && y < p.h && x0 <= x1 <= p.w
    requires forall x :: x0 <= x < x1 ==> lo <= PixelLuma(p, x, y) <= hi
    ensures lo * (x1 - x0) <= RowSum(p, y, x0, x1) <= hi * (x1 - x0)
    decreases x1
  {
    if x0 < x1 {
      RowSumBounds(p, y, x0, x1 - 1, lo, hi);
      assert lo * (x1 - x0) == lo * (x1 - 1 - x0) + lo;
      assert hi * (x1 - x0) == hi * (x1 - 1 - x0) + hi;
    }
  }

  lemma BoxSumBounds(p: Plane, x0: nat, x1: nat, y0: nat, y1: nat, lo: nat, hi: nat)
    requires PlaneOk(p) && x0 <= x1 <= p.w && y0 <= y1 <= p.h
    requires LumaBetween(p, x0, x1, y0, y1, lo, hi)
    ensures lo * (x1 - x0) * (y1 - y0) <= BoxSum(p, x0, x1, y0, y1) <= hi * (x1 - x0) * (y1 - y0)
  {
    forall y: nat | y0 <= y < y1 ensures lo * (x1 - x0) <= RowSum(p, y, x0, x1) <= hi * (x1 - x0) {
      RowSumBounds(p, y, x0, x1, lo, hi);
    }
    RowsAddUp(p, x0, x1, y0, y1, lo * (x1 - x0), hi * (x1 - x0));
  }

  lemma {:induction false} RowsAddUp(p: Plane, x0: nat, x1: nat, y0: nat, y1: nat, lo: int, hi: int)
    requires PlaneOk(p) && x0 <= x1 <= p.w && y0 <= y1 <= p.h
    requires forall y: nat :: y0 <= y < y1 ==> lo <= RowSum(p, y, x0, x1) <= hi
    ensures lo * (y1 - y0) <= BoxSum(p, x0, x1, y0, y1) <= hi * (y1 - y0)
    decreases y1
  {
    if y0 < y1 {
      RowsAddUp(p, x0, x1, y0, y1 - 1, lo, hi);
      OneMore(BoxSum(p, x0, x1, y0, y1 - 1), RowSum(p, y1 - 1, x0, x1), lo, hi, y1 - 1 - y0);
    }
  }

  lemma OneMore(sum: int, more: int, lo: int, hi: int, n: int)
    requires lo * n <= sum <= hi * n && lo <= more <= hi
    ensures lo * (n + 1) <= sum + more <= hi * (n + 1)
  {
    assert lo * (n + 1) == lo * n + lo && hi * (n + 1) == hi * n + hi;
  }

  function Count(x0: nat, x1: nat, y0: nat, y1: nat): nat
    requires x0 <= x1 && y0 <= y1
  {
    (y1 - y0) * (x1 - x0)
  }

  lemma CountPositive(x0: nat, x1: nat, y0: nat, y1: nat)
    requires x0 < x1 && y0 < y1
    ensures Count(x0, x1, y0, y1) > 0
  {
  }

  lemma MeanBetween(sum: nat, count: nat, lo: nat, hi: nat)
    requires count > 0 && lo * count <= sum <= hi * count
    ensures lo / 256 <= sum / (count * 256) <= hi / 256
  {
    var q, d := sum / (count * 256), count * 256;
    DivBounds(sum, d);
    DivBounds(lo, 256);
    DivBounds(hi, 256);
    assert d * (lo / 256) <= lo * count by {
      assert d * (lo / 256) == count * (256 * (lo / 256));
      MulOrder(256 * (lo / 256), lo, count);
    }
    MulOrder(lo / 256, q, d);
    assert hi * count < d * (hi / 256) + d by {
      assert d * (hi / 256) + d == count * (256 * (hi / 256) + 256);
      MulOrder(hi + 1, 256 * (hi / 256) + 256, count);
      assert count * (hi + 1) == hi * count + count;
    }
    MulOrder(q, hi / 256, d);
  }

  // The thumbnail pixel at column `tx` of row `ty`.
  function Mean(p: Plane, tx: nat, ty: nat): (m: byte)
    requires PlaneOk(p) && tx < ThumbWidth(p.w) && ty < ThumbHeight(p.w, p.h)
  {
    var r := RectOf(p, tx, ty);
    MeanIsLuma(p, r.x0, r.x1, r.y0, r.y1, 0, 255 * 256);
    BoxSum(p, r.x0, r.x1, r.y0, r.y1) / (Count(r.x0, r.x1, r.y0, r.y1) * 256)
  }

  datatype Rect = Rect(x0: nat, x1: nat, y0: nat, y1: nat)

  // The pixels under the thumbnail pixel at column `tx` of row `ty`.
  function RectOf(p: Plane, tx: nat, ty: nat): (r: Rect)
    requires PlaneOk(p) && tx < ThumbWidth(p.w) && ty < ThumbHeight(p.w, p.h)
    ensures r.x0 < r.x1 <= p.w && r.y0 < r.y1 <= p.h
  {
    var w, h := ThumbWidth(p.w), ThumbHeight(p.w, p.h);
    BoxBounds(p, tx, ty);
    Rect(BoxStart(tx, w, p.w), BoxEnd(tx, w, p.w), BoxStart(ty, h, p.h), BoxEnd(ty, h, p.h))
  }

  lemma ThumbFits(w: nat, h: nat)
    requires w > 0 && h > 0
    ensures 0 < ThumbWidth(w) <= w && 0 < ThumbHeight(w, h) <= h
  {
    var tw := ThumbWidth(w);
    MulOrder(tw, w, h);
    assert h * tw <= w * h;
    DivBounds(h * tw, w);
    MulOrder(h * tw / w, h, w);
  }

  lemma BoxBounds(p: Plane, tx: nat, ty: nat)
    requires PlaneOk(p) && tx < ThumbWidth(p.w) && ty < ThumbHeight(p.w, p.h)
    ensures var w, h := ThumbWidth(p.w), ThumbHeight(p.w, p.h);
            && 0 < w <= p.w && 0 < h <= p.h
            && BoxStart(tx, w, p.w) < BoxEnd(tx, w, p.w) <= p.w
            && BoxStart(ty, h, p.h) < BoxEnd(ty, h, p.h) <= p.h
  {
    ThumbFits(p.w, p.h);
    BoxInside(tx, ThumbWidth(p.w), p.w);
    BoxInside(ty, ThumbHeight(p.w, p.h), p.h);
  }

  lemma BoxInside(t: nat, n: nat, len: nat)
    requires t < n <= len
    ensures BoxStart(t, n, len) < BoxEnd(t, n, len) <= len
  {
    BoxesAreTight(t, n, len);
    MulOrder(t + 1, n, len);
    assert (t + 1) * len <= n * len;
    DivBounds((t + 1) * len, n);
    MulOrder((t + 1) * len / n, len, n);
  }

  lemma CountTimes(a: int, x0: nat, x1: nat, y0: nat, y1: nat)
    requires x0 <= x1 && y0 <= y1
    ensures a * (x1 - x0) * (y1 - y0) == a * Count(x0, x1, y0, y1)
  {
  }

  lemma SumByCount(p: Plane, x0: nat, x1: nat, y0: nat, y1: nat, lo: nat, hi: nat)
    requires PlaneOk(p) && x0 <= x1 <= p.w && y0 <= y1 <= p.h
    requires LumaBetween(p, x0, x1, y0, y1, lo, hi)
    ensures lo * Count(x0, x1, y0, y1) <= BoxSum(p, x0, x1, y0, y1) <= hi * Count(x0, x1, y0, y1)
  {
    BoxSumBounds(p, x0, x1, y0, y1, lo, hi);
    CountTimes(lo, x0, x1, y0, y1);
    CountTimes(hi, x0, x1, y0, y1);
  }

  lemma MeanIsLuma(p: Plane, x0: nat, x1: nat, y0: nat, y1: nat, lo: nat, hi: nat)
    requires PlaneOk(p) && x0 < x1 <= p.w && y0 < y1 <= p.h
    requires LumaBetween(p, x0, x1, y0, y1, lo, hi)
    ensures Count(x0, x1, y0, y1) > 0
    ensures lo / 256 <= BoxSum(p, x0, x1, y0, y1) / (Count(x0, x1, y0, y1) * 256) <= hi / 256
  {
    SumByCount(p, x0, x1, y0, y1, lo, hi);
    CountPositive(x0, x1, y0, y1);
    MeanBetween(BoxSum(p, x0, x1, y0, y1), Count(x0, x1, y0, y1), lo, hi);
  }

  // A thumbnail pixel lies between the darkest and the brightest pixel under
  // its box.
  lemma MeanWithinBox(p: Plane, tx: nat, ty: nat, lo: nat, hi: nat)
    requires PlaneOk(p) && tx < ThumbWidth(p.w) && ty < ThumbHeight(p.w, p.h)
    requires forall x: nat, y: nat :: x < p.w && y < p.h
               && BoxOf(x, ThumbWidth(p.w), p.w) == tx && BoxOf(y, ThumbHeight(p.w, p.h), p.h) == ty
               ==> lo <= PixelLuma(p, x, y) <= hi
    ensures lo / 256 <= Mean(p, tx, ty) <= hi / 256
  {
    var r := RectOf(p, tx, ty);
    BoxBounds(p, tx, ty);
    forall x, y | r.x0 <= x < r.x1 && r.y0 <= y < r.y1 ensures lo <= PixelLuma(p, x, y) <= hi {
      BoxesPartition(x, ThumbWidth(p.w), p.w, tx);
      BoxesPartition(y, ThumbHeight(p.w, p.h), p.h, ty);
    }
    MeanIsLuma(p, r.x0, r.x1, r.y0, r.y1, lo, hi);
  }

  // -------------------------------------------------------------------------
  // The downsample as the program runs it
  // -------------------------------------------------------------------------

  method SumBox(p: Plane, x0: nat, x1: nat, y0: nat, y1: nat) returns (sum: nat)
    requires PlaneOk(p) && x0 < x1 <= p.w && y0 < y1 <= p.h
    ensures sum == BoxSum(p, x0, x1, y0, y1)
  {
    sum := 0;
    for y := y0 to y1
      invariant sum == BoxSum(p, x0, x1, y0, y)
    {
      PixelInPlane(p, 0, y);
      var row := p.data[y * p.stride..y * p.stride + p.w * 3];
      for x := x0 to x1
        invariant sum == BoxSum(p, x0, x1, y0, y) + RowSum(p, y, x0, x)
      {
        PixelInPlane(p, x, y);
        sum := sum + Luma256(row[3 * x], row[3 * x + 1], row[3 * x + 2]);
      }
    }
  }

  method FromRgb24(p: Plane) returns (thumb: Thumb)
    requires PlaneOk(p)
    ensures thumb.w == ThumbWidth(p.w) && thumb.h == ThumbHeight(p.w, p.h)
    ensures |thumb.pixels| == thumb.h * thumb.w
    ensures forall tx: nat, ty: nat :: tx < thumb.w && ty < thumb.h ==> PixelIs(thumb, tx, ty, Mean(p, tx, ty))
  {
    var w, h := ThumbWidth(p.w), ThumbHeight(p.w, p.h);
    var pixels: seq<byte> := [];
    for ty := 0 to h
      invariant RowsDone(p, pixels, ty, 0)
    {
      pixels := AppendRow(p, pixels, ty);
    }
    thumb := Thumb(w, h, pixels);
    forall tx: nat, ty: nat | tx < w && ty < h ensures PixelIs(thumb, tx, ty, Mean(p, tx, ty)) {
      DonePixel(p, pixels, tx, ty);
    }
  }

  predicate PixelIs(thumb: Thumb, tx: nat, ty: nat, v: byte) {
    ty * thumb.w + tx < |thumb.pixels| && thumb.pixels[ty * thumb.w + tx] == v
  }

  lemma DonePixel(p: Plane, pixels: seq<byte>, tx: nat, ty: nat)
    requires PlaneOk(p) && tx < ThumbWidth(p.w) && ty < ThumbHeight(p.w, p.h)
    requires RowsDone(p, pixels, ThumbHeight(p.w, p.h), 0)
    ensures PixelIs(Thumb(ThumbWidth(p.w), ThumbHeight(p.w, p.h), pixels), tx, ty, Mean(p, tx, ty))
  {
    var w, h := ThumbWidth(p.w), ThumbHeight(p.w, p.h);
    AtRow(tx, ty, w, h);
    assert w * ty == ty * w;
    DivModUnique(ty * w + tx, w, ty, tx);
    assert PixelDone(p, pixels, ty * w + tx);
  }

  method AppendRow(p: Plane, above: seq<byte>, ty: nat) returns (pixels: seq<byte>)
    requires PlaneOk(p) && ty < ThumbHeight(p.w, p.h) && RowsDone(p, above, ty, 0)
    ensures RowsDone(p, pixels, ty + 1, 0)
  {
    pixels := above;
    for tx := 0 to ThumbWidth(p.w)
      invariant RowsDone(p, pixels, ty, tx)
    {
      var r := RectOf(p, tx, ty);
      var sum := SumBox(p, r.x0, r.x1, r.y0, r.y1);
      CountPositive(r.x0, r.x1, r.y0, r.y1);
      var mean := sum / (Count(r.x0, r.x1, r.y0, r.y1) * 256);
      MeanIsLuma(p, r.x0, r.x1, r.y0, r.y1, 0, 255 * 256);
      NextPixel(p, pixels, ty, tx, mean);
      pixels := pixels + [mean];
    }
    NextRow(p, pixels, ty);
  }

  lemma AtRow(tx: nat, ty: nat, w: nat, h: nat)
    requires tx < w && ty < h
    ensures ty * w + tx < h * w
  {
    MulOrder(ty + 1, h, w);
    assert w * (ty + 1) == ty * w + w;
  }

  ghost predicate PixelDone(p: Plane, pixels: seq<byte>, k: nat)
    requires PlaneOk(p)
  {
    var w := ThumbWidth(p.w);
    var tx: int, ty: int := k % w, k / w;
    && k < |pixels| && 0 <= tx < w && 0 <= ty < ThumbHeight(p.w, p.h)
    && pixels[k] == Mean(p, tx, ty)
  }

  // The first `ty` rows and `tx` pixels of the next are in place.
  ghost predicate RowsDone(p: Plane, pixels: seq<byte>, ty: nat, tx: nat)
    requires PlaneOk(p)
  {
    && |pixels| == ty * ThumbWidth(p.w) + tx
    && forall k: nat {:trigger PixelDone(p, pixels, k)} :: k < ty * ThumbWidth(p.w) + tx ==> PixelDone(p, pixels, k)
  }

  lemma NextPixel(p: Plane, pixels: seq<byte>, ty: nat, tx: nat, mean: byte)
    requires PlaneOk(p) && tx < ThumbWidth(p.w) && ty < ThumbHeight(p.w, p.h)
    requires RowsDone(p, pixels, ty, tx) && mean == Mean(p, tx, ty)
    ensures RowsDone(p, pixels + [mean], ty, tx + 1)
  {
    var w := ThumbWidth(p.w);
    assert w * ty == ty * w;
    DivModUnique(ty * w + tx, w, ty, tx);
    forall k: nat | k < ty * w + (tx + 1) ensures PixelDone(p, pixels + [mean], k) {
      if k < |pixels| { assert PixelDone(p, pixels, k); }
    }
  }

  lemma NextRow(p: Plane, pixels: seq<byte>, ty: nat)
    requires PlaneOk(p) && RowsDone(p, pixels, ty, ThumbWidth(p.w))
    ensures RowsDone(p, pixels, ty + 1, 0)
    ensures (ty + 1) * ThumbWidth(p.w) == ty * ThumbWidth(p.w) + ThumbWidth(p.w)
  {
    assert (ty + 1) * ThumbWidth(p.w) == ty * ThumbWidth(p.w) + ThumbWidth(p.w);
  }

  // -------------------------------------------------------------------------
  // What is averaged
  // -------------------------------------------------------------------------

  // Within half a level of the weights BT.601 gives red, green and blue, and
  // exact on greys.
  lemma LumaIsBt601(r: byte, g: byte, b: byte)
    ensures var exact := 0.299 * r as real + 0.587 * g as real + 0.114 * b as real;
            -0.5 < Luma256(r, g, b) as real / 256.0 - exact < 0.5
    ensures r == g == b ==> Luma256(r, g, b) == 256 * r
  {
  }

  // A pixel is three bytes, red first, `stride` bytes below the one above it.
  lemma PixelIsRgb(p: Plane, x: nat, y: nat)
    requires PlaneOk(p) && x < p.w && y < p.h
    ensures 0 <= y * p.stride + 3 * x && y * p.stride + 3 * x + 2 < |p.data|
    ensures var at := y * p.stride + 3 * x;
            PixelLuma(p, x, y) == Luma256(p.data[at], p.data[at + 1], p.data[at + 2])
  {
    PixelInPlane(p, x, y);
  }

  // The sum over a box is the one pixel's luma for a box of one, nothing for an
  // empty one, and what its parts sum to wherever it is cut.
  lemma BoxOfOne(p: Plane, x: nat, y: nat)
    requires PlaneOk(p) && x < p.w && y < p.h
    ensures BoxSum(p, x, x + 1, y, y + 1) == PixelLuma(p, x, y)
  {
    assert RowSum(p, y, x, x) == 0;
  }

  lemma {:induction false} RowIsCut(p: Plane, y: nat, x0: nat, x: nat, x1: nat)
    requires PlaneOk(p) && y < p.h && x0 <= x <= x1 <= p.w
    ensures RowSum(p, y, x0, x1) == RowSum(p, y, x0, x) + RowSum(p, y, x, x1)
    decreases x1
  {
    if x < x1 { RowIsCut(p, y, x0, x, x1 - 1); }
  }

  lemma {:induction false} BoxIsCutAcross(p: Plane, x0: nat, x: nat, x1: nat, y0: nat, y1: nat)
    requires PlaneOk(p) && x0 <= x <= x1 <= p.w && y0 <= y1 <= p.h
    ensures BoxSum(p, x0, x1, y0, y1) == BoxSum(p, x0, x, y0, y1) + BoxSum(p, x, x1, y0, y1)
    decreases y1
  {
    if y0 < y1 {
      BoxIsCutAcross(p, x0, x, x1, y0, y1 - 1);
      RowIsCut(p, y1 - 1, x0, x, x1);
    }
  }

  lemma {:induction false} BoxIsCutDown(p: Plane, x0: nat, x1: nat, y0: nat, y: nat, y1: nat)
    requires PlaneOk(p) && x0 <= x1 <= p.w && y0 <= y <= y1 <= p.h
    ensures BoxSum(p, x0, x1, y0, y1) == BoxSum(p, x0, x1, y0, y) + BoxSum(p, x0, x1, y, y1)
    decreases y1
  {
    if y < y1 { BoxIsCutDown(p, x0, x1, y0, y, y1 - 1); }
  }

  // A thumbnail pixel is the mean of its box, in whole levels rounded down.
  lemma MeanIsFloor(p: Plane, tx: nat, ty: nat)
    requires PlaneOk(p) && tx < ThumbWidth(p.w) && ty < ThumbHeight(p.w, p.h)
    ensures var r := RectOf(p, tx, ty);
            var levels := (r.x1 - r.x0) * (r.y1 - r.y0) * 256;
            Mean(p, tx, ty) * levels <= BoxSum(p, r.x0, r.x1, r.y0, r.y1) < (Mean(p, tx, ty) + 1) * levels
  {
    var r := RectOf(p, tx, ty);
    var d := Count(r.x0, r.x1, r.y0, r.y1) * 256;
    CountPositive(r.x0, r.x1, r.y0, r.y1);
    DivBounds(BoxSum(p, r.x0, r.x1, r.y0, r.y1), d);
    assert d == (r.x1 - r.x0) * (r.y1 - r.y0) * 256;
    Succeeds(Mean(p, tx, ty), d);
  }

  lemma Succeeds(m: int, d: int)
    ensures (m + 1) * d == d * m + d && m * d == d * m
  {
  }

  // The box of a column and row is the pixels that fall in them.
  lemma RectIsBoxes(p: Plane, tx: nat, ty: nat, x: nat, y: nat)
    requires PlaneOk(p) && tx < ThumbWidth(p.w) && ty < ThumbHeight(p.w, p.h) && x < p.w && y < p.h
    ensures var r := RectOf(p, tx, ty);
            && (r.x0 <= x < r.x1 <==> tx == BoxOf(x, ThumbWidth(p.w), p.w))
            && (r.y0 <= y < r.y1 <==> ty == BoxOf(y, ThumbHeight(p.w, p.h), p.h))
  {
    ThumbFits(p.w, p.h);
    BoxesPartition(x, ThumbWidth(p.w), p.w, tx);
    BoxesPartition(y, ThumbHeight(p.w, p.h), p.h, ty);
  }

  // The thumbnail is as wide as the content up to 96 pixels, and keeps its shape,
  // rounded down to whole rows but at least one.
  lemma ThumbKeepsShape(w: nat, h: nat)
    requires w > 0 && h > 0
    ensures ThumbWidth(w) == if w < 96 then w else 96
    ensures var tw, th := ThumbWidth(w), ThumbHeight(w, h);
            if h * tw < w then th == 1 else th * w <= h * tw < (th + 1) * w
  {
    WholeOrOne(h * ThumbWidth(w), w);
  }

  lemma WholeOrOne(a: nat, w: nat)
    requires w > 0
    ensures var q := Max(a / w, 1);
            if a < w then q == 1 else q * w <= a < (q + 1) * w
  {
    DivBounds(a, w);
    Succeeds(a / w, w);
    if a >= w { MulOrder(1, a / w, w); }
  }

  // -------------------------------------------------------------------------
  // The 32-bit sum
  // -------------------------------------------------------------------------

  // The pixels under one thumbnail pixel of content `w` by `h`.
  function BoxArea(w: nat, h: nat, tx: nat, ty: nat): nat {
    var tw, th := ThumbWidth(w), ThumbHeight(w, h);
    Count(BoxStart(tx, tw, w), BoxEnd(tx, tw, w), BoxStart(ty, th, h), BoxEnd(ty, th, h))
  }

  function SumAt(p: Plane, tx: nat, ty: nat): nat
    requires PlaneOk(p) && tx < ThumbWidth(p.w) && ty < ThumbHeight(p.w, p.h)
  {
    var r := RectOf(p, tx, ty);
    BoxSum(p, r.x0, r.x1, r.y0, r.y1)
  }

  lemma SumAtMost(p: Plane, tx: nat, ty: nat)
    requires PlaneOk(p) && tx < ThumbWidth(p.w) && ty < ThumbHeight(p.w, p.h)
    ensures SumAt(p, tx, ty) <= 255 * 256 * BoxArea(p.w, p.h, tx, ty)
  {
    var r := RectOf(p, tx, ty);
    SumByCount(p, r.x0, r.x1, r.y0, r.y1, 0, 255 * 256);
  }

  // The all-white picture.
  function White(w: nat, h: nat): (p: Plane)
    requires w > 0 && h > 0
    ensures PlaneOk(p) && p.w == w && p.h == h
    ensures forall i :: 0 <= i < |p.data| ==> p.data[i] == 255
  {
    Plane(seq(3 * w * h, _ => 255), 3 * w, w, h)
  }

  lemma WhiteLuma(w: nat, h: nat, x: nat, y: nat)
    requires x < w && y < h
    ensures PixelLuma(White(w, h), x, y) == 255 * 256
  {
    PixelInPlane(White(w, h), x, y);
  }

  lemma WhiteSum(w: nat, h: nat, tx: nat, ty: nat)
    requires w > 0 && h > 0 && tx < ThumbWidth(w) && ty < ThumbHeight(w, h)
    ensures SumAt(White(w, h), tx, ty) == 255 * 256 * BoxArea(w, h, tx, ty)
  {
    var p := White(w, h);
    var r := RectOf(p, tx, ty);
    forall x, y | 0 <= x < w && 0 <= y < h ensures PixelLuma(p, x, y) == 255 * 256 { WhiteLuma(w, h, x, y); }
    SumByCount(p, r.x0, r.x1, r.y0, r.y1, 255 * 256, 255 * 256);
  }

  // No picture of this size makes the sum of this box leave 32 bits, exactly
  // when the box covers at most 65 793 pixels; the white one does otherwise.
  lemma SumFitsIff(w: nat, h: nat, tx: nat, ty: nat)
    requires w > 0 && h > 0 && tx < ThumbWidth(w) && ty < ThumbHeight(w, h)
    ensures (forall p :: PlaneOk(p) && p.w == w && p.h == h ==> SumAt(p, tx, ty) <= U32_MAX)
       <==> BoxArea(w, h, tx, ty) <= 65_793
  {
    forall p | PlaneOk(p) && p.w == w && p.h == h ensures SumAt(p, tx, ty) <= 255 * 256 * BoxArea(w, h, tx, ty) {
      SumAtMost(p, tx, ty);
    }
    WhiteSum(w, h, tx, ty);
  }

  // Content up to 16 384 pixels wide, of any height, never has such a box.
  lemma SumFitsUpTo16384(p: Plane, tx: nat, ty: nat)
    requires PlaneOk(p) && p.w <= 16_384
    requires tx < ThumbWidth(p.w) && ty < ThumbHeight(p.w, p.h)
    ensures SumAt(p, tx, ty) <= U32_MAX && BoxArea(p.w, p.h, tx, ty) * 256 <= U32_MAX
  {
    NarrowBoxes(p.w, p.h, tx, ty);
    SumFitsIff(p.w, p.h, tx, ty);
  }

  lemma NarrowBoxes(w: nat, h: nat, tx: nat, ty: nat)
    requires 0 < w <= 16_384 && h > 0 && tx < ThumbWidth(w) && ty < ThumbHeight(w, h)
    ensures BoxArea(w, h, tx, ty) <= 342 * 171
  {
    var tw, th := ThumbWidth(w), ThumbHeight(w, h);
    ThumbFits(w, h);
    BoxWidth(tx, tw, w);
    BoxWidth(ty, th, h);
    ColumnBound(w);
    RowBound(w, h);
    CountBound(BoxStart(tx, tw, w), BoxEnd(tx, tw, w), BoxStart(ty, th, h), BoxEnd(ty, th, h));
  }

  lemma CountBound(x0: nat, x1: nat, y0: nat, y1: nat)
    requires x0 <= x1 <= x0 + 171 && y0 <= y1 <= y0 + 342
    ensures Count(x0, x1, y0, y1) <= 342 * 171
  {
    MulOrder(x1 - x0, 171, 342);
    assert Count(x0, x1, y0, y1) <= 342 * (x1 - x0) by { if x1 > x0 { MulOrder(y1 - y0, 342, x1 - x0); } }
  }

  lemma BoxWidth(t: nat, n: nat, len: nat)
    requires t < n <= len
    ensures BoxEnd(t, n, len) - BoxStart(t, n, len) <= len / n + 1
  {
    BoxesAreTight(t, n, len);
    var s, e, q := t * len / n, (t + 1) * len / n, len / n;
    DivBounds(t * len, n);
    DivBounds((t + 1) * len, n);
    DivBounds(len, n);
    assert (t + 1) * len == t * len + len;
    assert n * (s + q + 1) == n * s + n * q + n;
    MulOrder(e, s + q + 1, n);
  }

  lemma ColumnBound(w: nat)
    requires 0 < w <= 16_384
    ensures w / ThumbWidth(w) <= 170
  {
  }

  lemma RowBound(w: nat, h: nat)
    requires 0 < w <= 16_384 && h > 0
    ensures h / ThumbHeight(w, h) <= 341
  {
    var tw := ThumbWidth(w);
    var th := ThumbHeight(w, h);
    ThumbFits(w, h);
    DivBounds(h * tw, w);
    DivBounds(h, th);
    if w <= 96 {
      assert tw == w;
      DivModUnique(h * w, w, h, 0);
      assert th == h;
      DivModUnique(h, h, 1, 0);
    } else {
      assert tw == 96;
      // th >= h * 96 / w, and h * 96 < w * (th + 1) <= 2 * w * th.
      assert h * 96 < w * (h * 96 / w) + w;
      MulOrder(h * 96 / w, th, w);
      assert w * th + w <= 2 * (w * th) by { MulOrder(1, th, w); }
      MulOrder(w, 16_384, th);
      assert h * 96 < 2 * 16_384 * th;
      MulOrder(h / th, 341, th);
      assert th * 342 > h;
    }
  }
}
