/**
 The per-tensor affine of an 8-bit quantized edge: quantize on the way in,
 dequantize on the way out. Values are reals, not 32-bit floats.
 */
module QdqCodes {
  import opened Common

  datatype Elem = Float | UInt8 | OtherElem

  datatype Tensor = Tensor(elem: Elem, shape: seq<nat>, vals: seq<real>)

  datatype Qparams = Qparams(scale: real, zeroPoint: int)

  // -------------------------------------------------------------------------
  // Rounding half to even
  // -------------------------------------------------------------------------

  function Rint(x: real): (n: int)
    ensures Abs(x - n as real) <= 0.5
    ensures Abs(x - n as real) == 0.5 ==> n % 2 == 0
  {
    var f := x.Floor;
    var d := x - f as real;
    if d < 0.5 || (d == 0.5 && f % 2 == 0) then f else f + 1
  }

  // Nearest, ties to even, is one integer and no other.
  lemma RintUnique(x: real, n: int)
    requires Abs(x - n as real) <= 0.5 && (Abs(x - n as real) == 0.5 ==> n % 2 == 0)
    ensures n == Rint(x)
  {
    var r := Rint(x);
    assert -1.0 <= n as real - r as real <= 1.0;
  }

  lemma RintMonotone(x: real, y: real)
    requires x <= y
    ensures Rint(x) <= Rint(y)
  {
  }

  // -------------------------------------------------------------------------
  // One value
  // -------------------------------------------------------------------------

  function CodeOf(x: real, q: Qparams): (c: int)
    requires q.scale > 0.0
    ensures 0 <= c <= 255
  {
    Max(0, Min(Rint(x / q.scale) + q.zeroPoint, 255))
  }

  function ValueOf(c: real, q: Qparams): real { (c - q.zeroPoint as real) * q.scale }

  // The zero point stands for zero, and each code for one scale step more than
  // the one before it.
  lemma CodesAreSteps(c: real, q: Qparams)
    ensures ValueOf(q.zeroPoint as real, q) == 0.0
    ensures ValueOf(c + 1.0, q) - ValueOf(c, q) == q.scale
  {
    assert (c + 1.0 - q.zeroPoint as real) * q.scale == (c - q.zeroPoint as real) * q.scale + q.scale;
  }

  // A code survives the trip to its value and back.
  lemma CodeRoundTrip(c: int, q: Qparams)
    requires q.scale > 0.0 && 0 <= c <= 255
    ensures CodeOf(ValueOf(c as real, q), q) == c
  {
    var k := c - q.zeroPoint;
    Unscale(k as real, q.scale);
    assert ValueOf(c as real, q) == k as real * q.scale;
    RintUnique(k as real, k);
  }

  lemma Unscale(x: real, s: real)
    requires s > 0.0
    ensures x * s / s == x
  {
  }

  // A value against a whole number of steps.
  lemma RintAgainst(x: real, n: int, s: real)
    requires s > 0.0
    ensures x <= n as real * s ==> Rint(x / s) <= n
    ensures x >= n as real * s ==> Rint(x / s) >= n
  {
    var y := x / s;
    assert y * s == x;
    RintUnique(n as real, n);
    if x <= n as real * s {
      ScaleOrder(y, n as real, s);
      RintMonotone(y, n as real);
    }
    if x >= n as real * s {
      ScaleOrder(n as real, y, s);
      RintMonotone(n as real, y);
    }
  }

  lemma ScaleOrder(a: real, b: real, s: real)
    requires s > 0.0 && a * s <= b * s
    ensures a <= b
  {
    assert (b - a) * s >= 0.0;
  }

  // What the two ends of the code range stand for.
  lemma RangeEnds(q: Qparams)
    ensures ValueOf(0.0, q) == (0 - q.zeroPoint) as real * q.scale
    ensures ValueOf(255.0, q) == (255 - q.zeroPoint) as real * q.scale
  {
  }

  // Anything below or above the range saturates.
  lemma Saturates(x: real, q: Qparams)
    requires q.scale > 0.0
    ensures x <= ValueOf(0.0, q) ==> CodeOf(x, q) == 0
    ensures x >= ValueOf(255.0, q) ==> CodeOf(x, q) == 255
  {
    RangeEnds(q);
    RintAgainst(x, 0 - q.zeroPoint, q.scale);
    RintAgainst(x, 255 - q.zeroPoint, q.scale);
  }

  // A value in the representable range survives to within half a step.
  lemma ValueRoundTrip(x: real, q: Qparams)
    requires q.scale > 0.0 && ValueOf(0.0, q) <= x <= ValueOf(255.0, q)
    ensures Abs(ValueOf(CodeOf(x, q) as real, q) - x) <= q.scale / 2.0
  {
    var n := Rint(x / q.scale);
    RangeEnds(q);
    RintAgainst(x, 0 - q.zeroPoint, q.scale);
    RintAgainst(x, 255 - q.zeroPoint, q.scale);
    NearestStep(x, q.scale);
    CodeWithin(n, x, q);
  }

  lemma CodeWithin(n: int, x: real, q: Qparams)
    requires q.scale > 0.0 && n == Rint(x / q.scale) && 0 <= n + q.zeroPoint <= 255
    ensures ValueOf(CodeOf(x, q) as real, q) == n as real * q.scale
  {
    assert CodeOf(x, q) as real - q.zeroPoint as real == n as real;
  }

  lemma NearestStep(x: real, s: real)
    requires s > 0.0
    ensures Abs(Rint(x / s) as real * s - x) <= s / 2.0
  {
    NearestMultiple(x, x / s, Rint(x / s) as real, s);
  }

  lemma NearestMultiple(x: real, y: real, n: real, s: real)
    requires s > 0.0 && x == y * s && -0.5 <= n - y <= 0.5
    ensures -(s / 2.0) <= n * s - x <= s / 2.0
  {
    ProductNonNegative(0.5 - (n - y), s);
    ProductNonNegative(n - y + 0.5, s);
    assert (0.5 - (n - y)) * s == s / 2.0 - n * s + y * s;
    assert (n - y + 0.5) * s == n * s - y * s + s / 2.0;
  }

  // -------------------------------------------------------------------------
  // Whole tensors
  // -------------------------------------------------------------------------

  function Quantize(t: Tensor, q: Qparams): (r: Tensor)
    requires q.scale > 0.0
    ensures r.elem == UInt8 && r.shape == t.shape && |r.vals| == |t.vals|
  {
    Tensor(UInt8, t.shape, seq(|t.vals|, i requires 0 <= i < |t.vals| => CodeOf(t.vals[i], q) as real))
  }

  function Dequantize(t: Tensor, q: Qparams): (r: Tensor)
    ensures r.elem == Float && r.shape == t.shape && |r.vals| == |t.vals|
  {
    Tensor(Float, t.shape, seq(|t.vals|, i requires 0 <= i < |t.vals| => ValueOf(t.vals[i], q)))
  }

  ghost predicate HoldsCodes(t: Tensor) {
    t.elem == UInt8 && forall i :: 0 <= i < |t.vals| ==>
      0 <= t.vals[i].Floor <= 255 && t.vals[i] == t.vals[i].Floor as real
  }

  // Codes the host reads back as values would be quantized to the same codes.
  lemma TensorRoundTrip(t: Tensor, q: Qparams)
    requires q.scale > 0.0 && HoldsCodes(t)
    ensures Quantize(Dequantize(t, q), q) == t
  {
    var r := Quantize(Dequantize(t, q), q);
    forall i | 0 <= i < |t.vals| ensures r.vals[i] == t.vals[i] {
      CodeRoundTrip(t.vals[i].Floor, q);
    }
    assert r.vals == t.vals;
  }

  lemma QuantizeHoldsCodes(t: Tensor, q: Qparams)
    requires q.scale > 0.0
    ensures HoldsCodes(Quantize(t, q))
  {
  }

  // Whatever the tensor, quantizing once is enough: reading the codes back and
  // quantizing again gives the same codes.
  lemma QuantizeIsStable(t: Tensor, q: Qparams)
    requires q.scale > 0.0
    ensures Quantize(Dequantize(Quantize(t, q), q), q) == Quantize(t, q)
  {
    QuantizeHoldsCodes(t, q);
    TensorRoundTrip(Quantize(t, q), q);
  }

  // A choice of elements: the result's shape, and which element of the source
  // each of its elements is.
  datatype Selection = Selection(shape: seq<nat>, picks: seq<nat>)

  function Selected(p: Selection, t: Tensor): Tensor {
    Tensor(t.elem, p.shape,
           if forall i :: 0 <= i < |p.picks| ==> p.picks[i] < |t.vals|
           then seq(|p.picks|, i requires 0 <= i < |p.picks| => t.vals[p.picks[i]]) else [])
  }

  // Selecting elements commutes with a per-tensor affine.
  lemma SelectionCommutes(p: Selection, t: Tensor, q: Qparams)
    requires q.scale > 0.0
    ensures Selected(p, Quantize(t, q)) == Quantize(Selected(p, t), q)
  {
    assert Selected(p, Quantize(t, q)).vals == Quantize(Selected(p, t), q).vals;
  }
}
