/**
 The Annex B byte stream (ITU-T H.264, Annex B, section B.1) as the decoder
 reads and writes it: the NAL scanner, the parameter-set search that feeds the
 hardware probe, and the extradata it prints from a pair.
 */
module AnnexB {
  import opened Common

  const SPS: nat := 7
  const PPS: nat := 8
  const IDR: nat := 5

  predicate StartCodeAt(d: seq<byte>, i: int) {
    0 <= i && i + 2 < |d| && d[i] == 0 && d[i + 1] == 0 && d[i + 2] == 1
  }

  predicate NoStartCode(d: seq<byte>, lo: int, hi: int) {
    forall j :: lo <= j < hi ==> !StartCodeAt(d, j)
  }

  // -------------------------------------------------------------------------
  // The scan as a function
  // -------------------------------------------------------------------------

  // One NAL unit's payload, as a half-open range of the buffer.
  datatype Span = Span(start: nat, end: nat)

  // The first start code at or after `i`, or the end of the buffer.
  function NextCode(d: seq<byte>, i: nat): (r: nat)
    requires i <= |d|
    ensures i <= r <= |d|
    ensures r < |d| ==> StartCodeAt(d, r)
    ensures NoStartCode(d, i, r)
    decreases |d| - i
  {
    if i + 2 >= |d| then |d| else if StartCodeAt(d, i) then i else NextCode(d, i + 1)
  }

  // `hi` with the zero bytes before it dropped, down to `lo`.
  function Trim(d: seq<byte>, lo: nat, hi: nat): (r: nat)
    requires lo <= hi <= |d|
    ensures lo <= r <= hi
    ensures r == lo || d[r - 1] != 0
    ensures forall k :: r <= k < hi ==> d[k] == 0
    decreases hi
  {
    if hi > lo && d[hi - 1] == 0 then Trim(d, lo, hi - 1) else hi
  }

  function SpansFrom(d: seq<byte>, i: nat): (spans: seq<Span>)
    requires i <= |d|
    ensures forall k :: 0 <= k < |spans| ==> i + 3 <= spans[k].start <= spans[k].end <= |d|
    decreases |d| - i
  {
    var code := NextCode(d, i);
    if code == |d| then []
    else
      var next := NextCode(d, code + 3);
      [Span(code + 3, Trim(d, code + 3, next))] + SpansFrom(d, next)
  }

  function Spans(d: seq<byte>): seq<Span> { SpansFrom(d, 0) }

  function Payloads(d: seq<byte>, spans: seq<Span>): (nals: seq<seq<byte>>)
    requires forall k :: 0 <= k < |spans| ==> spans[k].start <= spans[k].end <= |d|
    ensures |nals| == |spans|
  {
    seq(|spans|, k requires 0 <= k < |spans| => Slice(d, spans[k]))
  }

  function Slice(d: seq<byte>, span: Span): seq<byte>
    requires span.start <= span.end <= |d|
  {
    d[span.start..span.end]
  }

  function Nals(d: seq<byte>): seq<seq<byte>> { Payloads(d, Spans(d)) }

  // -------------------------------------------------------------------------
  // The scan as the program runs it: one pass for the start codes, one to trim
  // -------------------------------------------------------------------------

  function StartsFrom(d: seq<byte>, i: nat): seq<nat>
    decreases |d| - i
  {
    if i + 2 >= |d| then []
    else if StartCodeAt(d, i) then [i + 3] + StartsFrom(d, i + 3)
    else StartsFrom(d, i + 1)
  }

  lemma {:induction false} StartsSkipClean(d: seq<byte>, i: nat, j: nat)
    requires i <= j <= |d| && NoStartCode(d, i, j)
    ensures StartsFrom(d, i) == StartsFrom(d, j)
    decreases j - i
  {
    if i < j {
      StartsSkipClean(d, i + 1, j);
    }
  }

  // Where the n-th payload stops before trimming.
  function RawEnd(d: seq<byte>, starts: seq<nat>, n: nat): int
    requires n < |starts|
  {
    if n + 1 < |starts| then starts[n + 1] - 3 else |d|
  }

  predicate SpanOfStart(d: seq<byte>, starts: seq<nat>, n: nat, span: Span)
    requires n < |starts|
  {
    && starts[n] <= RawEnd(d, starts, n) <= |d|
    && span == Span(starts[n], Trim(d, starts[n], RawEnd(d, starts, n)))
  }

  ghost predicate SpansOfStarts(d: seq<byte>, starts: seq<nat>, spans: seq<Span>) {
    && |starts| == |spans|
    && forall n :: 0 <= n < |starts| ==> SpanOfStart(d, starts, n, spans[n])
  }

  lemma OneMoreStart(d: seq<byte>, start: nat, end: nat, starts: seq<nat>, spans: seq<Span>)
    requires SpansOfStarts(d, starts, spans)
    requires start <= end <= |d| && if starts == [] then end == |d| else starts[0] == end + 3
    ensures SpansOfStarts(d, [start] + starts, [Span(start, Trim(d, start, end))] + spans)
  {
    var more, all := [start] + starts, [Span(start, Trim(d, start, end))] + spans;
    forall n | 0 <= n < |more| ensures SpanOfStart(d, more, n, all[n]) {
      if n > 0 {
        var m := n - 1;
        assert SpanOfStart(d, starts, m, spans[m]);
        assert RawEnd(d, more, n) == RawEnd(d, starts, m);
      }
    }
  }

  lemma {:induction false} StartsAreSpans(d: seq<byte>, i: nat)
    requires i <= |d|
    ensures SpansOfStarts(d, StartsFrom(d, i), SpansFrom(d, i))
    ensures if StartsFrom(d, i) == [] then NextCode(d, i) == |d| else StartsFrom(d, i)[0] == NextCode(d, i) + 3
    decreases |d| - i
  {
    var code := NextCode(d, i);
    StartsSkipClean(d, i, code);
    if code < |d| {
      var next := NextCode(d, code + 3);
      StartsSkipClean(d, code + 3, next);
      StartsAreSpans(d, next);
      NextCodeStops(d, next);
      OneMoreStart(d, code + 3, next, StartsFrom(d, next), SpansFrom(d, next));
      assert StartsFrom(d, code) == [code + 3] + StartsFrom(d, next);
    }
  }

  lemma NextCodeStops(d: seq<byte>, code: nat)
    requires code <= |d| && (code < |d| ==> StartCodeAt(d, code))
    ensures NextCode(d, code) == code
  {
  }

  method StartCodes(data: seq<byte>) returns (starts: seq<nat>)
    ensures starts == StartsFrom(data, 0)
  {
    starts := [];
    var i := 0;
    while i + 2 < |data|
      invariant 0 <= i
      invariant starts + StartsFrom(data, i) == StartsFrom(data, 0)
    {
      if data[i] == 0 && data[i + 1] == 0 && data[i + 2] == 1 {
        ghost var tail := StartsFrom(data, i + 3);
        assert StartsFrom(data, i) == [i + 3] + tail;
        assert starts + ([i + 3] + tail) == (starts + [i + 3]) + tail;
        starts := starts + [i + 3];
        i := i + 3;
      } else {
        i := i + 1;
      }
    }
    assert starts + [] == starts;
  }

  method TrimZeros(data: seq<byte>, start: nat, raw: nat) returns (end: nat)
    requires start <= raw <= |data|
    ensures end == Trim(data, start, raw)
  {
    end := raw;
    while end > start && data[end - 1] == 0
      invariant start <= end <= raw
      invariant Trim(data, start, end) == Trim(data, start, raw)
    {
      end := end - 1;
    }
  }

  lemma NalOfStart(data: seq<byte>, starts: seq<nat>, n: nat)
    requires starts == StartsFrom(data, 0) && n < |starts|
    ensures |Nals(data)| == |starts|
    ensures starts[n] <= RawEnd(data, starts, n) <= |data|
    ensures Nals(data)[n] == data[starts[n]..Trim(data, starts[n], RawEnd(data, starts, n))]
  {
    StartsAreSpans(data, 0);
    assert SpanOfStart(data, starts, n, Spans(data)[n]);
  }

  method AnnexbNals(data: seq<byte>) returns (nals: seq<seq<byte>>)
    ensures nals == Nals(data)
  {
    var starts := StartCodes(data);
    nals := [];
    ghost var all := Nals(data);
    assert |all| == |starts| by { StartsAreSpans(data, 0); }
    for n := 0 to |starts|
      invariant |nals| == n
      invariant forall k :: 0 <= k < n ==> nals[k] == all[k]
    {
      NalOfStart(data, starts, n);
      var raw := if n + 1 < |starts| then starts[n + 1] - 3 else |data|;
      var end := TrimZeros(data, starts[n], raw);
      nals := nals + [data[starts[n]..end]];
    }
  }

  // -------------------------------------------------------------------------
  // What the scan means, whatever the bytes
  // -------------------------------------------------------------------------

  // One range of a scan: it follows a start code, does not end in padding,
  // and nothing but padding separates it from the next start code.
  ghost predicate SpanIn(d: seq<byte>, spans: seq<Span>, k: nat)
    requires k < |spans|
  {
    var next := if k + 1 < |spans| then spans[k + 1].start - 3 else |d|;
    && 3 <= spans[k].start <= spans[k].end <= next <= |d|
    && StartCodeAt(d, spans[k].start - 3)
    && (spans[k].start == spans[k].end || d[spans[k].end - 1] != 0)
    && forall j :: spans[k].end <= j < next ==> d[j] == 0
  }

  ghost predicate Listed(spans: seq<Span>, start: int) {
    exists k :: 0 <= k < |spans| && spans[k].start == start
  }

  // The ranges are exactly the gaps between start codes, in order, with the
  // zero padding before the next start code left out.
  ghost predicate IsScan(d: seq<byte>, spans: seq<Span>) {
    && (forall k {:trigger SpanIn(d, spans, k)} :: 0 <= k < |spans| ==> SpanIn(d, spans, k))
    && (forall p {:trigger StartCodeAt(d, p)} :: StartCodeAt(d, p) ==> Listed(spans, p + 3))
  }

  ghost predicate AllSpansIn(d: seq<byte>, spans: seq<Span>) {
    forall k {:trigger SpanIn(d, spans, k)} :: 0 <= k < |spans| ==> SpanIn(d, spans, k)
  }

  lemma {:induction false} SpansFromSound(d: seq<byte>, i: nat)
    requires i <= |d|
    ensures AllSpansIn(d, SpansFrom(d, i))
    ensures |SpansFrom(d, i)| > 0 ==> SpansFrom(d, i)[0].start == NextCode(d, i) + 3
    ensures |SpansFrom(d, i)| == 0 ==> NextCode(d, i) == |d|
    decreases |d| - i
  {
    var code := NextCode(d, i);
    if code < |d| {
      var next := NextCode(d, code + 3);
      SpansFromSound(d, next);
      NextCodeStops(d, next);
      OneMoreSpan(d, code, next, SpansFrom(d, next));
    }
  }

  lemma OneMoreSpan(d: seq<byte>, code: nat, next: nat, rest: seq<Span>)
    requires code < |d| && StartCodeAt(d, code) && next == NextCode(d, code + 3) && AllSpansIn(d, rest)
    requires next == if rest == [] then |d| else rest[0].start - 3
    ensures AllSpansIn(d, [Span(code + 3, Trim(d, code + 3, next))] + rest)
  {
    var first := Span(code + 3, Trim(d, code + 3, next));
    SpanInHead(d, code, rest);
    forall k | 1 <= k <= |rest| ensures SpanIn(d, [first] + rest, k) {
      var m := k - 1;
      assert SpanIn(d, rest, m);
      SpanInCons(d, first, rest, k);
    }
  }

  lemma SpanInHead(d: seq<byte>, code: nat, rest: seq<Span>)
    requires code < |d| && StartCodeAt(d, code)
    requires (if rest == [] then |d| else rest[0].start - 3) == NextCode(d, code + 3)
    ensures SpanIn(d, [Span(code + 3, Trim(d, code + 3, NextCode(d, code + 3)))] + rest, 0)
  {
  }

  lemma SpanInCons(d: seq<byte>, first: Span, rest: seq<Span>, k: nat)
    requires 0 < k <= |rest| && SpanIn(d, rest, k - 1)
    ensures SpanIn(d, [first] + rest, k)
  {
  }

  lemma {:induction false} SpansFromComplete(d: seq<byte>, i: nat, p: int)
    requires i <= |d| && i <= p && StartCodeAt(d, p)
    ensures Listed(SpansFrom(d, i), p + 3)
    decreases |d| - i
  {
    var code := NextCode(d, i);
    var spans := SpansFrom(d, i);
    if p == code {
      assert spans[0].start == p + 3;
    } else {
      var next := NextCode(d, code + 3);
      assert StartCodeAt(d, code);
      SpansFromComplete(d, next, p);
      var k :| 0 <= k < |SpansFrom(d, next)| && SpansFrom(d, next)[k].start == p + 3;
      assert spans[k + 1].start == p + 3;
    }
  }

  lemma SpansIsScan(d: seq<byte>)
    ensures IsScan(d, Spans(d))
  {
    SpansFromSound(d, 0);
    forall p | StartCodeAt(d, p) ensures Listed(Spans(d), p + 3) {
      SpansFromComplete(d, 0, p);
    }
  }

  // The ranges are disjoint and in order, a start code apart.
  lemma {:induction false} ScanOrdered(d: seq<byte>, spans: seq<Span>, a: nat, b: nat)
    requires IsScan(d, spans) && a < b < |spans|
    ensures spans[a].start <= spans[a].end && spans[a].end + 3 <= spans[b].start
    decreases b
  {
    assert SpanIn(d, spans, b - 1) && SpanIn(d, spans, b);
    if a < b - 1 { ScanOrdered(d, spans, a, b - 1); }
  }

  // A payload range of a scan holds no start code.
  lemma ScanSpansClean(d: seq<byte>, spans: seq<Span>, k: nat, j: int)
    requires IsScan(d, spans) && k < |spans|
    requires spans[k].start <= j && j + 3 <= spans[k].end
    ensures !StartCodeAt(d, j)
  {
    if StartCodeAt(d, j) {
      assert Listed(spans, j + 3);
      var m :| 0 <= m < |spans| && spans[m].start == j + 3;
      assert SpanIn(d, spans, m) && SpanIn(d, spans, k);
      if m < k { ScanOrdered(d, spans, m, k); }
      if k < m { ScanOrdered(d, spans, k, m); }
    }
  }

  // There is only one scan: the declarative reading and the program agree.
  lemma ScanUnique(d: seq<byte>, spans: seq<Span>)
    ensures IsScan(d, spans) <==> spans == Spans(d)
  {
    SpansIsScan(d);
    if IsScan(d, spans) {
      var other := Spans(d);
      var n := Min(|spans|, |other|);
      ScansAgree(d, spans, other, n);
      ScanNotShorter(d, spans, other);
      ScanNotShorter(d, other, spans);
      forall k | 0 <= k < |spans| ensures spans[k] == other[k] {
        assert SpanIn(d, spans, k) && SpanIn(d, other, k);
        SameStart(spans, other, n, k);
        if k + 1 < n { SameStart(spans, other, n, k + 1); }
      }
    }
  }

  ghost predicate SameStarts(a: seq<Span>, b: seq<Span>, n: nat)
    requires n <= |a| && n <= |b|
  {
    forall k :: 0 <= k < n ==> a[k].start == b[k].start
  }

  lemma SameStart(a: seq<Span>, b: seq<Span>, n: nat, k: nat)
    requires n <= |a| && n <= |b| && SameStarts(a, b, n) && k < n
    ensures a[k].start == b[k].start
  {
  }

  // Two scans list the same start codes.
  lemma {:induction false} ScansAgree(d: seq<byte>, a: seq<Span>, b: seq<Span>, n: nat)
    requires IsScan(d, a) && IsScan(d, b) && n <= |a| && n <= |b|
    ensures SameStarts(a, b, n)
  {
    if n > 0 {
      ScansAgree(d, a, b, n - 1);
      StartNotEarlier(d, a, b, n - 1);
      StartNotEarlier(d, b, a, n - 1);
    }
  }

  lemma StartNotEarlier(d: seq<byte>, a: seq<Span>, b: seq<Span>, n: nat)
    requires IsScan(d, a) && IsScan(d, b) && n < |a| && n < |b|
    requires SameStarts(a, b, n)
    ensures b[n].start <= a[n].start
  {
    assert SpanIn(d, a, n);
    assert Listed(b, a[n].start - 3 + 3);
    var m :| 0 <= m < |b| && b[m].start == a[n].start - 3 + 3;
    if m < n {
      ScanOrdered(d, a, m, n);
    } else if n < m {
      ScanOrdered(d, b, n, m);
    }
  }

  lemma ScanNotShorter(d: seq<byte>, a: seq<Span>, b: seq<Span>)
    requires IsScan(d, a) && IsScan(d, b)
    requires SameStarts(a, b, Min(|a|, |b|))
    ensures |b| <= |a|
  {
    if |a| < |b| {
      assert SpanIn(d, b, |a|);
      assert Listed(a, b[|a|].start - 3 + 3);
      var m :| 0 <= m < |a| && a[m].start == b[|a|].start - 3 + 3;
      ScanOrdered(d, b, m, |a|);
    }
  }

  // -------------------------------------------------------------------------
  // Printing, and what scans back
  // -------------------------------------------------------------------------

  // A NAL unit on the wire: behind a four-byte or a three-byte start code.
  datatype Unit = Unit(long: bool, payload: seq<byte>)

  function StartCode(long: bool): seq<byte> { if long then [0, 0, 0, 1] else [0, 0, 1] }

  function Print(units: seq<Unit>): seq<byte> {
    if units == [] then [] else StartCode(units[0].long) + units[0].payload + Print(units[1..])
  }

  function PayloadsOf(units: seq<Unit>): (r: seq<seq<byte>>)
    ensures |r| == |units|
  {
    seq(|units|, k requires 0 <= k < |units| => units[k].payload)
  }

  // A payload no scan can cut short: it does not end in padding and holds no
  // start code of its own.
  predicate Clean(p: seq<byte>) {
    (|p| > 0 ==> p[|p| - 1] != 0) && NoStartCode(p, 0, |p|)
  }

  predicate AllClean(units: seq<Unit>) {
    forall k :: 0 <= k < |units| ==> Clean(units[k].payload)
  }

  // Where the payloads of `units` lie when printed at offset `at`.
  function Placed(units: seq<Unit>, at: nat): seq<Span> {
    if units == [] then []
    else
      var s := at + |StartCode(units[0].long)|;
      [Span(s, s + |units[0].payload|)] + Placed(units[1..], s + |units[0].payload|)
  }

  lemma PrintStartsWithCode(units: seq<Unit>)
    requires units != []
    ensures var p := Print(units);
            |p| >= 3 && p[0] == 0 && p[1] == 0 && (if units[0].long then |p| >= 4 && p[2] == 0 && p[3] == 1 else p[2] == 1)
  {
  }

  // The first start code at or after a clean payload printed at `s`.
  lemma NextCodeAfterPayload(d: seq<byte>, s: nat, p: seq<byte>, rest: seq<Unit>)
    requires s + |p| + |Print(rest)| == |d|
    requires s >= 1 && d[s - 1] == 1
    requires d[s..s + |p|] == p && d[s + |p|..] == Print(rest) && Clean(p)
    ensures rest == [] ==> NextCode(d, s) == |d|
    ensures rest != [] ==> NextCode(d, s) == s + |p| + (if rest[0].long then 1 else 0)
    ensures Trim(d, s, NextCode(d, s)) == s + |p|
  {
    var e := s + |p|;
    if rest != [] { PrintStartsWithCode(rest); }
    forall i | 0 <= i < |Print(rest)| ensures d[e + i] == Print(rest)[i] {
      assert d[e..][i] == d[e + i];
    }
    forall j | s <= j < e ensures !StartCodeAt(d, j) {
      assert d[j] == p[j - s];
      if j + 2 < e {
        assert !StartCodeAt(p, j - s);
        assert d[j + 1] == p[j + 1 - s] && d[j + 2] == p[j + 2 - s];
      } else {
        assert d[e - 1] == p[|p| - 1];
      }
    }
    var code := e + (if rest != [] && rest[0].long then 1 else 0);
    if rest != [] {
      assert StartCodeAt(d, code);
      NextCodeIs(d, s, code);
      TrimTo(d, s, code, e);
    } else {
      NextCodeNone(d, s);
      TrimTo(d, s, |d|, e);
    }
  }

  lemma {:induction false} NextCodeIs(d: seq<byte>, i: nat, code: nat)
    requires i <= code < |d| && StartCodeAt(d, code) && NoStartCode(d, i, code)
    ensures NextCode(d, i) == code
    decreases code - i
  {
    if i < code { NextCodeIs(d, i + 1, code); }
  }

  lemma NextCodeNone(d: seq<byte>, i: nat)
    requires i <= |d| && NoStartCode(d, i, |d|)
    ensures NextCode(d, i) == |d|
  {
  }

  lemma {:induction false} TrimTo(d: seq<byte>, lo: nat, hi: nat, end: nat)
    requires lo <= end <= hi <= |d|
    requires forall k :: end <= k < hi ==> d[k] == 0
    requires end == lo || d[end - 1] != 0
    ensures Trim(d, lo, hi) == end
    decreases hi
  {
    if end < hi { TrimTo(d, lo, hi - 1, end); }
  }

  // The first unit of a print: its start code, its payload, and the rest.
  lemma PrintedHead(d: seq<byte>, at: nat, unit: Unit, rest: seq<Unit>) returns (s: nat, e: nat)
    requires at <= |d| && d[at..] == StartCode(unit.long) + unit.payload + Print(rest)
    ensures s == at + |StartCode(unit.long)| && e == s + |unit.payload|
    ensures at + 3 <= s && e <= |d|
    ensures StartCodeAt(d, s - 3) && NoStartCode(d, at, s - 3)
    ensures d[s..e] == unit.payload && d[e..] == Print(rest)
  {
    var head, tail := StartCode(unit.long), unit.payload + Print(rest);
    s := at + |head|;
    e := s + |unit.payload|;
    assert d[at..] == head + tail;
    SplitAt(d, at, head, tail);
    SplitAt(d, s, unit.payload, Print(rest));
    assert d[at] == head[0] && d[at + 1] == head[1] && d[at + 2] == head[2];
    assert unit.long ==> d[at + 3] == head[3];
  }

  lemma SplitAt(d: seq<byte>, at: nat, head: seq<byte>, tail: seq<byte>)
    requires at <= |d| && d[at..] == head + tail
    ensures at + |head| <= |d| && d[at..at + |head|] == head && d[at + |head|..] == tail
    ensures forall i :: 0 <= i < |head| ==> d[at + i] == head[i]
  {
    assert |d[at..]| == |head| + |tail|;
    assert d[at..at + |head|] == d[at..][..|head|];
    assert d[at + |head|..] == d[at..][|head|..];
    forall i | 0 <= i < |head| ensures d[at + i] == head[i] {
      assert d[at + i] == d[at..][i];
    }
  }

  // Anywhere up to the next start code, that start code is the next.
  lemma NextCodeFrom(d: seq<byte>, i: nat, j: nat)
    requires i <= j <= |d| && j <= NextCode(d, i)
    ensures NextCode(d, j) == NextCode(d, i)
  {
    var code := NextCode(d, i);
    if code < |d| { NextCodeIs(d, j, code); } else { NextCodeNone(d, j); }
  }

  // So scanning from there gives the same spans.
  lemma SpansAfterCode(d: seq<byte>, i: nat, j: nat)
    requires i <= |d| && j <= |d| && NextCode(d, i) == NextCode(d, j)
    ensures SpansFrom(d, i) == SpansFrom(d, j)
  {
    var code := NextCode(d, i);
    assert code == |d| ==> SpansFrom(d, i) == [] == SpansFrom(d, j);
  }

  lemma SpansHead(d: seq<byte>, at: nat, code: nat, next: nat)
    requires at <= |d| && NextCode(d, at) == code && code < |d| && NextCode(d, code + 3) == next
    ensures SpansFrom(d, at) == [Span(code + 3, Trim(d, code + 3, next))] + SpansFrom(d, next)
  {
    var rest, end := SpansFrom(d, next), Trim(d, code + 3, next);
    assert SpansFrom(d, at) == [Span(code + 3, end)] + rest;
  }

  lemma ScanStep(d: seq<byte>, at: nat, s: nat, e: nat)
    requires at + 3 <= s <= e <= |d|
    requires StartCodeAt(d, s - 3) && NoStartCode(d, at, s - 3)
    requires e <= NextCode(d, s) && Trim(d, s, NextCode(d, s)) == e
    ensures SpansFrom(d, at) == [Span(s, e)] + SpansFrom(d, e)
  {
    var next := NextCode(d, s);
    NextCodeIs(d, at, s - 3);
    CodesAgree(d, s, e);
    SpansFollow(d, at, s - 3, e, next);
  }

  lemma CodesAgree(d: seq<byte>, s: nat, e: nat)
    requires s <= e <= |d| && e <= NextCode(d, s)
    ensures NextCode(d, e) == NextCode(d, s) && NextCode(d, NextCode(d, s)) == NextCode(d, s)
  {
    NextCodeFrom(d, s, e);
    NextCodeFrom(d, s, NextCode(d, s));
  }

  lemma SpansFollow(d: seq<byte>, at: nat, code: nat, e: nat, next: nat)
    requires at <= |d| && NextCode(d, at) == code && code < |d| && NextCode(d, code + 3) == next
    requires Trim(d, code + 3, next) == e && NextCode(d, e) == next && NextCode(d, next) == next
    ensures SpansFrom(d, at) == [Span(code + 3, e)] + SpansFrom(d, e)
  {
    SpansHead(d, at, code, next);
    SpansAfterCode(d, e, next);
  }

  lemma PlacedHead(units: seq<Unit>, at: nat, s: nat, e: nat)
    requires units != []
    requires s == at + |StartCode(units[0].long)| && e == s + |units[0].payload|
    ensures Placed(units, at) == [Span(s, e)] + Placed(units[1..], e)
  {
  }

  lemma {:induction false} PrintedSpans(d: seq<byte>, at: nat, units: seq<Unit>)
    requires AllClean(units)
    requires at <= |d| && d[at..] == Print(units)
    ensures SpansFrom(d, at) == Placed(units, at)
    decreases |units|
  {
    if units == [] {
      assert NextCode(d, at) == |d|;
    } else {
      var unit, rest := units[0], units[1..];
      var s, e := PrintedHead(d, at, unit, rest);
      assert SpansFrom(d, at) == [Span(s, e)] + SpansFrom(d, e) by {
        assert Clean(unit.payload);
        NextCodeAfterPayload(d, s, unit.payload, rest);
        ScanStep(d, at, s, e);
      }
      PrintedSpans(d, e, rest);
      PlacedHead(units, at, s, e);
    }
  }

  lemma {:induction false} PlacedPayloads(d: seq<byte>, at: nat, units: seq<Unit>, k: nat)
    requires at <= |d| && d[at..] == Print(units) && k < |units|
    ensures |Placed(units, at)| == |units|
    ensures Placed(units, at)[k].start <= Placed(units, at)[k].end <= |d|
    ensures d[Placed(units, at)[k].start..Placed(units, at)[k].end] == units[k].payload
    decreases |units|
  {
    var unit, rest := units[0], units[1..];
    var s, e := PrintedHead(d, at, unit, rest);
    PlacedLength(rest, e);
    PlacedHead(units, at, s, e);
    if k > 0 {
      PlacedPayloads(d, e, rest, k - 1);
    }
  }

  lemma {:induction false} PlacedLength(units: seq<Unit>, at: nat)
    ensures |Placed(units, at)| == |units|
    decreases |units|
  {
    if units != [] {
      var s := at + |StartCode(units[0].long)|;
      PlacedLength(units[1..], s + |units[0].payload|);
    }
  }

  lemma NalsAreClean(d: seq<byte>, k: nat)
    requires k < |Nals(d)|
    ensures Clean(Nals(d)[k])
  {
    SpansIsScan(d);
    var span := Spans(d)[k];
    var nal := Nals(d)[k];
    assert nal == d[span.start..span.end];
    assert SpanIn(d, Spans(d), k);
    forall j | 0 <= j < |nal| ensures !StartCodeAt(nal, j) {
      if StartCodeAt(nal, j) {
        assert StartCodeAt(d, span.start + j);
        ScanSpansClean(d, Spans(d), k, span.start + j);
      }
    }
  }

  // Any mix of three- and four-byte start codes scans back to the payloads it
  // was printed from exactly when every payload is clean.
  lemma PrintScanRoundTrip(units: seq<Unit>)
    ensures Nals(Print(units)) == PayloadsOf(units) <==> AllClean(units)
  {
    var d := Print(units);
    if AllClean(units) {
      assert d[0..] == d;
      PrintedSpans(d, 0, units);
      PlacedLength(units, 0);
      forall k | 0 <= k < |units| ensures Nals(d)[k] == units[k].payload {
        PlacedPayloads(d, 0, units, k);
      }
      assert Nals(d) == PayloadsOf(units);
    } else if Nals(d) == PayloadsOf(units) {
      forall k | 0 <= k < |units| ensures Clean(units[k].payload) {
        NalsAreClean(d, k);
        assert Nals(d)[k] == units[k].payload;
      }
    }
  }

  // -------------------------------------------------------------------------
  // Parameter sets and keyframes
  // -------------------------------------------------------------------------

  predicate IsType(nal: seq<byte>, t: nat) { |nal| > 0 && nal[0] % 32 == t }

  // The last unit of a type wins.
  function LastOfType(nals: seq<seq<byte>>, t: nat): (r: Option<seq<byte>>)
    ensures r.Some? ==> r.value in nals && IsType(r.value, t)
    ensures r.None? <==> forall nal :: nal in nals ==> !IsType(nal, t)
  {
    if nals == [] then None
    else
      var last := nals[|nals| - 1];
      if IsType(last, t) then Some(last) else LastOfType(nals[..|nals| - 1], t)
  }

  method ParameterSets(au: seq<byte>) returns (sps: Option<seq<byte>>, pps: Option<seq<byte>>)
    ensures sps == LastOfType(Nals(au), SPS)
    ensures pps == LastOfType(Nals(au), PPS)
  {
    sps, pps := None, None;
    var nals := AnnexbNals(au);
    for n := 0 to |nals|
      invariant sps == LastOfType(nals[..n], SPS)
      invariant pps == LastOfType(nals[..n], PPS)
    {
      assert nals[..n + 1][..n] == nals[..n];
      var nal := nals[n];
      if |nal| > 0 {
        match nal[0] % 32
        case 7 => sps := Some(nal);
        case 8 => pps := Some(nal);
        case _ =>
      }
    }
    assert nals[..|nals|] == nals;
  }

  predicate ContainsIdr(au: seq<byte>) {
    exists k :: 0 <= k < |Nals(au)| && IsType(Nals(au)[k], IDR)
  }

  function ExtradataFrom(sps: seq<byte>, pps: seq<byte>): seq<byte> {
    [0, 0, 0, 1] + sps + [0, 0, 0, 1] + pps
  }

  // The unit at `k` is the last whose header byte's low five bits are `t`.
  predicate IsLastOf(nals: seq<seq<byte>>, t: nat, k: nat) {
    && k < |nals| && nals[k] != [] && nals[k][0] % 32 == t
    && forall j :: k < j < |nals| ==> nals[j] == [] || nals[j][0] % 32 != t
  }

  lemma {:induction false} LastOfTypeIs(nals: seq<seq<byte>>, t: nat)
    ensures LastOfType(nals, t).None? ==> forall k: nat :: k < |nals| ==> nals[k] == [] || nals[k][0] % 32 != t
    ensures LastOfType(nals, t).Some? ==> exists k: nat :: IsLastOf(nals, t, k) && nals[k] == LastOfType(nals, t).value
  {
    if nals != [] {
      var front, k := nals[..|nals| - 1], |nals| - 1;
      LastOfTypeIs(front, t);
      if IsType(nals[k], t) {
        assert IsLastOf(nals, t, k);
      } else if LastOfType(front, t).Some? {
        var j: nat :| IsLastOf(front, t, j) && front[j] == LastOfType(front, t).value;
        assert IsLastOf(nals, t, j);
      }
    }
  }

  // A sequence parameter set is type 7, a picture parameter set type 8, and an
  // IDR slice type 5.
  lemma TypesOfUnits(au: seq<byte>)
    ensures LastOfType(Nals(au), SPS) == LastOfType(Nals(au), 7)
    ensures LastOfType(Nals(au), PPS) == LastOfType(Nals(au), 8)
    ensures ContainsIdr(au) <==> exists k :: 0 <= k < |Nals(au)| && Nals(au)[k] != [] && Nals(au)[k][0] % 32 == 5
  {
    if k :| 0 <= k < |Nals(au)| && Nals(au)[k] != [] && Nals(au)[k][0] % 32 == 5 { assert IsType(Nals(au)[k], IDR); }
    if k :| 0 <= k < |Nals(au)| && IsType(Nals(au)[k], IDR) { assert Nals(au)[k][0] % 32 == 5; }
  }

  // The sequence parameter set first, each after a four-byte start code.
  lemma ExtradataIsPrinted(sps: seq<byte>, pps: seq<byte>)
    ensures ExtradataFrom(sps, pps) == Print([Unit(true, sps), Unit(true, pps)])
  {
    var units := [Unit(true, sps), Unit(true, pps)];
    assert units[1..] == [Unit(true, pps)] && units[1..][1..] == [];
    assert Print([]) == [];
    assert Print(units[1..]) == [0, 0, 0, 1] + pps;
    assert [0, 0, 0, 1] + sps + ([0, 0, 0, 1] + pps) == [0, 0, 0, 1] + sps + [0, 0, 0, 1] + pps;
  }

  // The pair a probe gathered, possibly from two access units, is recovered
  // byte for byte from the extradata printed for it.
  lemma ExtradataRoundTrip(au1: seq<byte>, au2: seq<byte>, sps: seq<byte>, pps: seq<byte>)
    requires LastOfType(Nals(au1), SPS) == Some(sps)
    requires LastOfType(Nals(au2), PPS) == Some(pps)
    ensures LastOfType(Nals(ExtradataFrom(sps, pps)), SPS) == Some(sps)
    ensures LastOfType(Nals(ExtradataFrom(sps, pps)), PPS) == Some(pps)
  {
    var k1 :| 0 <= k1 < |Nals(au1)| && Nals(au1)[k1] == sps;
    NalsAreClean(au1, k1);
    var k2 :| 0 <= k2 < |Nals(au2)| && Nals(au2)[k2] == pps;
    NalsAreClean(au2, k2);
    ExtradataScans(sps, pps);
    var nals := [sps, pps];
    assert nals[..1] == [sps];
    assert LastOfType(nals[..1], SPS) == Some(sps);
  }

  lemma ExtradataScans(sps: seq<byte>, pps: seq<byte>)
    requires Clean(sps) && Clean(pps)
    ensures Nals(ExtradataFrom(sps, pps)) == [sps, pps]
  {
    var units := [Unit(true, sps), Unit(true, pps)];
    assert units[1..] == [Unit(true, pps)];
    assert Print(units[1..]) == [0, 0, 0, 1] + pps + Print([]);
    assert Print(units) == ExtradataFrom(sps, pps);
    PrintScanRoundTrip(units);
    assert PayloadsOf(units) == [sps, pps];
  }
}
