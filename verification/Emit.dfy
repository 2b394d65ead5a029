/**
 The publisher of `frame.objects` lines: sequence numbers, the suppression
 tallies, and the memory a skipped sample's line is seeded from.
 */
module Emit {
  import opened Common
  import opened Control
  import Timestamp

  const MAX_LINE_BYTES: nat := 65_536
  const MAX_OBJECTS: nat := 64
  const MAX_PTS := 4_611_686_018_427_387_904

  datatype ObservationKind = Detected | Tracked

  // `evidence` is whether the box is at or above its class's floor.
  datatype Det = Det(
    name: string, score: real, bbox: (real, real, real, real),
    kind: ObservationKind, evidence: bool, embedding: Option<string>)

  datatype Line = Line(
    camera: string, epoch: string, sequence: nat, pts: int, observedAt: string, objects: seq<Det>)

  // The serialized length of a line. Nothing here depends on what it is.
  type Wire = Line -> nat

  // -------------------------------------------------------------------------
  // Shedding to the line budget
  // -------------------------------------------------------------------------

  predicate Fits(wire: Wire, line: Line, k: nat)
    requires k <= |line.objects|
  {
    k == 0 || wire(line.(objects := line.objects[..k])) <= MAX_LINE_BYTES
  }

  // How many of the first `cap` objects are kept.
  function KeptOf(wire: Wire, line: Line, cap: nat): (k: nat)
    requires cap <= |line.objects|
    ensures k <= cap && Fits(wire, line, k)
    ensures forall m :: k < m <= cap ==> !Fits(wire, line, m)
  {
    if Fits(wire, line, cap) then cap else KeptOf(wire, line, cap - 1)
  }

  function Kept(wire: Wire, line: Line): nat {
    KeptOf(wire, line, Min(|line.objects|, MAX_OBJECTS))
  }

  function Shed(wire: Wire, line: Line): Line {
    line.(objects := line.objects[..Kept(wire, line)])
  }

  // The line to send: the longest list that fits the cap and the budget, or
  // the empty list whether that fits or not.
  method ObjectsLine(wire: Wire, line: Line) returns (sent: Line, kept: nat)
    ensures kept == Kept(wire, line) && sent == Shed(wire, line)
    ensures kept <= |line.objects| && kept <= MAX_OBJECTS
    ensures kept > 0 ==> wire(sent) <= MAX_LINE_BYTES
    ensures forall m :: kept < m <= |line.objects| && m <= MAX_OBJECTS ==>
              wire(line.(objects := line.objects[..m])) > MAX_LINE_BYTES
  {
    ghost var cap := Min(|line.objects|, MAX_OBJECTS);
    kept := Min(|line.objects|, MAX_OBJECTS);
    while kept > 0 && wire(line.(objects := line.objects[..kept])) > MAX_LINE_BYTES
      invariant kept <= cap
      invariant KeptOf(wire, line, kept) == KeptOf(wire, line, cap)
    {
      kept := kept - 1;
    }
    sent := line.(objects := line.objects[..kept]);
    forall m | kept < m <= cap ensures wire(line.(objects := line.objects[..m])) > MAX_LINE_BYTES {
      assert !Fits(wire, line, m);
    }
  }

  // -------------------------------------------------------------------------
  // Seeds
  // -------------------------------------------------------------------------

  function SeedOf(d: Det): Det { d.(kind := Tracked, embedding := None) }

  function SeedsFrom(dets: seq<Det>): seq<Det> {
    if dets == [] then []
    else SeedsFrom(dets[..|dets| - 1])
         + if dets[|dets| - 1].evidence then [SeedOf(dets[|dets| - 1])] else []
  }

  // `s` re-reports the box `d`: the same class, score and place, as a track and
  // without its embedding.
  predicate Rereports(s: Det, d: Det) {
    && s.name == d.name && s.score == d.score && s.bbox == d.bbox && s.evidence == d.evidence
    && s.kind == Tracked && s.embedding == None
  }

  // A seed re-reports a box that was evidence.
  lemma {:induction false} SeedsAreEvidence(dets: seq<Det>, s: Det)
    requires s in SeedsFrom(dets)
    ensures exists d :: d in dets && d.evidence && Rereports(s, d)
  {
    var front, last := dets[..|dets| - 1], dets[|dets| - 1];
    if s in SeedsFrom(front) {
      SeedsAreEvidence(front, s);
      var d :| d in front && d.evidence && Rereports(s, d);
      assert d in dets;
    } else {
      assert last in dets;
    }
  }

  // Where the evidence is.
  function EvidenceAt(dets: seq<Det>): seq<nat> {
    if dets == [] then []
    else EvidenceAt(dets[..|dets| - 1]) + if dets[|dets| - 1].evidence then [|dets| - 1] else []
  }

  lemma {:induction false} EvidenceIsListed(dets: seq<Det>)
    ensures forall i, j :: 0 <= i < j < |EvidenceAt(dets)| ==> EvidenceAt(dets)[i] < EvidenceAt(dets)[j]
    ensures forall k: nat :: k in EvidenceAt(dets) <==> k < |dets| && dets[k].evidence
  {
    if dets != [] {
      var front := dets[..|dets| - 1];
      EvidenceIsListed(front);
      var at := EvidenceAt(front);
      forall i | 0 <= i < |at| ensures at[i] < |front| { assert at[i] in at; }
    }
  }

  ghost predicate SeededAt(dets: seq<Det>, seeds: seq<Det>, at: seq<nat>, i: nat)
    requires i < |seeds| == |at|
  {
    at[i] < |dets| && Rereports(seeds[i], dets[at[i]])
  }

  // Every evidence box is re-reported exactly once, in order, and nothing else
  // is: position by position, the seeds re-report the evidence boxes.
  lemma {:induction false} SeedsAreTheEvidence(dets: seq<Det>)
    ensures |SeedsFrom(dets)| == |EvidenceAt(dets)|
    ensures forall i: nat :: i < |EvidenceAt(dets)| ==> SeededAt(dets, SeedsFrom(dets), EvidenceAt(dets), i)
    ensures forall i, j :: 0 <= i < j < |EvidenceAt(dets)| ==> EvidenceAt(dets)[i] < EvidenceAt(dets)[j]
    ensures forall k: nat :: k in EvidenceAt(dets) <==> k < |dets| && dets[k].evidence
  {
    EvidenceIsListed(dets);
    if dets != [] {
      var front := dets[..|dets| - 1];
      SeedsAreTheEvidence(front);
      forall i: nat | i < |EvidenceAt(front)| ensures SeededAt(dets, SeedsFrom(dets), EvidenceAt(dets), i) {
        assert SeededAt(front, SeedsFrom(front), EvidenceAt(front), i);
      }
    }
  }

  // Re-seeding seeds changes nothing.
  lemma {:induction false} SeedsAreStable(dets: seq<Det>)
    ensures SeedsFrom(SeedsFrom(dets)) == SeedsFrom(dets)
  {
    if dets != [] {
      var front, last := dets[..|dets| - 1], dets[|dets| - 1];
      SeedsAreStable(front);
      if last.evidence {
        var s := SeedsFrom(dets);
        assert s[..|s| - 1] == SeedsFrom(front) && s[|s| - 1] == SeedOf(last);
        assert SeedOf(SeedOf(last)) == SeedOf(last);
      } else {
        assert SeedsFrom(dets) == SeedsFrom(front);
      }
    }
  }

  // -------------------------------------------------------------------------
  // One line
  // -------------------------------------------------------------------------

  datatype CameraState = CameraState(
    sequence: nat, ungated: nat, unboundedPts: nat, lastDets: seq<Det>, epoch: Option<string>)

  const FRESH := CameraState(0, 0, 0, [], None)

  datatype Source = Inferred(dets: seq<Det>) | Remembered

  predicate PtsInRange(pts: int) { -MAX_PTS <= pts <= MAX_PTS }

  // What is remembered once a line under `epoch` is about to be built.
  function Recalled(st: CameraState, epoch: string): seq<Det> {
    if st.epoch == Some(epoch) then st.lastDets else []
  }

  // One frame, observed at the time `stamp` reads.
  function Emitted(wire: Wire, epoch: Option<string>, st: CameraState, camera: string, pts: int, stamp: string,
                   source: Source): (CameraState, Option<Line>)
  {
    if epoch.None? then (st.(ungated := st.ungated + 1), None)
    else if !PtsInRange(pts) then (st.(unboundedPts := st.unboundedPts + 1), None)
    else
      var recalled := Recalled(st, epoch.value);
      var dets := if source.Inferred? then source.dets else recalled;
      var line := Shed(wire, Line(camera, epoch.value, st.sequence, pts, stamp, dets));
      (st.(sequence := st.sequence + 1, epoch := epoch,
           lastDets := if source.Inferred? then SeedsFrom(line.objects) else recalled),
       Some(line))
  }

  // The longest list of the first `dets` that is within 64 objects and, on this
  // line, 65 536 bytes; or the empty list.
  ghost predicate IsLongest(wire: Wire, line: Line, dets: seq<Det>) {
    && line.objects <= dets && |line.objects| <= 64
    && (line.objects == [] || wire(line) <= 65_536)
    && forall m :: |line.objects| < m <= |dets| && m <= 64 ==> wire(line.(objects := dets[..m])) > 65_536
  }

  // A frame in the lines' own fields. Without an epoch, or with a timestamp out
  // of range, it is counted and nothing else; otherwise it is one line, of its own
  // camera, epoch, time and number, and the camera remembers what it may re-report.
  ghost predicate FrameMeans(wire: Wire, epoch: Option<string>, st: CameraState, camera: string, pts: int, stamp: string,
                             source: Source, st': CameraState, line: Option<Line>)
  {
    if epoch.None? then line.None? && st' == st.(ungated := st.ungated + 1)
    else if pts < -4_611_686_018_427_387_904 || pts > 4_611_686_018_427_387_904 then
      line.None? && st' == st.(unboundedPts := st.unboundedPts + 1)
    else
      var remembered := if st.epoch == epoch then st.lastDets else [];
      && line.Some?
      && line.value.camera == camera && line.value.epoch == epoch.value && line.value.sequence == st.sequence
      && line.value.pts == pts && line.value.observedAt == stamp
      && IsLongest(wire, line.value, if source.Inferred? then source.dets else remembered)
      && st' == CameraState(st.sequence + 1, st.ungated, st.unboundedPts,
                            if source.Inferred? then SeedsFrom(line.value.objects) else remembered, epoch)
  }

  lemma ShedIsLongest(wire: Wire, line: Line)
    ensures IsLongest(wire, Shed(wire, line), line.objects)
  {
    var sent, kept := Shed(wire, line), Kept(wire, line);
    forall m | kept < m <= |line.objects| && m <= 64 ensures wire(sent.(objects := line.objects[..m])) > 65_536 {
      assert !Fits(wire, line, m);
      assert sent.(objects := line.objects[..m]) == line.(objects := line.objects[..m]);
    }
  }

  lemma EmittedMeans(wire: Wire, epoch: Option<string>, st: CameraState, camera: string, pts: int, stamp: string,
                     source: Source)
    ensures var (st', line) := Emitted(wire, epoch, st, camera, pts, stamp, source);
            FrameMeans(wire, epoch, st, camera, pts, stamp, source, st', line)
  {
    if epoch.Some? && PtsInRange(pts) {
      var dets := if source.Inferred? then source.dets else Recalled(st, epoch.value);
      ShedIsLongest(wire, Line(camera, epoch.value, st.sequence, pts, stamp, dets));
    }
  }

  function StateOf(cameras: map<string, CameraState>, camera: string): CameraState {
    if camera in cameras then cameras[camera] else FRESH
  }

  class Publisher {
    const streams: Streams
    var cameras: map<string, CameraState>

    constructor (streams: Streams)
      ensures this.streams == streams && cameras == map[]
    {
      this.streams := streams;
      cameras := map[];
    }

    method Emit(wire: Wire, camera: string, pts: int, at: int, source: Source) returns (line: Option<Line>)
      modifies this
      ensures var (st, sent) := Emitted(wire, old(EpochOf(streams.epochs, camera)), old(StateOf(cameras, camera)),
                                        camera, pts, Timestamp.Rfc3339Utc(at), source);
              cameras == old(cameras)[camera := st] && line == sent
    {
      var epoch := EpochOf(streams.epochs, camera);
      line := EmitUnder(wire, epoch, camera, pts, Timestamp.Rfc3339Utc(at), source);
    }

    // The frame once its epoch is read.
    method EmitUnder(wire: Wire, epoch: Option<string>, camera: string, pts: int, stamp: string, source: Source)
      returns (line: Option<Line>)
      modifies this
      ensures var (st, sent) := Emitted(wire, epoch, old(StateOf(cameras, camera)), camera, pts, stamp, source);
              cameras == old(cameras)[camera := st] && line == sent
    {
      if camera !in cameras { cameras := cameras[camera := FRESH]; }
      var st;
      st, line := FrameOf(wire, epoch, cameras[camera], camera, pts, stamp, source);
      cameras := cameras[camera := st];
    }
  }

  // What one frame does to its camera's state.
  method FrameOf(wire: Wire, epoch: Option<string>, before: CameraState, camera: string, pts: int, stamp: string,
                 source: Source)
    returns (st: CameraState, line: Option<Line>)
    ensures (st, line) == Emitted(wire, epoch, before, camera, pts, stamp, source)
  {
    st := before;
    if epoch.None? {
      st := st.(ungated := st.ungated + 1);
      return st, None;
    }
    if !PtsInRange(pts) {
      st := st.(unboundedPts := st.unboundedPts + 1);
      return st, None;
    }
    if st.epoch != epoch { st := st.(epoch := epoch, lastDets := []); }
    var sequence := st.sequence;
    st := st.(sequence := sequence + 1);
    var dets := if source.Inferred? then source.dets else st.lastDets;
    var sent, kept := ObjectsLine(wire, Line(camera, epoch.value, sequence, pts, stamp, dets));
    if source.Inferred? { st := st.(lastDets := SeedsFrom(source.dets[..kept])); }
    line := Some(sent);
  }
}
