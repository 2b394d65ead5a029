/**
 What one deferred decoder does over a whole stream, whatever the host answers
 and whatever other cameras do to the shared flags between its packets.
 */
module DecoderTrace {
  import opened Common
  import opened AnnexB
  import opened ClaimProtocol
  import opened HwProbe

  // One packet, with the flags found and the host's answers at that moment.
  datatype Input = Input(packet: seq<byte>, flags: Flags, host: Host)

  // The decoder after `inputs`, from the moment it was opened.
  function Reached(backends: seq<Backend>, required: bool, inputs: seq<Input>): (d: Decoder)
    ensures DecoderOk(d)
  {
    if inputs == [] then NewDecoder(backends, required)
    else
      var last := inputs[|inputs| - 1];
      SentPacket(Reached(backends, required, inputs[..|inputs| - 1]), last.flags, last.host, last.packet).decoder
  }

  function SentAt(backends: seq<Backend>, required: bool, inputs: seq<Input>, k: nat): Sent
    requires k < |inputs|
  {
    SentPacket(Reached(backends, required, inputs[..k]), inputs[k].flags, inputs[k].host, inputs[k].packet)
  }

  lemma ReachedNext(backends: seq<Backend>, required: bool, inputs: seq<Input>, k: nat)
    requires k < |inputs|
    ensures Reached(backends, required, inputs[..k + 1]) == SentAt(backends, required, inputs, k).decoder
  {
    assert inputs[..k + 1][..k] == inputs[..k];
  }

  // -------------------------------------------------------------------------
  // The trace
  // -------------------------------------------------------------------------

  lemma PacketKeepsDecision(d: Decoder, flags: Flags, host: Host, packet: seq<byte>)
    requires DecoderOk(d)
    ensures var sent := SentPacket(d, flags, host, packet);
            && sent.outcome == OutcomeOf(sent.decoder.active)
            && (d.pending.None? ==> sent.decoder == d)
            && (d.pending.Some? && sent.decoder.pending.None? && sent.decoder.active.Refused? ==> d.pending.value.required)
            && (d.pending.Some? && sent.decoder.pending.Some? ==>
                  && sent.decoder.pending.value.required == d.pending.value.required
                  && sent.decoder.pending.value.backends == d.pending.value.backends)
  {
  }

  // Only a keyframe hands over.
  lemma {:induction false} SwitchNeedsIdr(backends: seq<Backend>, probe: Probe, flags: Flags, host: Host, au: seq<byte>)
    requires !probe.Gathering? && ProbeOk(backends, probe)
    ensures Iterate(backends, probe, flags, host, au).verdict.value.Switch? ==> ContainsIdr(au)
    decreases BackendsLeft(backends, probe), StageLeft(probe)
  {
    var t := OneTurn(backends, probe, flags, host, au);
    if t.verdict.None? { SwitchNeedsIdr(backends, t.probe, t.flags, host, au); }
  }

  lemma HandoverNeedsIdr(d: Decoder, flags: Flags, host: Host, packet: seq<byte>)
    requires DecoderOk(d)
    ensures var sent := SentPacket(d, flags, host, packet);
            d.active.Software? && sent.decoder.active.Hardware? ==> ContainsIdr(packet)
  {
    if d.pending.Some? && packet != [] {
      var p := d.pending.value;
      if !p.probe.Gathering? {
        SwitchNeedsIdr(p.backends, p.probe, flags, host, packet);
      } else {
        var sps := OrElse(LastOfType(Nals(packet), SPS), p.probe.sps);
        var pps := OrElse(LastOfType(Nals(packet), PPS), p.probe.pps);
        if sps.Some? && pps.Some? {
          SwitchNeedsIdr(p.backends, Claiming(ExtradataFrom(sps.value, pps.value), 0), flags, host, packet);
        }
      }
    }
  }

  function OutcomeAt(backends: seq<Backend>, required: bool, inputs: seq<Input>, k: nat): Outcome
    requires k < |inputs|
  {
    SentAt(backends, required, inputs, k).outcome
  }

  predicate Decides(o: Outcome, required: bool, packet: seq<byte>) {
    (o.ToHardware? && ContainsIdr(packet)) || (o.PacketRefused? && required)
  }

  // The first `n` outcomes are software up to packet `k`, and from there one
  // decision for good: hardware, on a packet with a keyframe, or refusal,
  // which only a required backend brings.
  ghost predicate TraceShape(backends: seq<Backend>, required: bool, inputs: seq<Input>, n: nat, k: nat)
    requires k <= n <= |inputs|
  {
    && (forall j :: 0 <= j < k ==> OutcomeAt(backends, required, inputs, j) == ToSoftware)
    && (k < n ==>
          var decided := OutcomeAt(backends, required, inputs, k);
          && (forall j :: k <= j < n ==> OutcomeAt(backends, required, inputs, j) == decided)
          && Decides(decided, required, inputs[k].packet))
  }

  ghost predicate StateFits(backends: seq<Backend>, required: bool, inputs: seq<Input>, n: nat, k: nat, d: Decoder)
    requires k <= n <= |inputs|
  {
    && (d.pending.Some? ==>
          k == n && d.pending.value.required == required && d.pending.value.backends == backends)
    && (k == n ==> d.active.Software?)
    && (k < n ==> OutcomeOf(d.active) == OutcomeAt(backends, required, inputs, k))
  }

  lemma {:induction false} StateAfter(backends: seq<Backend>, required: bool, inputs: seq<Input>, n: nat) returns (k: nat)
    requires n <= |inputs|
    ensures k <= n && TraceShape(backends, required, inputs, n, k)
    ensures StateFits(backends, required, inputs, n, k, Reached(backends, required, inputs[..n]))
  {
    k := 0;
    if n > 0 {
      k := StateAfter(backends, required, inputs, n - 1);
      k := OneMorePacket(backends, required, inputs, n - 1, k);
    }
  }

  lemma OneMorePacket(backends: seq<Backend>, required: bool, inputs: seq<Input>, n: nat, k: nat) returns (k': nat)
    requires k <= n < |inputs| && TraceShape(backends, required, inputs, n, k)
    requires StateFits(backends, required, inputs, n, k, Reached(backends, required, inputs[..n]))
    ensures k' <= n + 1 && TraceShape(backends, required, inputs, n + 1, k')
    ensures StateFits(backends, required, inputs, n + 1, k', Reached(backends, required, inputs[..n + 1]))
  {
    var last := inputs[n];
    var outcome := OutcomeAt(backends, required, inputs, n);
    DecisionStep(Reached(backends, required, inputs[..n]), required, last.flags, last.host, last.packet);
    ReachedNext(backends, required, inputs, n);
    k' := if k == n && outcome == ToSoftware then n + 1 else k;
    ShapeGrows(backends, required, inputs, n, k, k');
  }

  lemma ShapeGrows(backends: seq<Backend>, required: bool, inputs: seq<Input>, n: nat, k: nat, k': nat)
    requires k <= n < |inputs| && TraceShape(backends, required, inputs, n, k)
    requires var o := OutcomeAt(backends, required, inputs, n);
             && k' == (if k == n && o == ToSoftware then n + 1 else k)
             && (k < n ==> o == OutcomeAt(backends, required, inputs, k))
             && (k == n && o != ToSoftware ==> Decides(o, required, inputs[n].packet))
    ensures TraceShape(backends, required, inputs, n + 1, k')
  {
    var o := OutcomeAt(backends, required, inputs, n);
    forall j | 0 <= j < k' ensures OutcomeAt(backends, required, inputs, j) == ToSoftware {
      assert j < k || o == ToSoftware;
    }
    if k' < n + 1 {
      forall j | k' <= j < n + 1
        ensures OutcomeAt(backends, required, inputs, j) == OutcomeAt(backends, required, inputs, k')
      {
        if j == n && k < n { assert o == OutcomeAt(backends, required, inputs, k); }
      }
    }
  }

  // One packet either leaves the decoder on software or decides it for good.
  lemma DecisionStep(d: Decoder, required: bool, flags: Flags, host: Host, packet: seq<byte>)
    requires DecoderOk(d) && (d.pending.Some? ==> d.pending.value.required == required)
    ensures var sent := SentPacket(d, flags, host, packet);
            && sent.outcome == OutcomeOf(sent.decoder.active)
            && (d.pending.None? ==> sent.decoder == d)
            && (d.active.Software? ==>
                  || sent.outcome == ToSoftware
                  || (sent.decoder.pending.None? && sent.outcome.ToHardware? && ContainsIdr(packet))
                  || (sent.decoder.pending.None? && sent.outcome.PacketRefused? && required))
            && (sent.decoder.pending.Some? ==>
                  && sent.outcome == ToSoftware && d.pending.Some?
                  && sent.decoder.pending.value.required == d.pending.value.required
                  && sent.decoder.pending.value.backends == d.pending.value.backends)
  {
    PacketKeepsDecision(d, flags, host, packet);
    HandoverNeedsIdr(d, flags, host, packet);
  }

  lemma DecoderTraceShape(backends: seq<Backend>, required: bool, inputs: seq<Input>)
    ensures exists k :: 0 <= k <= |inputs| && TraceShape(backends, required, inputs, |inputs|, k)
  {
    var k := StateAfter(backends, required, inputs, |inputs|);
  }

  // -------------------------------------------------------------------------
  // Gathering and the opens it leads to
  // -------------------------------------------------------------------------

  // The access units the probe is shown: empty packets are not.
  function AccessUnits(inputs: seq<Input>): seq<seq<byte>> {
    if inputs == [] then []
    else
      var front := AccessUnits(inputs[..|inputs| - 1]);
      var last := inputs[|inputs| - 1];
      if last.packet == [] then front else front + [last.packet]
  }

  // The newest parameter set of a type among the access units.
  function Latest(aus: seq<seq<byte>>, t: nat): Option<seq<byte>> {
    if aus == [] then None
    else OrElse(LastOfType(Nals(aus[|aus| - 1]), t), Latest(aus[..|aus| - 1], t))
  }

  predicate Complete(aus: seq<seq<byte>>) { Latest(aus, SPS).Some? && Latest(aus, PPS).Some? }

  // How many access units it took to see both sets.
  function CompletedAt(aus: seq<seq<byte>>): (m: nat)
    requires Complete(aus)
    ensures 0 < m <= |aus| && Complete(aus[..m])
  {
    var front := aus[..|aus| - 1];
    if Complete(front) then
      assert aus[..CompletedAt(front)] == front[..CompletedAt(front)];
      CompletedAt(front)
    else
      assert aus[..|aus|] == aus;
      |aus|
  }

  // The extradata of the newest pair at that moment.
  function PairOf(aus: seq<seq<byte>>): seq<byte>
    requires Complete(aus)
  {
    var upTo := aus[..CompletedAt(aus)];
    ExtradataFrom(Latest(upTo, SPS).value, Latest(upTo, PPS).value)
  }

  lemma CompletedAtIsFirst(aus: seq<seq<byte>>, m: nat)
    requires Complete(aus) && m < CompletedAt(aus)
    ensures !Complete(aus[..m])
  {
    var front := aus[..|aus| - 1];
    if Complete(front) {
      CompletedAtIsFirst(front, m);
      assert aus[..m] == front[..m];
    } else {
      if m < |aus| - 1 {
        assert front[..m] == aus[..m];
        StaysComplete(front, m);
      } else {
        assert aus[..m] == front;
      }
    }
  }

  lemma {:induction false} StaysComplete(aus: seq<seq<byte>>, m: nat)
    requires m <= |aus|
    ensures Complete(aus[..m]) ==> Complete(aus)
  {
    if m < |aus| {
      var front := aus[..|aus| - 1];
      assert front[..m] == aus[..m];
      StaysComplete(front, m);
    } else {
      assert aus[..m] == aus;
    }
  }

  // What the probe knows after the access units it was shown.
  ghost predicate ProbeKnows(d: Decoder, required: bool, aus: seq<seq<byte>>) {
    if !Complete(aus) then
      if |aus| < DEFER_AU_LIMIT then
        && d.active.Software? && d.pending.Some?
        && d.pending.value.probe == Gathering(Latest(aus, SPS), Latest(aus, PPS), DEFER_AU_LIMIT - |aus|)
      else
        d == Decoder(if required then Refused else Software, None)
    else if CompletedAt(aus) > DEFER_AU_LIMIT then
      d == Decoder(if required then Refused else Software, None)
    else
      d.pending.Some? ==> PastGathering(d.pending.value.probe, PairOf(aus))
  }

  predicate PastGathering(probe: Probe, pair: seq<byte>) {
    match probe
    case Gathering(_, _, _) => false
    case Claiming(extradata, _) => extradata == pair
    case Opening(extradata, _, _) => extradata == pair
    case Ready(_) => true
  }

  // A turn past gathering keeps the extradata and opens nothing else.
  lemma {:induction false} IterateKeepsPair(backends: seq<Backend>, probe: Probe, flags: Flags, host: Host,
                                            au: seq<byte>, pair: seq<byte>)
    requires ProbeOk(backends, probe) && PastGathering(probe, pair)
    ensures var t := Iterate(backends, probe, flags, host, au);
            && (t.verdict == Some(Wait) ==> PastGathering(t.probe, pair))
            && forall o :: o in t.opens ==> o.extradata == pair && o.position < |backends| && o.backend == backends[o.position]
    decreases BackendsLeft(backends, probe), StageLeft(probe)
  {
    var t := OneTurn(backends, probe, flags, host, au);
    if t.verdict.None? { IterateKeepsPair(backends, t.probe, t.flags, host, au, pair); }
  }

  ghost predicate OpensUse(opens: seq<Open>, backends: seq<Backend>, pair: seq<byte>) {
    forall o :: o in opens ==> o.extradata == pair && o.position < |backends| && o.backend == backends[o.position]
  }

  // One more access unit.
  lemma ProbeLearns(d: Decoder, backends: seq<Backend>, required: bool, flags: Flags, host: Host,
                    aus: seq<seq<byte>>, au: seq<byte>)
    requires DecoderOk(d) && ProbeKnows(d, required, aus) && au != []
    requires d.pending.Some? ==> d.pending.value.required == required && d.pending.value.backends == backends
    ensures var sent := SentPacket(d, flags, host, au);
            && ProbeKnows(sent.decoder, required, aus + [au])
            && (sent.opens != [] ==> Complete(aus + [au]) && OpensUse(sent.opens, backends, PairOf(aus + [au])))
  {
    var all := aus + [au];
    assert all[..|all| - 1] == aus && all[|all| - 1] == au;
    if Complete(aus) {
      LearnsPastPair(d, backends, required, flags, host, aus, au);
    } else if |aus| < DEFER_AU_LIMIT && Complete(all) {
      LearnsPair(d, backends, required, flags, host, aus, au);
    }
  }

  lemma LearnsPastPair(d: Decoder, backends: seq<Backend>, required: bool, flags: Flags, host: Host,
                       aus: seq<seq<byte>>, au: seq<byte>)
    requires DecoderOk(d) && ProbeKnows(d, required, aus) && au != [] && Complete(aus)
    requires d.pending.Some? ==> d.pending.value.required == required && d.pending.value.backends == backends
    ensures Complete(aus + [au])
    ensures var sent := SentPacket(d, flags, host, au);
            && ProbeKnows(sent.decoder, required, aus + [au])
            && OpensUse(sent.opens, backends, PairOf(aus + [au]))
  {
    PairStays(aus, au);
    if d.pending.Some? {
      IterateKeepsPair(backends, d.pending.value.probe, flags, host, au, PairOf(aus));
    }
  }

  lemma PairStays(aus: seq<seq<byte>>, au: seq<byte>)
    requires Complete(aus)
    ensures Complete(aus + [au]) && CompletedAt(aus + [au]) == CompletedAt(aus) && PairOf(aus + [au]) == PairOf(aus)
  {
    var all := aus + [au];
    assert all[..|all| - 1] == aus && all[|all| - 1] == au;
    assert all[..CompletedAt(aus)] == aus[..CompletedAt(aus)];
  }

  lemma LearnsPair(d: Decoder, backends: seq<Backend>, required: bool, flags: Flags, host: Host,
                   aus: seq<seq<byte>>, au: seq<byte>)
    requires DecoderOk(d) && ProbeKnows(d, required, aus) && au != []
    requires !Complete(aus) && |aus| < DEFER_AU_LIMIT && Complete(aus + [au])
    requires d.pending.value.required == required && d.pending.value.backends == backends
    ensures var sent := SentPacket(d, flags, host, au);
            && ProbeKnows(sent.decoder, required, aus + [au])
            && OpensUse(sent.opens, backends, PairOf(aus + [au]))
  {
    var all := aus + [au];
    assert all[..|all| - 1] == aus && all[|all| - 1] == au;
    assert CompletedAt(all) == |all| && all[..|all|] == all;
    IterateKeepsPair(backends, Claiming(PairOf(all), 0), flags, host, au, PairOf(all));
  }

  lemma {:induction false} ProbeHistory(backends: seq<Backend>, required: bool, inputs: seq<Input>)
    ensures ProbeKnows(Reached(backends, required, inputs), required, AccessUnits(inputs))
  {
    if inputs != [] {
      var front, last := inputs[..|inputs| - 1], inputs[|inputs| - 1];
      ProbeHistory(backends, required, front);
      var k := StateAfter(backends, required, front, |front|);
      assert front[..|front|] == front;
      if last.packet != [] {
        ProbeLearns(Reached(backends, required, front), backends, required, last.flags, last.host,
                    AccessUnits(front), last.packet);
      }
    }
  }

  // While the pair is incomplete, the probe waits through 899 access units and
  // is over at the 900th: for good, and in refusal when the backend was
  // required.
  lemma GatheringEndsAt900(backends: seq<Backend>, required: bool, inputs: seq<Input>)
    requires !Complete(AccessUnits(inputs))
    ensures Reached(backends, required, inputs).pending.Some? <==> |AccessUnits(inputs)| < 900
    ensures Reached(backends, required, inputs).pending.None? ==>
              Reached(backends, required, inputs).active == if required then Refused else Software
  {
    ProbeHistory(backends, required, inputs);
  }

  // Whatever was opened, was opened on the newest pair seen when the pair
  // completed, which took at most 900 access units.
  lemma OpensCarryLatestPair(backends: seq<Backend>, required: bool, inputs: seq<Input>, k: nat)
    requires k < |inputs| && SentAt(backends, required, inputs, k).opens != []
    ensures var aus := AccessUnits(inputs[..k + 1]);
            && Complete(aus) && CompletedAt(aus) <= 900
            && OpensUse(SentAt(backends, required, inputs, k).opens, backends, PairOf(aus))
  {
    var front := inputs[..k];
    ProbeHistory(backends, required, front);
    ProbeHistory(backends, required, inputs[..k + 1]);
    ReachedNext(backends, required, inputs, k);
    var s := StateAfter(backends, required, front, k);
    assert front[..k] == front && inputs[..k + 1][..k] == front;
    ProbeLearns(Reached(backends, required, front), backends, required, inputs[k].flags, inputs[k].host,
                AccessUnits(front), inputs[k].packet);
    OpeningMeansInTime(Reached(backends, required, front), required, inputs[k].flags, inputs[k].host,
                       AccessUnits(front), inputs[k].packet);
  }

  lemma OpeningMeansInTime(d: Decoder, required: bool, flags: Flags, host: Host, aus: seq<seq<byte>>, au: seq<byte>)
    requires DecoderOk(d) && ProbeKnows(d, required, aus) && au != []
    requires SentPacket(d, flags, host, au).opens != [] && Complete(aus + [au])
    ensures CompletedAt(aus + [au]) <= 900
  {
    var all := aus + [au];
    assert all[..|all| - 1] == aus;
  }

  // The extradata of every open scans back to the pair it was made from.
  lemma OpenedPairScansBack(aus: seq<seq<byte>>)
    requires Complete(aus)
    ensures var upTo := aus[..CompletedAt(aus)];
            && LastOfType(Nals(PairOf(aus)), SPS) == Latest(upTo, SPS)
            && LastOfType(Nals(PairOf(aus)), PPS) == Latest(upTo, PPS)
  {
    var upTo := aus[..CompletedAt(aus)];
    var a := LatestIsScanned(upTo, SPS);
    var b := LatestIsScanned(upTo, PPS);
    ExtradataRoundTrip(a, b, Latest(upTo, SPS).value, Latest(upTo, PPS).value);
  }

  lemma {:induction false} LatestIsScanned(aus: seq<seq<byte>>, t: nat) returns (au: seq<byte>)
    requires Latest(aus, t).Some?
    ensures LastOfType(Nals(au), t) == Latest(aus, t)
  {
    au := aus[|aus| - 1];
    if LastOfType(Nals(au), t).None? {
      au := LatestIsScanned(aus[..|aus| - 1], t);
    }
  }
}
