/**
 The deferred hardware probe: software decodes while the probe gathers
 parameter sets, takes its turn on each backend and waits for a keyframe to
 hand over. Time is in milliseconds.

 The flags are the process's own (module ClaimProtocol); what the host answers
 during a call is a parameter.
 */
module HwProbe {
  import opened Common
  import opened AnnexB
  import opened ClaimProtocol

  const DEFER_AU_LIMIT: nat := 900
  const HW_OPEN_DEADLINE := 3000

  // -------------------------------------------------------------------------
  // The probe as a function
  // -------------------------------------------------------------------------

  datatype Probe =
    | Gathering(sps: Option<seq<byte>>, pps: Option<seq<byte>>, ausLeft: nat)
    | Claiming(extradata: seq<byte>, next: nat)
    | Opening(extradata: seq<byte>, current: nat, started: int)
    | Ready(on: Backend)

  const FRESH := Gathering(None, None, DEFER_AU_LIMIT)

  // What polling the open thread's channel shows.
  datatype Poll = Opened | OpenFailed | Silent | ThreadDied

  // What the host answers during one call, by position in the backend list:
  // whether the open could be started, when, and what polling it shows when.
  datatype Host = Host(starts: nat -> bool, startedAt: nat -> int, poll: nat -> Poll, polledAt: nat -> int)

  // One open started: the backend at `position` of the list, on `extradata`.
  datatype Open = Open(position: nat, backend: Backend, extradata: seq<byte>)

  datatype Verdict = Wait | Settle | Abandon | Switch(backend: Backend)

  // What one or more turns of the probe came to: the new state, the operations
  // on the shared flags, the opens started, and the verdict once there is one.
  datatype Turn = Turn(probe: Probe, flags: Flags, ops: seq<Op>, opens: seq<Open>, verdict: Option<Verdict>)

  predicate ProbeOk(backends: seq<Backend>, probe: Probe) {
    match probe
    case Gathering(_, _, left) => 1 <= left <= DEFER_AU_LIMIT
    case Claiming(_, next) => next <= |backends|
    case Opening(_, current, _) => current < |backends|
    case Ready(_) => true
  }

  // One iteration of the probe's loop.
  function OneTurn(backends: seq<Backend>, probe: Probe, flags: Flags, host: Host, au: seq<byte>): (t: Turn)
    requires !probe.Gathering? && ProbeOk(backends, probe)
    ensures t.verdict.None? || t.verdict == Some(Wait) ==> !t.probe.Gathering? && ProbeOk(backends, t.probe)
  {
    match probe
    case Claiming(extradata, next) =>
      if next == |backends| then Turn(FRESH, flags, [], [], Some(Settle)) else
      var b := backends[next];
      if b in flags.wedged then
        Turn(Claiming(extradata, next + 1), flags, [LoadWedged(b, true)], [], None)
      else if b in flags.claims then
        Turn(probe, flags, [LoadWedged(b, false), TakeClaim(b, false)], [], Some(Wait))
      else if !host.starts(next) then
        Turn(FRESH, flags, [LoadWedged(b, false), TakeClaim(b, true), Release(b)], [], Some(Abandon))
      else
        Turn(Opening(extradata, next, host.startedAt(next)), flags.(claims := flags.claims + {b}),
             [LoadWedged(b, false), TakeClaim(b, true), Spawn(b)], [Open(next, b, extradata)], None)
    case Opening(extradata, current, started) =>
      var b := backends[current];
      var freed := flags.(claims := flags.claims - {b});
      (match host.poll(current)
       case Opened => Turn(Ready(b), freed, [Release(b)], [], None)
       case OpenFailed => Turn(Claiming(extradata, current + 1), freed, [Release(b)], [], None)
       case ThreadDied => Turn(Claiming(extradata, current + 1), freed, [Release(b)], [], None)
       case Silent =>
         if host.polledAt(current) - started < HW_OPEN_DEADLINE then
           Turn(probe, flags, [], [], Some(Wait))
         else
           Turn(Claiming(extradata, current + 1), freed.(wedged := flags.wedged + {b}),
                [Latch(b), Release(b)], [], None))
    case Ready(b) =>
      if ContainsIdr(au) then Turn(FRESH, flags, [], [], Some(Switch(b)))
      else Turn(probe, flags, [], [], Some(Wait))
  }

  // The loop's rank: backends left first, then how far the current one is.
  function BackendsLeft(backends: seq<Backend>, probe: Probe): nat
    requires ProbeOk(backends, probe)
  {
    match probe
    case Claiming(_, next) => |backends| - next
    case Opening(_, current, _) => |backends| - current
    case _ => 0
  }

  function StageLeft(probe: Probe): nat {
    match probe
    case Claiming(_, _) => 2
    case Opening(_, _, _) => 1
    case _ => 0
  }

  function Iterate(backends: seq<Backend>, probe: Probe, flags: Flags, host: Host, au: seq<byte>): (t: Turn)
    requires !probe.Gathering? && ProbeOk(backends, probe)
    ensures t.verdict.Some?
    ensures t.verdict == Some(Wait) ==> !t.probe.Gathering? && ProbeOk(backends, t.probe)
    decreases BackendsLeft(backends, probe), StageLeft(probe)
  {
    var t := OneTurn(backends, probe, flags, host, au);
    if t.verdict.Some? then t
    else Preceded(t.ops, t.opens, Iterate(backends, t.probe, t.flags, host, au))
  }

  function Preceded(ops: seq<Op>, opens: seq<Open>, t: Turn): Turn {
    t.(ops := ops + t.ops, opens := opens + t.opens)
  }

  function OrElse<T>(a: Option<T>, b: Option<T>): Option<T> { if a.Some? then a else b }

  function Advanced(backends: seq<Backend>, probe: Probe, flags: Flags, host: Host, au: seq<byte>): (t: Turn)
    requires ProbeOk(backends, probe)
    ensures t.verdict.Some?
    ensures t.verdict == Some(Wait) ==> ProbeOk(backends, t.probe)
  {
    if probe.Gathering? then
      var sps := OrElse(LastOfType(Nals(au), SPS), probe.sps);
      var pps := OrElse(LastOfType(Nals(au), PPS), probe.pps);
      if sps.Some? && pps.Some? then
        Iterate(backends, Claiming(ExtradataFrom(sps.value, pps.value), 0), flags, host, au)
      else
        Turn(Gathering(sps, pps, probe.ausLeft - 1), flags, [], [],
             Some(if probe.ausLeft == 1 then Settle else Wait))
    else Iterate(backends, probe, flags, host, au)
  }

  // -------------------------------------------------------------------------
  // The decoder around it
  // -------------------------------------------------------------------------

  datatype Active = Software | Hardware(backend: Backend) | Refused

  datatype Pending = Pending(backends: seq<Backend>, required: bool, probe: Probe)

  datatype Decoder = Decoder(active: Active, pending: Option<Pending>)

  datatype Outcome = ToSoftware | ToHardware(backend: Backend) | PacketRefused

  datatype Sent = Sent(decoder: Decoder, flags: Flags, ops: seq<Op>, opens: seq<Open>, outcome: Outcome)

  predicate DecoderOk(d: Decoder) {
    d.pending.Some? ==>
      && d.active.Software?
      && ProbeOk(d.pending.value.backends, d.pending.value.probe)
  }

  function NewDecoder(backends: seq<Backend>, required: bool): Decoder {
    Decoder(Software, Some(Pending(backends, required, FRESH)))
  }

  function OutcomeOf(active: Active): Outcome {
    match active
    case Software => ToSoftware
    case Hardware(b) => ToHardware(b)
    case Refused => PacketRefused
  }

  // What a verdict makes of the decoder.
  function Decided(p: Pending, t: Turn): Decoder
    requires t.verdict.Some?
  {
    match t.verdict.value
    case Wait => Decoder(Software, Some(p.(probe := t.probe)))
    case Switch(b) => Decoder(Hardware(b), None)
    case _ => Decoder(if p.required then Refused else Software, None)
  }

  function SentPacket(d: Decoder, flags: Flags, host: Host, packet: seq<byte>): (sent: Sent)
    requires DecoderOk(d)
    ensures DecoderOk(sent.decoder)
  {
    if d.pending.None? || packet == [] then Sent(d, flags, [], [], OutcomeOf(d.active))
    else
      var p := d.pending.value;
      var t := Advanced(p.backends, p.probe, flags, host, packet);
      var d' := Decided(p, t);
      Sent(d', t.flags, t.ops, t.opens, OutcomeOf(d'.active))
  }

  // -------------------------------------------------------------------------
  // The same, as the program runs it
  // -------------------------------------------------------------------------

  // The process-wide flags, and the opens that were spawned.
  class Shared {
    var claims: set<Backend>
    var wedged: set<Backend>
    var opens: seq<Open>

    constructor ()
      ensures Value() == Flags({}, {}) && opens == []
    {
      claims, wedged, opens := {}, {}, [];
    }

    function Value(): Flags
      reads this
    {
      Flags(claims, wedged)
    }
  }

  class PendingHw {
    const backends: seq<Backend>
    const required: bool
    var probe: Probe

    constructor (backends: seq<Backend>, required: bool)
      ensures this.backends == backends && this.required == required && probe == FRESH
    {
      this.backends, this.required := backends, required;
      probe := FRESH;
    }

    function Value(): Pending
      reads this
    {
      Pending(backends, required, probe)
    }

    method Advance(shared: Shared, host: Host, au: seq<byte>) returns (verdict: Verdict)
      requires ProbeOk(backends, probe)
      modifies this, shared
      ensures var t := Advanced(backends, old(probe), old(shared.Value()), host, au);
              && probe == t.probe && shared.Value() == t.flags
              && shared.opens == old(shared.opens) + t.opens
              && verdict == t.verdict.value
    {
      match probe {
        case Gathering(held_sps, held_pps, left) =>
          var sps, pps := ParameterSets(au);
          if sps.None? { sps := held_sps; }
          if pps.None? { pps := held_pps; }
          if sps.Some? && pps.Some? {
            probe := Claiming(ExtradataFrom(sps.value, pps.value), 0);
          } else {
            probe := Gathering(sps, pps, left - 1);
            return if left - 1 == 0 then Settle else Wait;
          }
        case _ =>
      }
      verdict := Loop(shared, host, au);
    }

    method Loop(shared: Shared, host: Host, au: seq<byte>) returns (verdict: Verdict)
      requires !probe.Gathering? && ProbeOk(backends, probe)
      modifies this, shared
      ensures var t := Iterate(backends, old(probe), old(shared.Value()), host, au);
              && probe == t.probe && shared.Value() == t.flags
              && shared.opens == old(shared.opens) + t.opens
              && verdict == t.verdict.value
    {
      // What is still to come.
      ghost var rest := Iterate(backends, probe, shared.Value(), host, au);
      ghost var whole := rest;
      var decided := None;
      while decided.None?
        invariant decided.None? ==> !probe.Gathering? && ProbeOk(backends, probe)
        invariant decided.None? ==> rest == Iterate(backends, probe, shared.Value(), host, au)
        invariant decided.Some? ==> rest == Turn(probe, shared.Value(), rest.ops, [], decided)
        invariant whole == Turn(rest.probe, rest.flags, whole.ops, whole.opens, rest.verdict)
        invariant old(shared.opens) + whole.opens == shared.opens + rest.opens
        decreases decided.None?, Left(decided, backends, probe), StageLeft(probe)
      {
        rest := RestAfter(backends, probe, shared.Value(), host, au, shared.opens);
        decided := Round(shared, host, au);
      }
      verdict := decided.value;
    }

    method Round(shared: Shared, host: Host, au: seq<byte>) returns (decided: Option<Verdict>)
      requires !probe.Gathering? && ProbeOk(backends, probe)
      modifies this, shared
      ensures var t := OneTurn(backends, old(probe), old(shared.Value()), host, au);
              && probe == t.probe && shared.Value() == t.flags
              && shared.opens == old(shared.opens) + t.opens
              && decided == t.verdict
    {
      var state := probe;
      probe := FRESH;
      match state {
        case Claiming(extradata, next) => decided := Claim(shared, host, extradata, next);
        case Opening(extradata, current, started) => decided := PollOpen(shared, host, extradata, current, started);
        case Ready(b) =>
          if ContainsIdr(au) {
            decided := Some(Switch(b));
          } else {
            probe := Ready(b);
            decided := Some(Wait);
          }
      }
    }

    // The turn of `backends[next]`, if there is one.
    method Claim(shared: Shared, host: Host, extradata: seq<byte>, next: nat) returns (decided: Option<Verdict>)
      requires next <= |backends| && probe == FRESH
      modifies this, shared
      ensures var t := OneTurn(backends, Claiming(extradata, next), old(shared.Value()), host, []);
              && probe == t.probe && shared.Value() == t.flags
              && shared.opens == old(shared.opens) + t.opens
              && decided == t.verdict
    {
      if next == |backends| { return Some(Settle); }
      var b := backends[next];
      if b in shared.wedged {
        probe := Claiming(extradata, next + 1);
        return None;
      }
      if b in shared.claims {
        probe := Claiming(extradata, next);
        return Some(Wait);
      }
      ghost var before := shared.claims;
      shared.claims := shared.claims + {b};
      if !host.starts(next) {
        shared.claims := shared.claims - {b};
        assert shared.claims == before;
        return Some(Abandon);
      }
      shared.opens := shared.opens + [Open(next, b, extradata)];
      probe := Opening(extradata, next, host.startedAt(next));
      return None;
    }

    // One look at the open thread's channel.
    method PollOpen(shared: Shared, host: Host, extradata: seq<byte>, current: nat, started: int)
      returns (decided: Option<Verdict>)
      requires current < |backends| && probe == FRESH
      modifies this, shared
      ensures var t := OneTurn(backends, Opening(extradata, current, started), old(shared.Value()), host, []);
              && probe == t.probe && shared.Value() == t.flags
              && shared.opens == old(shared.opens) + t.opens
              && decided == t.verdict
    {
      var b := backends[current];
      match host.poll(current) {
        case Opened =>
          shared.claims := shared.claims - {b};
          probe := Ready(b);
          return None;
        case Silent =>
          if host.polledAt(current) - started < HW_OPEN_DEADLINE {
            probe := Opening(extradata, current, started);
            return Some(Wait);
          }
          // Latched before the claim drops.
          shared.wedged := shared.wedged + {b};
        case _ =>
      }
      shared.claims := shared.claims - {b};
      probe := Claiming(extradata, current + 1);
      return None;
    }
  }

  class DeferredHwDecoder {
    var active: Active
    var pending: PendingHw?

    constructor (backends: seq<Backend>, required: bool)
      ensures Value() == NewDecoder(backends, required) && DecoderOk(Value())
      ensures pending != null && fresh(pending)
    {
      active := Software;
      pending := new PendingHw(backends, required);
    }

    function Value(): Decoder
      reads this, pending
    {
      Decoder(active, if pending == null then None else Some(pending.Value()))
    }

    method SendPacket(shared: Shared, host: Host, packet: seq<byte>) returns (outcome: Outcome)
      requires DecoderOk(Value())
      modifies this, pending, shared
      ensures var sent := SentPacket(old(Value()), old(shared.Value()), host, packet);
              && Value() == sent.decoder && shared.Value() == sent.flags
              && shared.opens == old(shared.opens) + sent.opens
              && outcome == sent.outcome
      ensures pending == old(pending) || pending == null
    {
      if pending != null && packet != [] {
        Consider(shared, host, packet);
      }
      outcome := OutcomeOf(active);
    }

    // Advance the probe against one access unit.
    method Consider(shared: Shared, host: Host, au: seq<byte>)
      requires pending != null && au != [] && DecoderOk(Value())
      modifies this, pending, shared
      ensures var sent := SentPacket(old(Value()), old(shared.Value()), host, au);
              && Value() == sent.decoder && shared.Value() == sent.flags
              && shared.opens == old(shared.opens) + sent.opens
      ensures pending == old(pending) || pending == null
    {
      var probing := pending;
      pending := null;
      var verdict := probing.Advance(shared, host, au);
      match verdict
      case Wait => pending := probing;
      case Switch(b) => active := Hardware(b);
      case _ => SettleOnSoftware(probing.required);
    }

    // The probe is over without a hardware decoder.
    method SettleOnSoftware(required: bool)
      modifies this`active
      ensures active == if required then Refused else old(active)
    {
      if required {
        active := Refused;
      }
    }
  }

  function Left(decided: Option<Verdict>, backends: seq<Backend>, probe: Probe): nat
    requires decided.None? ==> ProbeOk(backends, probe)
  {
    if decided.None? then BackendsLeft(backends, probe) else 0
  }

  // What is left of an iteration after its first turn.
  lemma RestAfter(backends: seq<Backend>, probe: Probe, flags: Flags, host: Host, au: seq<byte>, opens: seq<Open>)
    returns (rest: Turn)
    requires !probe.Gathering? && ProbeOk(backends, probe)
    ensures var t := OneTurn(backends, probe, flags, host, au);
            var whole := Iterate(backends, probe, flags, host, au);
            && (t.verdict.None? ==>
                  && rest == Iterate(backends, t.probe, t.flags, host, au)
                  && (BackendsLeft(backends, t.probe) < BackendsLeft(backends, probe)
                      || (BackendsLeft(backends, t.probe) == BackendsLeft(backends, probe)
                          && StageLeft(t.probe) < StageLeft(probe))))
            && (t.verdict.Some? ==> rest == t.(opens := []))
            && whole == Turn(rest.probe, rest.flags, whole.ops, whole.opens, rest.verdict)
            && opens + whole.opens == opens + t.opens + rest.opens
  {
    var t := OneTurn(backends, probe, flags, host, au);
    if t.verdict.None? {
      rest := Iterate(backends, t.probe, t.flags, host, au);
      assert opens + (t.opens + rest.opens) == opens + t.opens + rest.opens;
    } else {
      rest := t.(opens := []);
    }
  }

  // -------------------------------------------------------------------------
  // Every call is a run of the claim protocol
  // -------------------------------------------------------------------------

  // Where the probe leaves its caller between turns.
  function PhaseIn(backends: seq<Backend>, probe: Probe): Phase
    requires ProbeOk(backends, probe)
  {
    if probe.Opening? then Probing(backends[probe.current]) else Away
  }

  function EventsOf(i: Caller, ops: seq<Op>): (events: seq<Event>)
    ensures |events| == |ops|
  {
    if ops == [] then [] else [Event(i, ops[0])] + EventsOf(i, ops[1..])
  }

  // From `s`, caller `i` can perform `ops` in order, ending in phase `p` with
  // the flags at `flags`, every other caller where it was.
  ghost predicate Performs(s: System, i: Caller, ops: seq<Op>, p: Phase, flags: Flags) {
    && IsRun(s, EventsOf(i, ops))
    && Final(s, EventsOf(i, ops)).flags == flags
    && PhaseOf(Final(s, EventsOf(i, ops)), i) == p
    && forall j :: j != i ==> PhaseOf(Final(s, EventsOf(i, ops)), j) == PhaseOf(s, j)
  }

  lemma PerformsNothing(s: System, i: Caller)
    ensures Performs(s, i, [], PhaseOf(s, i), s.flags)
  {
  }

  lemma PerformsFirst(s: System, i: Caller, op: Op, ops: seq<Op>, p: Phase, flags: Flags)
    requires CanStep(s, Event(i, op)) && Performs(Step(s, Event(i, op)), i, ops, p, flags)
    ensures Performs(s, i, [op] + ops, p, flags)
  {
    assert ([op] + ops)[1..] == ops;
    var events := EventsOf(i, [op] + ops);
    assert events == [Event(i, op)] + EventsOf(i, ops);
    assert events[1..] == EventsOf(i, ops);
    PhasesAfter(s, Event(i, op));
  }

  lemma {:induction false} PerformsAppend(s: System, i: Caller, ops: seq<Op>, ops': seq<Op>, p: Phase, flags: Flags,
                                          p': Phase, flags': Flags)
    requires Performs(s, i, ops, p, flags)
    requires Performs(Final(s, EventsOf(i, ops)), i, ops', p', flags')
    ensures Performs(s, i, ops + ops', p', flags')
    decreases |ops|
  {
    if ops == [] {
      assert ops + ops' == ops';
    } else {
      var e := Event(i, ops[0]);
      assert EventsOf(i, ops)[1..] == EventsOf(i, ops[1..]);
      PhasesAfter(s, e);
      PerformsAppend(Step(s, e), i, ops[1..], ops', p, flags, p', flags');
      PerformsFirst(s, i, ops[0], ops[1..] + ops', p', flags');
      assert [ops[0]] + (ops[1..] + ops') == ops + ops';
    }
  }

  lemma PerformsOne(s: System, i: Caller, op: Op)
    requires CanStep(s, Event(i, op))
    ensures Performs(s, i, [op], Next(PhaseOf(s, i), op).value, Effect(s.flags, op))
  {
    var s' := Step(s, Event(i, op));
    PhasesAfter(s, Event(i, op));
    PerformsNothing(s', i);
    PerformsFirst(s, i, op, [], PhaseOf(s', i), s'.flags);
    assert [op] + [] == [op];
  }

  lemma TurnPerforms(backends: seq<Backend>, probe: Probe, host: Host, au: seq<byte>, s: System, i: Caller)
    requires !probe.Gathering? && ProbeOk(backends, probe)
    requires PhaseOf(s, i) == PhaseIn(backends, probe)
    requires probe.Opening? ==> backends[probe.current] in s.flags.claims
    ensures var t := OneTurn(backends, probe, s.flags, host, au);
            ProbeOk(backends, t.probe) && Performs(s, i, t.ops, PhaseIn(backends, t.probe), t.flags)
  {
    var t := OneTurn(backends, probe, s.flags, host, au);
    match probe
    case Claiming(extradata, next) =>
      if next == |backends| {
        PerformsNothing(s, i);
      } else {
        ClaimPerforms(backends, extradata, next, host, au, s, i);
      }
    case Opening(extradata, current, started) =>
      var b := backends[current];
      if t.ops == [] {
        PerformsNothing(s, i);
      } else if t.ops == [Release(b)] {
        PerformsOne(s, i, Release(b));
      } else {
        var latched := Step(s, Event(i, Latch(b)));
        PhasesAfter(s, Event(i, Latch(b)));
        PerformsOne(latched, i, Release(b));
        PerformsFirst(s, i, Latch(b), [Release(b)], Away, t.flags);
        assert [Latch(b)] + [Release(b)] == t.ops;
      }
    case Ready(b) => PerformsNothing(s, i);
  }

  lemma ClaimPerforms(backends: seq<Backend>, extradata: seq<byte>, next: nat, host: Host, au: seq<byte>,
                      s: System, i: Caller)
    requires next < |backends| && PhaseOf(s, i) == Away
    ensures var t := OneTurn(backends, Claiming(extradata, next), s.flags, host, au);
            ProbeOk(backends, t.probe) && Performs(s, i, t.ops, PhaseIn(backends, t.probe), t.flags)
  {
    var b := backends[next];
    var t := OneTurn(backends, Claiming(extradata, next), s.flags, host, au);
    if b in s.flags.wedged {
      PerformsOne(s, i, LoadWedged(b, true));
    } else {
      var load := Event(i, LoadWedged(b, false));
      var checked := Step(s, load);
      PhasesAfter(s, load);
      if b in s.flags.claims {
        assert s.flags.claims + {b} == s.flags.claims;
        PerformsOne(checked, i, TakeClaim(b, false));
        PerformsFirst(s, i, load.op, [TakeClaim(b, false)], Away, t.flags);
        assert [load.op] + [TakeClaim(b, false)] == t.ops;
      } else {
        var take := Event(i, TakeClaim(b, true));
        var claimed := Step(checked, take);
        PhasesAfter(checked, take);
        var last := if host.starts(next) then Spawn(b) else Release(b);
        var p := if host.starts(next) then Probing(b) else Away;
        assert s.flags.claims + {b} - {b} == s.flags.claims;
        PerformsOne(claimed, i, last);
        PerformsFirst(checked, i, take.op, [last], p, t.flags);
        PerformsFirst(s, i, load.op, [take.op] + [last], p, t.flags);
        assert [load.op] + ([take.op] + [last]) == t.ops;
      }
    }
  }

  lemma {:induction false} IteratePerforms(backends: seq<Backend>, probe: Probe, host: Host, au: seq<byte>,
                                           s: System, i: Caller)
    requires !probe.Gathering? && ProbeOk(backends, probe) && ClaimsAreHeld(s)
    requires PhaseOf(s, i) == PhaseIn(backends, probe)
    ensures var t := Iterate(backends, probe, s.flags, host, au);
            && Performs(s, i, t.ops, if t.verdict == Some(Wait) then PhaseIn(backends, t.probe) else Away, t.flags)
    decreases BackendsLeft(backends, probe), StageLeft(probe)
  {
    var t := OneTurn(backends, probe, s.flags, host, au);
    assert probe.Opening? ==> Held(s, backends[probe.current]) by {
      if probe.Opening? { assert Holds(PhaseOf(s, i), backends[probe.current]); }
    }
    TurnPerforms(backends, probe, host, au, s, i);
    if t.verdict.None? {
      var s' := Final(s, EventsOf(i, t.ops));
      ExclusiveClaims(s, EventsOf(i, t.ops));
      IteratePerforms(backends, t.probe, host, au, s', i);
      var rest := Iterate(backends, t.probe, t.flags, host, au);
      var p := if rest.verdict == Some(Wait) then PhaseIn(backends, rest.probe) else Away;
      PerformsAppend(s, i, t.ops, rest.ops, PhaseIn(backends, t.probe), t.flags, p, rest.flags);
    }
  }

  function DecoderPhase(d: Decoder): Phase
    requires DecoderOk(d)
  {
    if d.pending.Some? then PhaseIn(d.pending.value.backends, d.pending.value.probe) else Away
  }

  // One packet sent to one decoder is a run of the protocol by that caller
  // alone, from between calls to between calls.
  lemma PacketPerforms(d: Decoder, host: Host, packet: seq<byte>, s: System, i: Caller)
    requires DecoderOk(d) && ClaimsAreHeld(s) && PhaseOf(s, i) == DecoderPhase(d)
    ensures var sent := SentPacket(d, s.flags, host, packet);
            Performs(s, i, sent.ops, DecoderPhase(sent.decoder), sent.flags)
  {
    if d.pending.None? || packet == [] {
      PerformsNothing(s, i);
    } else {
      var p := d.pending.value;
      if !p.probe.Gathering? {
        IteratePerforms(p.backends, p.probe, host, packet, s, i);
      } else {
        var sps := OrElse(LastOfType(Nals(packet), SPS), p.probe.sps);
        var pps := OrElse(LastOfType(Nals(packet), PPS), p.probe.pps);
        if sps.Some? && pps.Some? {
          IteratePerforms(p.backends, Claiming(ExtradataFrom(sps.value, pps.value), 0), host, packet, s, i);
        } else {
          PerformsNothing(s, i);
        }
      }
    }
  }

  // -------------------------------------------------------------------------
  // A fleet of cameras on one process
  // -------------------------------------------------------------------------

  datatype Fleet = Fleet(flags: Flags, cameras: map<Caller, Decoder>)

  datatype Action =
    | Join(camera: Caller, backends: seq<Backend>, required: bool)
    | Packet(camera: Caller, packet: seq<byte>, host: Host)
    | Leave(camera: Caller)

  ghost predicate FleetOk(f: Fleet) { forall i :: i in f.cameras ==> DecoderOk(f.cameras[i]) }

  ghost predicate Enabled(f: Fleet, a: Action) {
    match a
    case Join(i, _, _) => i !in f.cameras
    case Packet(i, _, _) => i in f.cameras
    case Leave(i) => i in f.cameras
  }

  // Dropping a decoder in the middle of an open drops its claim with it.
  ghost function Acted(f: Fleet, a: Action): Fleet
    requires FleetOk(f) && Enabled(f, a)
  {
    match a
    case Join(i, backends, required) => f.(cameras := f.cameras[i := NewDecoder(backends, required)])
    case Packet(i, packet, host) =>
      var sent := SentPacket(f.cameras[i], f.flags, host, packet);
      Fleet(sent.flags, f.cameras[i := sent.decoder])
    case Leave(i) =>
      var p := DecoderPhase(f.cameras[i]);
      Fleet(if p.Probing? then f.flags.(claims := f.flags.claims - {p.backend}) else f.flags, f.cameras - {i})
  }

  ghost function OpensOf(f: Fleet, a: Action): seq<Open>
    requires FleetOk(f) && Enabled(f, a)
  {
    if a.Packet? then SentPacket(f.cameras[a.camera], f.flags, a.host, a.packet).opens else []
  }

  ghost function CameraPhase(f: Fleet, i: Caller): Phase
    requires FleetOk(f)
  {
    if i in f.cameras then DecoderPhase(f.cameras[i]) else Away
  }

  // The fleet between calls, seen as a state of the protocol.
  ghost predicate Mirrors(s: System, f: Fleet)
    requires FleetOk(f)
  {
    s.flags == f.flags && forall i :: PhaseOf(s, i) == CameraPhase(f, i)
  }

  ghost predicate FleetClaimsHeld(f: Fleet)
    requires FleetOk(f)
  {
    && (forall b :: b in f.flags.claims <==> exists i :: CameraPhase(f, i) == Probing(b))
    && (forall b, i, j :: CameraPhase(f, i) == Probing(b) && CameraPhase(f, j) == Probing(b) ==> i == j)
  }

  lemma ActionKeepsMirror(s: System, f: Fleet, a: Action) returns (s': System)
    requires FleetOk(f) && Enabled(f, a) && Mirrors(s, f) && ClaimsAreHeld(s)
    ensures FleetOk(Acted(f, a)) && Mirrors(s', Acted(f, a)) && ClaimsAreHeld(s')
  {
    match a
    case Join(i, backends, required) => s' := s;
    case Packet(i, packet, host) =>
      var d := f.cameras[i];
      assert PhaseOf(s, i) == CameraPhase(f, i);
      PacketPerforms(d, host, packet, s, i);
      var sent := SentPacket(d, f.flags, host, packet);
      s' := Final(s, EventsOf(i, sent.ops));
      ExclusiveClaims(s, EventsOf(i, sent.ops));
      forall j ensures PhaseOf(s', j) == CameraPhase(Acted(f, a), j) {
        assert PhaseOf(s, j) == CameraPhase(f, j);
      }
    case Leave(i) =>
      var p := DecoderPhase(f.cameras[i]);
      assert PhaseOf(s, i) == CameraPhase(f, i);
      if p.Probing? {
        var e := Event(i, Release(p.backend));
        s' := Step(s, e);
        StepKeepsClaims(s, e);
        PhasesAfter(s, e);
        forall j ensures PhaseOf(s', j) == CameraPhase(Acted(f, a), j) {
          assert PhaseOf(s, j) == CameraPhase(f, j);
        }
      } else {
        s' := s;
        forall j ensures PhaseOf(s', j) == CameraPhase(Acted(f, a), j) {
          assert PhaseOf(s, j) == CameraPhase(f, j);
        }
      }
  }

  ghost predicate IsFleetRun(f: Fleet, actions: seq<Action>)
    decreases |actions|
  {
    && FleetOk(f)
    && (actions != [] ==> Enabled(f, actions[0]) && IsFleetRun(Acted(f, actions[0]), actions[1..]))
  }

  ghost function FleetFinal(f: Fleet, actions: seq<Action>): Fleet
    requires IsFleetRun(f, actions)
    decreases |actions|
  {
    if actions == [] then f else FleetFinal(Acted(f, actions[0]), actions[1..])
  }

  lemma {:induction false} FleetRunMirrors(s: System, f: Fleet, actions: seq<Action>) returns (s': System)
    requires IsFleetRun(f, actions) && Mirrors(s, f) && ClaimsAreHeld(s)
    ensures FleetOk(FleetFinal(f, actions)) && Mirrors(s', FleetFinal(f, actions)) && ClaimsAreHeld(s')
    decreases |actions|
  {
    s' := s;
    if actions != [] {
      s' := ActionKeepsMirror(s, f, actions[0]);
      s' := FleetRunMirrors(s', Acted(f, actions[0]), actions[1..]);
    }
  }

  // However cameras join, decode and are dropped: a backend's claim is set
  // exactly while one camera's probe has an open of it running.
  lemma FleetClaims(actions: seq<Action>)
    requires IsFleetRun(Fleet(Flags({}, {}), map[]), actions)
    ensures FleetOk(FleetFinal(Fleet(Flags({}, {}), map[]), actions))
    ensures FleetClaimsHeld(FleetFinal(Fleet(Flags({}, {}), map[]), actions))
  {
    var s := FleetRunMirrors(INITIAL, Fleet(Flags({}, {}), map[]), actions);
    var f := FleetFinal(Fleet(Flags({}, {}), map[]), actions);
    forall b ensures b in f.flags.claims <==> exists i :: CameraPhase(f, i) == Probing(b) {
      HolderIsProbing(s, f, b);
    }
    forall b, i, j | CameraPhase(f, i) == Probing(b) && CameraPhase(f, j) == Probing(b) ensures i == j {
      assert Holds(PhaseOf(s, i), b) && Holds(PhaseOf(s, j), b);
    }
  }

  lemma HolderIsProbing(s: System, f: Fleet, b: Backend)
    requires FleetOk(f) && Mirrors(s, f) && ClaimsAreHeld(s)
    ensures b in f.flags.claims <==> exists i :: CameraPhase(f, i) == Probing(b)
  {
    if b in f.flags.claims {
      assert Held(s, b);
      var i :| Holds(PhaseOf(s, i), b);
      assert CameraPhase(f, i) == Probing(b);
    }
    if i :| CameraPhase(f, i) == Probing(b) {
      assert Holds(PhaseOf(s, i), b);
    }
  }

  lemma {:induction false} OpensAvoidLatched(backends: seq<Backend>, probe: Probe, flags: Flags, host: Host, au: seq<byte>)
    requires !probe.Gathering? && ProbeOk(backends, probe)
    ensures var t := Iterate(backends, probe, flags, host, au);
            && flags.wedged <= t.flags.wedged
            && forall o :: o in t.opens ==> o.backend !in flags.wedged
    decreases BackendsLeft(backends, probe), StageLeft(probe)
  {
    var t := OneTurn(backends, probe, flags, host, au);
    if t.verdict.None? {
      OpensAvoidLatched(backends, t.probe, t.flags, host, au);
    }
  }

  // Once a backend is latched, no packet of any camera opens it again.
  lemma {:induction false} FleetNeverReopens(f: Fleet, actions: seq<Action>, b: Backend)
    requires IsFleetRun(f, actions) && b in f.flags.wedged
    ensures b in FleetFinal(f, actions).flags.wedged
    ensures forall k, o :: 0 <= k < |actions| && o in FleetOpens(f, actions)[k] ==> o.backend != b
    decreases |actions|
  {
    if actions != [] {
      PacketAvoidsLatched(f, actions[0]);
      FleetNeverReopens(Acted(f, actions[0]), actions[1..], b);
    }
  }

  ghost function FleetOpens(f: Fleet, actions: seq<Action>): (opens: seq<seq<Open>>)
    requires IsFleetRun(f, actions)
    ensures |opens| == |actions|
    decreases |actions|
  {
    if actions == [] then []
    else [OpensOf(f, actions[0])] + FleetOpens(Acted(f, actions[0]), actions[1..])
  }

  lemma PacketAvoidsLatched(f: Fleet, a: Action)
    requires FleetOk(f) && Enabled(f, a)
    ensures f.flags.wedged <= Acted(f, a).flags.wedged
    ensures forall o :: o in OpensOf(f, a) ==> o.backend !in f.flags.wedged
  {
    if a.Packet? {
      var d := f.cameras[a.camera];
      if d.pending.Some? && a.packet != [] {
        var p := d.pending.value;
        if !p.probe.Gathering? {
          OpensAvoidLatched(p.backends, p.probe, f.flags, a.host, a.packet);
        } else {
          var sps := OrElse(LastOfType(Nals(a.packet), SPS), p.probe.sps);
          var pps := OrElse(LastOfType(Nals(a.packet), PPS), p.probe.pps);
          if sps.Some? && pps.Some? {
            OpensAvoidLatched(p.backends, Claiming(ExtradataFrom(sps.value, pps.value), 0), f.flags, a.host, a.packet);
          }
        }
      }
    }
  }
}
