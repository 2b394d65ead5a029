/**
 The callers of the hardware probes at the grain of their own atomic
 operations: cameras in the middle of a packet and blocking opens, all in one
 process. A step is one load, compare-exchange, store or thread start, or
 touches nothing shared.
 */
module ProbeSteps {
  import opened Common
  import opened AnnexB
  import opened ClaimProtocol
  import opened HwProbe
  import opened EagerOpen

  // -------------------------------------------------------------------------
  // One caller
  // -------------------------------------------------------------------------

  // A caller between two of its steps: a camera between packets, or somewhere
  // in the probe's loop with a packet in hand; or a blocking open.
  datatype Proc =
    | Resting(d: Decoder)
    | Looking(p: Pending, au: seq<byte>)
    | Taking(p: Pending, au: seq<byte>)
    | Starting(p: Pending, au: seq<byte>)
    | Latching(p: Pending, au: seq<byte>)
    | Dropping(p: Pending, au: seq<byte>, held: Phase, next: Option<Probe>)
    | EagerLooking(b: Backend)
    | EagerTaking(b: Backend)
    | EagerPausing(b: Backend)
    | EagerStarting(b: Backend)
    | EagerWaiting(b: Backend)
    | EagerLatching(b: Backend)
    | EagerDropping(b: Backend, held: Phase, r: EagerResult)
    | EagerDone(r: EagerResult)

  // What one step learns from outside the flags.
  datatype Saw = Saw(packet: seq<byte>, starts: bool, at: int, poll: Poll)

  datatype Moved = Moved(to: Proc, op: Option<Op>)

  // The backend a probe is on.
  function Target(p: Pending): Backend
    requires OnBackend(p)
  {
    if p.probe.Claiming? then p.backends[p.probe.next] else p.backends[p.probe.current]
  }

  predicate OnBackend(p: Pending) {
    match p.probe
    case Claiming(_, next) => next < |p.backends|
    case Opening(_, current, _) => current < |p.backends|
    case _ => false
  }

  predicate Running(p: Pending) { !p.probe.Gathering? && ProbeOk(p.backends, p.probe) }

  predicate ProcOk(c: Proc) {
    match c
    case Resting(d) => DecoderOk(d)
    case Looking(p, _) => Running(p)
    case Taking(p, _) => p.probe.Claiming? && OnBackend(p)
    case Starting(p, _) => p.probe.Claiming? && OnBackend(p)
    case Latching(p, _) => p.probe.Opening? && OnBackend(p)
    case Dropping(p, _, held, next) =>
      OnBackend(p) && Holds(held, Target(p)) && (next.Some? ==> Running(p.(probe := next.value)) && !next.value.Opening?)
    case EagerDropping(b, held, _) => Holds(held, b)
    case _ => true
  }

  // Where the caller stands in the claim protocol.
  function ProcPhase(c: Proc): Phase
    requires ProcOk(c)
  {
    match c
    case Resting(d) => DecoderPhase(d)
    case Looking(p, _) => PhaseIn(p.backends, p.probe)
    case Taking(p, _) => Checked(Target(p))
    case Starting(p, _) => Claimed(Target(p))
    case Latching(p, _) => Probing(Target(p))
    case Dropping(_, _, held, _) => held
    case EagerLooking(_) => Away
    case EagerTaking(b) => Checked(b)
    case EagerPausing(_) => Away
    case EagerStarting(b) => Claimed(b)
    case EagerWaiting(b) => Probing(b)
    case EagerLatching(b) => Probing(b)
    case EagerDropping(_, held, _) => held
    case EagerDone(_) => Away
  }

  function Waiting(p: Pending): Proc { Resting(Decoder(Software, Some(p))) }

  function Settled(p: Pending): Proc { Resting(Decoder(if p.required then Refused else Software, None)) }

  function Receives(d: Decoder, packet: seq<byte>): (c: Proc)
    requires DecoderOk(d)
    ensures ProcOk(c)
  {
    if d.pending.None? || packet == [] then Resting(d)
    else
      var p := d.pending.value;
      if !p.probe.Gathering? then Looking(p, packet)
      else
        var sps := OrElse(LastOfType(Nals(packet), SPS), p.probe.sps);
        var pps := OrElse(LastOfType(Nals(packet), PPS), p.probe.pps);
        if sps.Some? && pps.Some? then
          Looking(p.(probe := Claiming(ExtradataFrom(sps.value, pps.value), 0)), packet)
        else if p.probe.ausLeft == 1 then Settled(p)
        else Waiting(p.(probe := Gathering(sps, pps, p.probe.ausLeft - 1)))
  }

  // The head of the probe's loop.
  function Looks(p: Pending, au: seq<byte>, f: Flags, saw: Saw): (m: Moved)
    requires Running(p)
    ensures ProcOk(m.to)
  {
    match p.probe
    case Claiming(extradata, next) =>
      if next == |p.backends| then Moved(Settled(p), None)
      else
        var b := p.backends[next];
        if b in f.wedged then Moved(Looking(p.(probe := Claiming(extradata, next + 1)), au), Some(LoadWedged(b, true)))
        else Moved(Taking(p, au), Some(LoadWedged(b, false)))
    case Opening(extradata, current, started) =>
      var held, failed := Probing(p.backends[current]), Claiming(extradata, current + 1);
      (match saw.poll
       case Opened => Moved(Dropping(p, au, held, Some(Ready(p.backends[current]))), None)
       case Silent =>
         Moved(if saw.at - started < HW_OPEN_DEADLINE then Waiting(p) else Latching(p, au), None)
       case _ => Moved(Dropping(p, au, held, Some(failed)), None))
    case Ready(b) => Moved(if ContainsIdr(au) then Resting(Decoder(Hardware(b), None)) else Waiting(p), None)
  }

  // One step of any caller.
  function Moves(c: Proc, f: Flags, saw: Saw): (m: Moved)
    requires ProcOk(c)
    ensures ProcOk(m.to)
  {
    match c
    case Resting(d) => Moved(Receives(d, saw.packet), None)
    case Looking(p, au) => Looks(p, au, f, saw)
    case Taking(p, au) =>
      var b := Target(p);
      if b in f.claims then Moved(Waiting(p), Some(TakeClaim(b, false)))
      else Moved(Starting(p, au), Some(TakeClaim(b, true)))
    case Starting(p, au) =>
      if saw.starts then Moved(Looking(p.(probe := Opening(p.probe.extradata, p.probe.next, saw.at)), au), Some(Spawn(Target(p))))
      else Moved(Dropping(p, au, Claimed(Target(p)), None), None)
    case Latching(p, au) =>
      var failed := Claiming(p.probe.extradata, p.probe.current + 1);
      Moved(Dropping(p, au, Latched(Target(p)), Some(failed)), Some(Latch(Target(p))))
    case Dropping(p, au, _, next) =>
      Moved(if next.None? then Settled(p) else Looking(p.(probe := next.value), au), Some(Release(Target(p))))
    case EagerLooking(b) =>
      if b in f.wedged then Moved(EagerDone(AlreadyWedged), Some(LoadWedged(b, true)))
      else Moved(EagerTaking(b), Some(LoadWedged(b, false)))
    case EagerTaking(b) =>
      if b in f.claims then Moved(EagerPausing(b), Some(TakeClaim(b, false)))
      else Moved(EagerStarting(b), Some(TakeClaim(b, true)))
    case EagerPausing(b) => Moved(if saw.at >= BUDGET then EagerDone(BackendBusy) else EagerLooking(b), None)
    case EagerStarting(b) =>
      if saw.starts then Moved(EagerWaiting(b), Some(Spawn(b)))
      else Moved(EagerDropping(b, Claimed(b), NotStarted), None)
    case EagerWaiting(b) =>
      Moved(if saw.poll.Silent? then EagerLatching(b) else EagerDropping(b, Probing(b), Answer(saw.poll)), None)
    case EagerLatching(b) => Moved(EagerDropping(b, Latched(b), TimedOut), Some(Latch(b)))
    case EagerDropping(b, _, r) => Moved(EagerDone(r), Some(Release(b)))
    case EagerDone(_) => Moved(c, None)
  }

  function Listed(op: Option<Op>): seq<Op> { if op.Some? then [op.value] else [] }

  function FlagsAfter(f: Flags, op: Option<Op>): Flags { if op.Some? then Effect(f, op.value) else f }

  // Each step of a caller's code is one operation its phase allows, seeing
  // what is there, or no operation at all.
  lemma MoveIsProtocolStep(c: Proc, f: Flags, saw: Saw)
    requires ProcOk(c)
    ensures var m := Moves(c, f, saw);
            if m.op.None? then ProcPhase(m.to) == ProcPhase(c)
            else Next(ProcPhase(c), m.op.value) == Some(ProcPhase(m.to)) && Observes(f, m.op.value)
  {
  }

  // -------------------------------------------------------------------------
  // Uninterrupted, the steps of a packet are the packet's function
  // -------------------------------------------------------------------------

  // A caller, the flags it alone touches, and the operations it has done.
  datatype Local = Local(proc: Proc, flags: Flags, ops: seq<Op>)

  function Proceeds(x: Local, saw: Saw): Local {
    if !ProcOk(x.proc) then x
    else
      var m := Moves(x.proc, x.flags, saw);
      Local(m.to, FlagsAfter(x.flags, m.op), x.ops + Listed(m.op))
  }

  function RunOf<S, I>(step: (S, I) -> S, x: S, inputs: seq<I>): S
    decreases |inputs|
  {
    if inputs == [] then x else RunOf(step, step(x, inputs[0]), inputs[1..])
  }

  lemma {:induction false} RunsJoin<S, I>(step: (S, I) -> S, x: S, a: seq<I>, b: seq<I>)
    ensures RunOf(step, x, a + b) == RunOf(step, RunOf(step, x, a), b)
    decreases |a|
  {
    if a == [] {
      assert a + b == b;
    } else {
      RunsJoin(step, step(x, a[0]), a[1..], b);
      assert (a + b)[0] == a[0] && (a + b)[1..] == a[1..] + b;
    }
  }

  function Same<I>(i: I, n: nat): seq<I> { seq(n, _ => i) }

  lemma RunOfSame<S, I>(step: (S, I) -> S, x: S, i: I, n: nat)
    ensures RunOf(step, x, Same(i, n)) == if n == 0 then x else RunOf(step, step(x, i), Same(i, n - 1))
  {
    if n > 0 { assert Same(i, n)[1..] == Same(i, n - 1); }
  }

  // What the host answers, as a step of a probe on a backend sees it.
  function SawOn(host: Host, p: Pending): Saw
    requires Running(p)
  {
    match p.probe
    case Claiming(_, next) => Saw([], host.starts(next), host.startedAt(next), Silent)
    case Opening(_, current, _) => Saw([], false, host.polledAt(current), host.poll(current))
    case _ => Saw([], false, 0, Silent)
  }

  function Turned(p: Pending, au: seq<byte>, t: Turn, ops: seq<Op>): Local {
    Local(if t.verdict.None? then Looking(p.(probe := t.probe), au) else Resting(HwProbe.Decided(p, t)),
          t.flags, ops + t.ops)
  }

  // How many steps a turn takes.
  function Steps(p: Pending, f: Flags, host: Host): nat
    requires Running(p)
  {
    match p.probe
    case Claiming(_, next) =>
      if next == |p.backends| || p.backends[next] in f.wedged then 1
      else if p.backends[next] in f.claims then 2
      else if host.starts(next) then 3 else 4
    case Opening(_, current, started) =>
      (match host.poll(current)
       case Silent => if host.polledAt(current) - started < HW_OPEN_DEADLINE then 1 else 3
       case _ => 2)
    case Ready(_) => 1
  }

  lemma TurnAlone(p: Pending, au: seq<byte>, f: Flags, host: Host, ops: seq<Op>)
    requires Running(p)
    ensures RunOf(Proceeds, Local(Looking(p, au), f, ops), Same(SawOn(host, p), Steps(p, f, host)))
         == Turned(p, au, OneTurn(p.backends, p.probe, f, host, au), ops)
  {
    var saw, x := SawOn(host, p), Local(Looking(p, au), f, ops);
    match p.probe
    case Claiming(_, next) =>
      if next < |p.backends| && p.backends[next] !in f.wedged { TryAlone(p, au, f, host, ops); } else { OneStep(x, saw); }
    case Opening(_, _, _) => PollAlone(p, au, f, host, ops);
    case Ready(_) => OneStep(x, saw);
  }

  lemma OneStep(x: Local, saw: Saw)
    ensures RunOf(Proceeds, x, Same(saw, 1)) == Proceeds(x, saw)
  {
    RunOfSame(Proceeds, x, saw, 1);
    RunOfSame(Proceeds, Proceeds(x, saw), saw, 0);
  }

  lemma TwoSteps(x: Local, y: Local, saw: Saw)
    requires Proceeds(x, saw) == y
    ensures RunOf(Proceeds, x, Same(saw, 2)) == Proceeds(y, saw)
  {
    RunOfSame(Proceeds, x, saw, 2);
    OneStep(y, saw);
  }

  lemma ThreeSteps(x: Local, y: Local, z: Local, saw: Saw)
    requires Proceeds(x, saw) == y && Proceeds(y, saw) == z
    ensures RunOf(Proceeds, x, Same(saw, 3)) == Proceeds(z, saw)
  {
    RunOfSame(Proceeds, x, saw, 3);
    TwoSteps(y, z, saw);
  }

  lemma TryAlone(p: Pending, au: seq<byte>, f: Flags, host: Host, ops: seq<Op>)
    requires p.probe.Claiming? && OnBackend(p) && Target(p) !in f.wedged
    ensures RunOf(Proceeds, Local(Looking(p, au), f, ops), Same(SawOn(host, p), Steps(p, f, host)))
         == Turned(p, au, OneTurn(p.backends, p.probe, f, host, au), ops)
  {
    var b, saw, x := Target(p), SawOn(host, p), Local(Looking(p, au), f, ops);
    var y := Local(Taking(p, au), f, ops + [LoadWedged(b, false)]);
    assert Proceeds(x, saw) == y;
    if b in f.claims {
      assert f.claims + {b} == f.claims;
      TwoSteps(x, y, saw);
      assert ops + [LoadWedged(b, false)] + [TakeClaim(b, false)] == ops + [LoadWedged(b, false), TakeClaim(b, false)];
    } else {
      var taken := f.(claims := f.claims + {b});
      var z := Local(Starting(p, au), taken, y.ops + [TakeClaim(b, true)]);
      assert Proceeds(y, saw) == z;
      if host.starts(p.probe.next) {
        ThreeSteps(x, y, z, saw);
        assert y.ops + [TakeClaim(b, true)] + [Spawn(b)] == ops + [LoadWedged(b, false), TakeClaim(b, true), Spawn(b)];
      } else {
        var w := Local(Dropping(p, au, Claimed(b), None), taken, z.ops);
        assert z.ops + [] == z.ops && Proceeds(z, saw) == w;
        RunOfSame(Proceeds, x, saw, 4);
        ThreeSteps(y, z, w, saw);
        assert taken.claims - {b} == f.claims;
        assert y.ops + [TakeClaim(b, true)] + [Release(b)] == ops + [LoadWedged(b, false), TakeClaim(b, true), Release(b)];
      }
    }
  }

  lemma PollAlone(p: Pending, au: seq<byte>, f: Flags, host: Host, ops: seq<Op>)
    requires p.probe.Opening? && OnBackend(p)
    ensures RunOf(Proceeds, Local(Looking(p, au), f, ops), Same(SawOn(host, p), Steps(p, f, host)))
         == Turned(p, au, OneTurn(p.backends, p.probe, f, host, au), ops)
  {
    var b, saw, x := Target(p), SawOn(host, p), Local(Looking(p, au), f, ops);
    var failed := Claiming(p.probe.extradata, p.probe.current + 1);
    assert ops + [] == ops;
    if saw.poll.Silent? {
      if saw.at - p.probe.started < HW_OPEN_DEADLINE {
        OneStep(x, saw);
      } else {
        var y := Local(Latching(p, au), f, ops);
        var z := Local(Dropping(p, au, Latched(b), Some(failed)), f.(wedged := f.wedged + {b}), ops + [Latch(b)]);
        assert Proceeds(x, saw) == y && Proceeds(y, saw) == z;
        ThreeSteps(x, y, z, saw);
        assert ops + [Latch(b)] + [Release(b)] == ops + [Latch(b), Release(b)];
      }
    } else {
      var y := Local(Dropping(p, au, Probing(b), Some(if saw.poll.Opened? then Ready(b) else failed)), f, ops);
      assert Proceeds(x, saw) == y;
      TwoSteps(x, y, saw);
    }
  }

  lemma {:induction false} IterateAlone(p: Pending, au: seq<byte>, f: Flags, host: Host, ops: seq<Op>)
    returns (saws: seq<Saw>)
    requires Running(p)
    ensures RunOf(Proceeds, Local(Looking(p, au), f, ops), saws)
         == Turned(p, au, Iterate(p.backends, p.probe, f, host, au), ops)
    decreases BackendsLeft(p.backends, p.probe), StageLeft(p.probe)
  {
    var t := OneTurn(p.backends, p.probe, f, host, au);
    saws := Same(SawOn(host, p), Steps(p, f, host));
    TurnAlone(p, au, f, host, ops);
    if t.verdict.None? {
      var q := p.(probe := t.probe);
      var more := IterateAlone(q, au, t.flags, host, ops + t.ops);
      RunsJoin(Proceeds, Local(Looking(p, au), f, ops), saws, more);
      saws := saws + more;
      TurnsJoin(p, au, t, Iterate(p.backends, t.probe, t.flags, host, au), ops);
    }
  }

  lemma TurnsJoin(p: Pending, au: seq<byte>, t: Turn, rest: Turn, ops: seq<Op>)
    requires rest.verdict.Some?
    ensures Turned(p.(probe := t.probe), au, rest, ops + t.ops) == Turned(p, au, Preceded(t.ops, t.opens, rest), ops)
  {
    assert ops + t.ops + rest.ops == ops + (t.ops + rest.ops);
  }

  // Taking a packet in hand, then iterating, is the decoder's function.
  lemma ReceivedIsSent(d: Decoder, f: Flags, host: Host, packet: seq<byte>)
    requires DecoderOk(d)
    ensures var c, sent := Receives(d, packet), SentPacket(d, f, host, packet);
            var all := Local(Resting(sent.decoder), sent.flags, sent.ops);
            if c.Looking? then
              && Running(c.p) && c.au == packet
              && Turned(c.p, packet, Iterate(c.p.backends, c.p.probe, f, host, packet), []) == all
            else Local(c, f, []) == all
  {
    var c := Receives(d, packet);
    if c.Looking? {
      var t := Iterate(c.p.backends, c.p.probe, f, host, packet);
      assert [] + t.ops == t.ops;
    }
  }

  // A packet sent to a camera whose steps nothing interrupts does what the
  // decoder's function says.
  lemma PacketAlone(d: Decoder, f: Flags, host: Host, packet: seq<byte>) returns (saws: seq<Saw>)
    requires DecoderOk(d)
    ensures var sent := SentPacket(d, f, host, packet);
            RunOf(Proceeds, Local(Resting(d), f, []), saws) == Local(Resting(sent.decoder), sent.flags, sent.ops)
  {
    var c := Receives(d, packet);
    var first := Saw(packet, false, 0, Silent);
    OneStep(Local(Resting(d), f, []), first);
    saws := Same(first, 1);
    ReceivedIsSent(d, f, host, packet);
    if c.Looking? {
      var more := IterateAlone(c.p, packet, f, host, []);
      RunsJoin(Proceeds, Local(Resting(d), f, []), saws, more);
      saws := saws + more;
    }
  }

  // -------------------------------------------------------------------------
  // And no other run of them comes to anything else
  // -------------------------------------------------------------------------

  // A camera, at rest or with a packet in hand.
  predicate InPacket(c: Proc) {
    c.Resting? || c.Looking? || c.Taking? || c.Starting? || c.Latching? || c.Dropping?
  }

  // Where a camera alone gets to, from each point of the probe's loop.
  function LookGoal(p: Pending, au: seq<byte>, f: Flags, ops: seq<Op>, host: Host): Local
    requires Running(p)
  {
    Turned(p, au, Iterate(p.backends, p.probe, f, host, au), ops)
  }

  function DropGoal(p: Pending, au: seq<byte>, next: Option<Probe>, f: Flags, ops: seq<Op>, host: Host): Local
    requires OnBackend(p) && (next.Some? ==> Running(p.(probe := next.value)))
  {
    var f', ops' := Effect(f, Release(Target(p))), ops + [Release(Target(p))];
    if next.None? then Local(Settled(p), f', ops') else LookGoal(p.(probe := next.value), au, f', ops', host)
  }

  function StartGoal(p: Pending, au: seq<byte>, f: Flags, ops: seq<Op>, host: Host): Local
    requires p.probe.Claiming? && OnBackend(p)
  {
    var k := p.probe.next;
    if host.starts(k) then
      LookGoal(p.(probe := Opening(p.probe.extradata, k, host.startedAt(k))), au, f, ops + [Spawn(Target(p))], host)
    else DropGoal(p, au, None, f, ops, host)
  }

  function Goal(x: Local, host: Host): Local
    requires ProcOk(x.proc) && InPacket(x.proc)
  {
    match x.proc
    case Resting(_) => x
    case Looking(p, au) => LookGoal(p, au, x.flags, x.ops, host)
    case Taking(p, au) =>
      var b := Target(p);
      if b in x.flags.claims then Local(Waiting(p), x.flags, x.ops + [TakeClaim(b, false)])
      else StartGoal(p, au, Effect(x.flags, TakeClaim(b, true)), x.ops + [TakeClaim(b, true)], host)
    case Starting(p, au) => StartGoal(p, au, x.flags, x.ops, host)
    case Latching(p, au) =>
      DropGoal(p, au, Some(Claiming(p.probe.extradata, p.probe.current + 1)), Effect(x.flags, Latch(Target(p))),
               x.ops + [Latch(Target(p))], host)
    case Dropping(p, au, _, next) => DropGoal(p, au, next, x.flags, x.ops, host)
  }

  // What a step is told of an open is what the host answers of it.
  predicate Heard(c: Proc, saw: Saw, host: Host) {
    match c
    case Starting(p, _) =>
      p.probe.Claiming? ==> saw.starts == host.starts(p.probe.next) && saw.at == host.startedAt(p.probe.next)
    case Looking(p, _) =>
      p.probe.Opening? ==> saw.poll == host.poll(p.probe.current) && saw.at == host.polledAt(p.probe.current)
    case _ => true
  }

  lemma LookOneTurn(p: Pending, au: seq<byte>, f: Flags, ops: seq<Op>, host: Host)
    requires Running(p)
    ensures var t := OneTurn(p.backends, p.probe, f, host, au);
            LookGoal(p, au, f, ops, host)
            == if t.verdict.None? then LookGoal(p.(probe := t.probe), au, t.flags, ops + t.ops, host)
               else Turned(p, au, t, ops)
  {
    var t := OneTurn(p.backends, p.probe, f, host, au);
    if t.verdict.None? { TurnsJoin(p, au, t, Iterate(p.backends, t.probe, t.flags, host, au), ops); }
  }

  // A step does not change where the camera gets to.
  lemma StepKeepsGoal(x: Local, saw: Saw, host: Host)
    requires ProcOk(x.proc) && InPacket(x.proc) && !x.proc.Resting? && Heard(x.proc, saw, host)
    ensures ProcOk(Proceeds(x, saw).proc) && InPacket(Proceeds(x, saw).proc)
    ensures Goal(Proceeds(x, saw), host) == Goal(x, host)
  {
    assert x.ops + [] == x.ops;
    if x.proc.Looking? {
      match x.proc.p.probe
      case Claiming(_, _) => ClaimKeepsGoal(x, saw, host);
      case Opening(_, _, _) => PollKeepsGoal(x, saw, host);
      case Ready(_) => LookOneTurn(x.proc.p, x.proc.au, x.flags, x.ops, host);
    }
  }

  lemma ClaimKeepsGoal(x: Local, saw: Saw, host: Host)
    requires ProcOk(x.proc) && x.proc.Looking? && x.proc.p.probe.Claiming?
    ensures InPacket(Proceeds(x, saw).proc) && Goal(Proceeds(x, saw), host) == Goal(x, host)
  {
    var p, au, ops := x.proc.p, x.proc.au, x.ops;
    assert ops + [] == ops;
    LookOneTurn(p, au, x.flags, ops, host);
    if OnBackend(p) && Target(p) !in x.flags.wedged {
      var b := Target(p);
      if b in x.flags.claims {
        assert ops + [LoadWedged(b, false), TakeClaim(b, false)] == ops + [LoadWedged(b, false)] + [TakeClaim(b, false)];
      } else if host.starts(p.probe.next) {
        assert ops + [LoadWedged(b, false), TakeClaim(b, true), Spawn(b)]
            == ops + [LoadWedged(b, false)] + [TakeClaim(b, true)] + [Spawn(b)];
      } else {
        assert x.flags.claims + {b} - {b} == x.flags.claims;
        assert ops + [LoadWedged(b, false), TakeClaim(b, true), Release(b)]
            == ops + [LoadWedged(b, false)] + [TakeClaim(b, true)] + [Release(b)];
      }
    }
  }

  lemma PollKeepsGoal(x: Local, saw: Saw, host: Host)
    requires ProcOk(x.proc) && x.proc.Looking? && x.proc.p.probe.Opening? && Heard(x.proc, saw, host)
    ensures InPacket(Proceeds(x, saw).proc) && Goal(Proceeds(x, saw), host) == Goal(x, host)
  {
    var p, ops := x.proc.p, x.ops;
    var b := Target(p);
    LookOneTurn(p, x.proc.au, x.flags, ops, host);
    assert ops + [] == ops;
    assert ops + [Latch(b), Release(b)] == ops + [Latch(b)] + [Release(b)];
  }

  // The run of one packet: it stops where the camera first rests.
  predicate RunsToRest(x: Local, saws: seq<Saw>)
    decreases |saws|
  {
    if x.proc.Resting? then saws == [] else saws != [] && RunsToRest(Proceeds(x, saws[0]), saws[1..])
  }

  predicate AllHeard(x: Local, saws: seq<Saw>, host: Host)
    decreases |saws|
  {
    saws != [] ==> Heard(x.proc, saws[0], host) && AllHeard(Proceeds(x, saws[0]), saws[1..], host)
  }

  lemma {:induction false} HeardRunsToGoal(x: Local, saws: seq<Saw>, host: Host)
    requires ProcOk(x.proc) && InPacket(x.proc) && RunsToRest(x, saws) && AllHeard(x, saws, host)
    ensures RunOf(Proceeds, x, saws) == Goal(x, host)
    decreases |saws|
  {
    if !x.proc.Resting? {
      StepKeepsGoal(x, saws[0], host);
      HeardRunsToGoal(Proceeds(x, saws[0]), saws[1..], host);
    }
  }

  // Each question is asked of the host at most once in a packet, because they
  // come in this order: whether backend 0 starts, its answer, whether backend 1
  // starts, and so on. The first question a camera may still ask:
  function Stage(c: Proc): nat
    requires ProcOk(c)
  {
    match c
    case Looking(p, _) => ProbeStage(p)
    case Taking(p, _) => 2 * p.probe.next
    case Starting(p, _) => 2 * p.probe.next
    case Latching(p, _) => 2 * p.probe.current + 2
    case Dropping(p, _, _, next) => if next.Some? then ProbeStage(p.(probe := next.value)) else 2 * |p.backends|
    case _ => 0
  }

  function ProbeStage(p: Pending): nat {
    match p.probe
    case Claiming(_, next) => 2 * next
    case Opening(_, current, _) => 2 * current + 1
    case _ => 2 * |p.backends|
  }

  // The two hosts give the same answers from question `m` on.
  ghost predicate AgreeFrom(h: Host, h2: Host, m: nat) {
    && (forall k: nat :: 2 * k >= m ==> h.starts(k) == h2.starts(k) && h.startedAt(k) == h2.startedAt(k))
    && (forall k: nat :: 2 * k + 1 >= m ==> h.poll(k) == h2.poll(k) && h.polledAt(k) == h2.polledAt(k))
  }

  lemma HeardFrom(c: Proc, saw: Saw, h: Host, h2: Host)
    requires ProcOk(c) && AgreeFrom(h, h2, Stage(c)) && Heard(c, saw, h)
    ensures Heard(c, saw, h2)
  {
  }

  lemma StageRises(x: Local, saw: Saw)
    requires ProcOk(x.proc) && InPacket(x.proc) && !x.proc.Resting?
    ensures var y := Proceeds(x, saw);
            && ProcOk(y.proc) && InPacket(y.proc)
            && (!y.proc.Resting? ==> Stage(x.proc) <= Stage(y.proc))
            && (!y.proc.Resting? && (x.proc.Starting? || (x.proc.Looking? && x.proc.p.probe.Opening?)) ==>
                  Stage(x.proc) < Stage(y.proc))
  {
  }

  lemma {:induction false} AllHeardFrom(x: Local, saws: seq<Saw>, h: Host, h2: Host)
    requires ProcOk(x.proc) && InPacket(x.proc) && RunsToRest(x, saws) && AllHeard(x, saws, h)
    requires !x.proc.Resting? ==> AgreeFrom(h, h2, Stage(x.proc))
    ensures AllHeard(x, saws, h2)
    decreases |saws|
  {
    if !x.proc.Resting? {
      HeardFrom(x.proc, saws[0], h, h2);
      StageRises(x, saws[0]);
      AllHeardFrom(Proceeds(x, saws[0]), saws[1..], h, h2);
    }
  }

  // The host that answers what this step was told.
  function Told(h: Host, c: Proc, saw: Saw): Host {
    match c
    case Starting(Pending(_, _, Claiming(_, next)), _) =>
      h.(starts := (k: nat) => if k == next then saw.starts else h.starts(k),
         startedAt := (k: nat) => if k == next then saw.at else h.startedAt(k))
    case Looking(Pending(_, _, Opening(_, current, _)), _) =>
      h.(poll := (k: nat) => if k == current then saw.poll else h.poll(k),
         polledAt := (k: nat) => if k == current then saw.at else h.polledAt(k))
    case _ => h
  }

  function HostOf(x: Local, saws: seq<Saw>): Host
    decreases |saws|
  {
    if saws == [] then Host(_ => false, _ => 0, _ => Silent, _ => 0)
    else Told(HostOf(Proceeds(x, saws[0]), saws[1..]), x.proc, saws[0])
  }

  lemma ToldHears(h: Host, x: Local, saw: Saw)
    requires ProcOk(x.proc) && InPacket(x.proc) && !x.proc.Resting?
    ensures Heard(x.proc, saw, Told(h, x.proc, saw))
    ensures var y := Proceeds(x, saw);
            ProcOk(y.proc) && (!y.proc.Resting? ==> AgreeFrom(h, Told(h, x.proc, saw), Stage(y.proc)))
  {
    StageRises(x, saw);
  }

  lemma {:induction false} HostIsHeard(x: Local, saws: seq<Saw>)
    requires ProcOk(x.proc) && InPacket(x.proc) && RunsToRest(x, saws)
    ensures AllHeard(x, saws, HostOf(x, saws))
    decreases |saws|
  {
    if !x.proc.Resting? {
      var y := Proceeds(x, saws[0]);
      var h := HostOf(y, saws[1..]);
      StageRises(x, saws[0]);
      HostIsHeard(y, saws[1..]);
      ToldHears(h, x, saws[0]);
      AllHeardFrom(y, saws[1..], h, Told(h, x.proc, saws[0]));
    }
  }

  // Whatever each step of a camera alone with a packet is told, the packet ends
  // as the decoder's function says for some host: the steps can do nothing else.
  lemma EveryPacketIsSent(d: Decoder, f: Flags, saws: seq<Saw>) returns (host: Host)
    requires DecoderOk(d) && saws != [] && RunsToRest(Proceeds(Local(Resting(d), f, []), saws[0]), saws[1..])
    ensures var sent := SentPacket(d, f, host, saws[0].packet);
            RunOf(Proceeds, Local(Resting(d), f, []), saws) == Local(Resting(sent.decoder), sent.flags, sent.ops)
  {
    var x, packet := Local(Resting(d), f, []), saws[0].packet;
    var y := Local(Receives(d, packet), f, []);
    assert Proceeds(x, saws[0]) == y && InPacket(y.proc);
    host := HostOf(y, saws[1..]);
    HostIsHeard(y, saws[1..]);
    HeardRunsToGoal(y, saws[1..], host);
    ReceivedIsSent(d, f, host, packet);
  }

  // -------------------------------------------------------------------------
  // The steps of a blocking open, with others acting in between
  // -------------------------------------------------------------------------

  // One step with the flags as others have left them.
  datatype View = View(flags: Flags, saw: Saw)

  function Sees(x: Local, v: View): Local { Proceeds(x.(flags := v.flags), v.saw) }

  // What one pass of the wait found.
  function PassView(b: Backend, p: Pass): View {
    View(Flags(if p.claimFree then {} else {b}, if p.wedged then {b} else {}), Saw([], false, p.elapsed, Silent))
  }

  // Where a pass leaves the open.
  function PassTo(b: Backend, p: Pass): Proc {
    if p.wedged then EagerDone(AlreadyWedged)
    else if p.claimFree then EagerStarting(b)
    else if p.elapsed >= BUDGET then EagerDone(BackendBusy)
    else EagerLooking(b)
  }

  lemma PassSteps(b: Backend, x: Local, p: Pass) returns (views: seq<View>)
    requires x.proc == EagerLooking(b)
    ensures var y := RunOf(Sees, x, views); y.proc == PassTo(b, p) && y.ops == x.ops + PassOps(b, p)
  {
    var v := PassView(b, p);
    var y := Sees(x, v);
    if p.wedged {
      views := Same(v, 1);
      SeesOnce(x, v);
    } else {
      var z := Sees(y, v);
      assert y.proc == EagerTaking(b) && y.ops == x.ops + [LoadWedged(b, false)];
      assert z.ops == x.ops + [LoadWedged(b, false)] + [TakeClaim(b, p.claimFree)];
      assert z.ops == x.ops + PassOps(b, p);
      views := Same(v, if p.claimFree then 2 else 3);
      RunOfSame(Sees, x, v, |views|);
      RunOfSame(Sees, y, v, |views| - 1);
      if p.claimFree {
        RunOfSame(Sees, z, v, 0);
      } else {
        SeesOnce(z, v);
        assert z.ops + [] == z.ops;
      }
    }
  }

  lemma SeesOnce(x: Local, v: View)
    ensures RunOf(Sees, x, Same(v, 1)) == Sees(x, v)
  {
    RunOfSame(Sees, x, v, 1);
    RunOfSame(Sees, Sees(x, v), v, 0);
  }

  lemma {:induction false} WaitSteps(b: Backend, x: Local, passes: seq<Pass>, k: nat) returns (views: seq<View>)
    requires x == Local(EagerLooking(b), x.flags, []) && k < |passes|
    requires forall j :: 0 <= j < k ==> !EndsWait(passes[j])
    ensures var y := RunOf(Sees, x, views);
            y.proc == PassTo(b, passes[k]) && y.ops == PassesOps(b, passes[..k + 1])
  {
    views := [];
    if k > 0 { views := WaitSteps(b, x, passes, k - 1); }
    var y := RunOf(Sees, x, views);
    assert k == 0 ==> passes[..k] == [];
    var more := PassSteps(b, y, passes[k]);
    RunsJoin(Sees, x, views, more);
    views := views + more;
    OnePassLater(b, passes, k);
  }

  // Its answer once the claim is held.
  lemma HeldSteps(b: Backend, x: Local, started: bool, reply: Poll) returns (views: seq<View>)
    requires x.proc == EagerStarting(b)
    ensures var y := RunOf(Sees, x, views);
            && y.proc == EagerDone(if started then Answer(reply) else NotStarted)
            && y.ops == x.ops + HeldOps(b, started, reply)
  {
    var v := View(x.flags, Saw([], started, 0, reply));
    var x1 := Sees(x, v);
    var x2 := Sees(x1, v);
    var x3 := Sees(x2, v);
    var n := if !started then 2 else if reply.Silent? then 4 else 3;
    views := Same(v, n);
    RunOfSame(Sees, x, v, n);
    RunOfSame(Sees, x1, v, n - 1);
    RunOfSame(Sees, x2, v, n - 2);
    assert x.ops + [] == x.ops;
    if started {
      assert x1.proc == EagerWaiting(b) && x1.ops == x.ops + [Spawn(b)];
      assert x2.ops == x1.ops + [] == x1.ops;
      if reply.Silent? {
        assert x2.proc == EagerLatching(b) && x3.ops == x1.ops + [Latch(b)];
        SeesOnce(x3, v);
        assert RunOf(Sees, x, views) == Sees(x3, v);
        assert x1.ops + [Latch(b)] + [Release(b)] == x.ops + HeldOps(b, started, reply);
      } else {
        SeesOnce(x2, v);
        assert x1.ops + [Release(b)] == x.ops + HeldOps(b, started, reply);
      }
    } else {
      assert x1.proc == EagerDropping(b, Claimed(b), NotStarted) && x1.ops == x.ops;
      RunOfSame(Sees, x2, v, 0);
    }
  }

  // What a run of the wait comes to once it is done: the passes it made, and,
  // with the claim, what it was told of its open.
  ghost predicate EagerEnds(b: Backend, y: Local, passes: seq<Pass>, started: bool, reply: Poll) {
    && WaitEnds(passes)
    && y.proc == EagerDone(EagerOutcome(passes, started, reply))
    && y.ops == WaitOps(b, passes) + if HadClaim(passes) then HeldOps(b, started, reply) else []
  }

  // The blocking open as its steps, whatever others do in between, is the
  // function of what its passes found.
  lemma EagerIsItsSteps(b: Backend, f: Flags, passes: seq<Pass>, started: bool, reply: Poll) returns (views: seq<View>)
    requires WaitEnds(passes)
    ensures EagerEnds(b, RunOf(Sees, Local(EagerLooking(b), f, []), views), passes, started, reply)
  {
    var x := Local(EagerLooking(b), f, []);
    var last := LastPass(passes);
    views := WaitSteps(b, x, passes, last);
    var y := RunOf(Sees, x, views);
    if HadClaim(passes) {
      var more := HeldSteps(b, y, started, reply);
      RunsJoin(Sees, x, views, more);
      views := views + more;
    } else {
      assert y.ops + [] == y.ops;
    }
  }

  lemma LastIsLast(passes: seq<Pass>, p: Pass)
    requires EndsWait(p) && forall j :: 0 <= j < |passes| ==> !EndsWait(passes[j])
    ensures WaitEnds(passes + [p]) && LastPass(passes + [p]) == |passes|
  {
    var all := passes + [p];
    assert EndsWait(all[|passes|]) && forall j :: 0 <= j < |passes| ==> all[j] == passes[j];
  }

  lemma PassAdded(b: Backend, passes: seq<Pass>, p: Pass)
    ensures PassesOps(b, passes + [p]) == PassesOps(b, passes) + PassOps(b, p)
  {
    assert (passes + [p])[..|passes|] == passes;
  }

  lemma {:induction false} DoneStays(x: Local, views: seq<View>)
    requires x.proc.EagerDone?
    ensures var y := RunOf(Sees, x, views); y.proc == x.proc && y.ops == x.ops
    decreases |views|
  {
    assert x.ops + [] == x.ops;
    if views != [] { DoneStays(Sees(x, views[0]), views[1..]); }
  }

  // From the claim on, the open is told whether it started and what it answered.
  lemma HeldRun(b: Backend, x: Local, views: seq<View>) returns (started: bool, reply: Poll)
    requires x.proc == EagerStarting(b) && RunOf(Sees, x, views).proc.EagerDone?
    ensures var y := RunOf(Sees, x, views);
            && y.proc == EagerDone(if started then Answer(reply) else NotStarted)
            && y.ops == x.ops + HeldOps(b, started, reply)
  {
    started := views[0].saw.starts;
    reply := Silent;
    var y := Sees(x, views[0]);
    assert x.ops + [] == x.ops;
    if started {
      assert y.ops == x.ops + [Spawn(b)];
      reply := WaitingRun(b, y, views[1..]);
      assert x.ops + [Spawn(b)] + AnsweredOps(b, reply) == x.ops + HeldOps(b, true, reply);
    } else {
      DropRun(b, y, views[1..]);
    }
  }

  function AnsweredOps(b: Backend, reply: Poll): seq<Op> {
    if reply.Silent? then [Latch(b), Release(b)] else [Release(b)]
  }

  lemma WaitingRun(b: Backend, x: Local, views: seq<View>) returns (reply: Poll)
    requires x.proc == EagerWaiting(b) && RunOf(Sees, x, views).proc.EagerDone?
    ensures var y := RunOf(Sees, x, views);
            y.proc == EagerDone(Answer(reply)) && y.ops == x.ops + AnsweredOps(b, reply)
  {
    reply := views[0].saw.poll;
    var y := Sees(x, views[0]);
    assert x.ops + [] == x.ops;
    if reply.Silent? {
      var z := Sees(y, views[1]);
      DropRun(b, z, views[1..][1..]);
      assert x.ops + [Latch(b)] + [Release(b)] == x.ops + [Latch(b), Release(b)];
    } else {
      DropRun(b, y, views[1..]);
    }
  }

  lemma DropRun(b: Backend, x: Local, views: seq<View>)
    requires x.proc.EagerDropping? && x.proc.b == b && ProcOk(x.proc) && RunOf(Sees, x, views).proc.EagerDone?
    ensures var y := RunOf(Sees, x, views); y.proc == EagerDone(x.proc.r) && y.ops == x.ops + [Release(b)]
  {
    DoneStays(Sees(x, views[0]), views[1..]);
  }

  lemma {:induction false} WaitRun(b: Backend, x: Local, done: seq<Pass>, views: seq<View>)
    returns (passes: seq<Pass>, started: bool, reply: Poll)
    requires x.proc == EagerLooking(b) && x.ops == PassesOps(b, done)
    requires forall j :: 0 <= j < |done| ==> !EndsWait(done[j])
    requires RunOf(Sees, x, views).proc.EagerDone?
    ensures EagerEnds(b, RunOf(Sees, x, views), passes, started, reply)
    decreases |views|
  {
    started, reply := false, Silent;
    var y := Sees(x, views[0]);
    if y.proc.EagerDone? {
      passes := done + [Pass(true, false, 0)];
      DoneStays(y, views[1..]);
      PassEnds(b, done, Pass(true, false, 0), RunOf(Sees, x, views), started, reply);
    } else {
      var z := Sees(y, views[1]);
      assert x.ops + [LoadWedged(b, false)] + [TakeClaim(b, z.proc.EagerStarting?)]
          == x.ops + PassOps(b, Pass(false, z.proc.EagerStarting?, 0));
      if z.proc.EagerStarting? {
        passes := done + [Pass(false, true, 0)];
        started, reply := HeldRun(b, z, views[1..][1..]);
        PassEnds(b, done, Pass(false, true, 0), RunOf(Sees, x, views), started, reply);
      } else {
        passes, started, reply := PausedRun(b, z, done, views[1..][1..]);
      }
    }
  }

  lemma {:induction false} PausedRun(b: Backend, x: Local, done: seq<Pass>, views: seq<View>)
    returns (passes: seq<Pass>, started: bool, reply: Poll)
    requires x.proc == EagerPausing(b) && x.ops == PassesOps(b, done) + PassOps(b, Pass(false, false, 0))
    requires forall j :: 0 <= j < |done| ==> !EndsWait(done[j])
    requires RunOf(Sees, x, views).proc.EagerDone?
    ensures EagerEnds(b, RunOf(Sees, x, views), passes, started, reply)
    decreases |views|
  {
    started, reply := false, Silent;
    var p := Pass(false, false, views[0].saw.at);
    var y := Sees(x, views[0]);
    passes := done + [p];
    assert y.ops == x.ops;
    PassAdded(b, done, p);
    if y.proc.EagerDone? {
      DoneStays(y, views[1..]);
      PassEnds(b, done, p, RunOf(Sees, x, views), started, reply);
    } else {
      passes, started, reply := WaitRun(b, y, passes, views[1..]);
    }
  }

  // The last pass, and what came after it.
  lemma PassEnds(b: Backend, done: seq<Pass>, p: Pass, y: Local, started: bool, reply: Poll)
    requires EndsWait(p) && forall j :: 0 <= j < |done| ==> !EndsWait(done[j])
    requires y.ops == PassesOps(b, done) + PassOps(b, p)
               + if !p.wedged && p.claimFree then HeldOps(b, started, reply) else []
    requires y.proc == EagerDone(if p.wedged then AlreadyWedged else if !p.claimFree then BackendBusy
                                 else if started then Answer(reply) else NotStarted)
    ensures EagerEnds(b, y, done + [p], started, reply)
  {
    LastIsLast(done, p);
    WaitOpsOf(b, done, p);
    assert (done + [p])[LastPass(done + [p])] == p;
  }

  lemma WaitOpsOf(b: Backend, passes: seq<Pass>, p: Pass)
    requires WaitEnds(passes + [p]) && LastPass(passes + [p]) == |passes|
    ensures WaitOps(b, passes + [p]) == PassesOps(b, passes) + PassOps(b, p)
  {
    assert (passes + [p])[..|passes| + 1] == passes + [p];
    PassAdded(b, passes, p);
  }

  // Whatever others do between its steps, a blocking open that is done came to
  // the function of some passes, with exactly their operations and its own.
  lemma EveryEagerRunEnds(b: Backend, f: Flags, views: seq<View>) returns (passes: seq<Pass>, started: bool, reply: Poll)
    requires RunOf(Sees, Local(EagerLooking(b), f, []), views).proc.EagerDone?
    ensures EagerEnds(b, RunOf(Sees, Local(EagerLooking(b), f, []), views), passes, started, reply)
  {
    passes, started, reply := WaitRun(b, Local(EagerLooking(b), f, []), [], views);
  }

  // -------------------------------------------------------------------------
  // Any number of callers, interleaved step by step
  // -------------------------------------------------------------------------

  datatype World = World(flags: Flags, procs: map<Caller, Proc>)

  datatype Act =
    | Arrives(i: Caller, backends: seq<Backend>, required: bool)
    | Opens(i: Caller, b: Backend)
    | Goes(i: Caller, saw: Saw)
    | Leaves(i: Caller)

  const BOOT := World(Flags({}, {}), map[])

  ghost predicate WorldOk(w: World) { forall i :: i in w.procs ==> ProcOk(w.procs[i]) }

  // A decoder is dropped between packets, and a blocking open runs to its end.
  predicate MayLeave(c: Proc) { c.Resting? || c.EagerDone? }

  ghost predicate Enabled(w: World, a: Act) {
    match a
    case Arrives(i, _, _) => i !in w.procs
    case Opens(i, _) => i !in w.procs
    case Goes(i, _) => i in w.procs
    case Leaves(i) => i in w.procs && MayLeave(w.procs[i])
  }

  // Dropping a decoder in the middle of an open drops its claim.
  function LeaveOp(c: Proc): Option<Op>
    requires ProcOk(c)
  {
    if ProcPhase(c).Probing? then Some(Release(ProcPhase(c).backend)) else None
  }

  ghost function OpOf(w: World, a: Act): Option<Op>
    requires WorldOk(w) && Enabled(w, a)
  {
    match a
    case Goes(i, saw) => Moves(w.procs[i], w.flags, saw).op
    case Leaves(i) => LeaveOp(w.procs[i])
    case _ => None
  }

  ghost function ProcsAfter(w: World, a: Act): map<Caller, Proc>
    requires WorldOk(w) && Enabled(w, a)
  {
    match a
    case Arrives(i, backends, required) => w.procs[i := Resting(NewDecoder(backends, required))]
    case Opens(i, b) => w.procs[i := EagerLooking(b)]
    case Goes(i, saw) => w.procs[i := Moves(w.procs[i], w.flags, saw).to]
    case Leaves(i) => w.procs - {i}
  }

  ghost function Acted(w: World, a: Act): World
    requires WorldOk(w) && Enabled(w, a)
  {
    World(FlagsAfter(w.flags, OpOf(w, a)), ProcsAfter(w, a))
  }

  ghost function WorldPhase(w: World, i: Caller): Phase
    requires WorldOk(w)
  {
    if i in w.procs then ProcPhase(w.procs[i]) else Away
  }

  ghost predicate Shows(s: System, w: World)
    requires WorldOk(w)
  {
    s.flags == w.flags && forall i :: PhaseOf(s, i) == WorldPhase(w, i)
  }

  ghost function EventsIn(w: World, a: Act): seq<Event>
    requires WorldOk(w) && Enabled(w, a)
  {
    if OpOf(w, a).Some? then [Event(a.i, OpOf(w, a).value)] else []
  }

  ghost predicate IsWorldRun(w: World, acts: seq<Act>)
    decreases |acts|
  {
    WorldOk(w) && (acts != [] ==> Enabled(w, acts[0]) && IsWorldRun(Acted(w, acts[0]), acts[1..]))
  }

  ghost function WorldAfter(w: World, acts: seq<Act>): World
    requires IsWorldRun(w, acts)
    decreases |acts|
  {
    if acts == [] then w else WorldAfter(Acted(w, acts[0]), acts[1..])
  }

  ghost function Trace(w: World, acts: seq<Act>): seq<Event>
    requires IsWorldRun(w, acts)
    decreases |acts|
  {
    if acts == [] then [] else EventsIn(w, acts[0]) + Trace(Acted(w, acts[0]), acts[1..])
  }

  lemma ActIsProtocolStep(w: World, a: Act)
    requires WorldOk(w) && Enabled(w, a)
    ensures WorldOk(Acted(w, a))
    ensures forall j :: j != a.i ==> WorldPhase(Acted(w, a), j) == WorldPhase(w, j)
    ensures var op, from, to := OpOf(w, a), WorldPhase(w, a.i), WorldPhase(Acted(w, a), a.i);
            if op.None? then to == from else Next(from, op.value) == Some(to) && Observes(w.flags, op.value)
  {
    if a.Goes? { MoveIsProtocolStep(w.procs[a.i], w.flags, a.saw); }
  }

  lemma ActRefines(s: System, w: World, a: Act)
    requires WorldOk(w) && Enabled(w, a) && Shows(s, w)
    ensures WorldOk(Acted(w, a)) && IsRun(s, EventsIn(w, a)) && Shows(Final(s, EventsIn(w, a)), Acted(w, a))
  {
    var op := OpOf(w, a);
    ActIsProtocolStep(w, a);
    assert PhaseOf(s, a.i) == WorldPhase(w, a.i);
    if op.Some? {
      var e := Event(a.i, op.value);
      assert EventsIn(w, a)[1..] == [];
      PhasesAfter(s, e);
      assert Final(s, EventsIn(w, a)) == Step(s, e);
    }
    var s' := Final(s, EventsIn(w, a));
    forall j ensures PhaseOf(s', j) == WorldPhase(Acted(w, a), j) {
      assert PhaseOf(s, j) == WorldPhase(w, j);
    }
  }

  lemma {:induction false} RunFirst(s: System, events: seq<Event>, more: seq<Event>)
    requires |events| <= 1 && IsRun(s, events) && IsRun(Final(s, events), more)
    ensures IsRun(s, events + more) && Final(s, events + more) == Final(Final(s, events), more)
  {
    if events == [] {
      assert events + more == more;
    } else {
      var e := events[0];
      assert events[1..] == [] && Final(s, events) == Step(s, e);
      assert (events + more)[0] == e && (events + more)[1..] == more;
    }
  }

  // Every interleaving of the callers' own steps is a run of the claim
  // protocol.
  lemma {:induction false} WorldRefines(s: System, w: World, acts: seq<Act>)
    requires IsWorldRun(w, acts) && Shows(s, w)
    ensures WorldOk(WorldAfter(w, acts)) && IsRun(s, Trace(w, acts))
    ensures Shows(Final(s, Trace(w, acts)), WorldAfter(w, acts))
    decreases |acts|
  {
    if acts != [] {
      var a := acts[0];
      ActRefines(s, w, a);
      var s' := Final(s, EventsIn(w, a));
      WorldRefines(s', Acted(w, a), acts[1..]);
      RunFirst(s, EventsIn(w, a), Trace(Acted(w, a), acts[1..]));
    }
  }

  ghost predicate OneHolder(w: World, b: Backend)
    requires WorldOk(w)
  {
    && (b in w.flags.claims <==> exists i :: Holds(WorldPhase(w, i), b))
    && forall i, j :: Holds(WorldPhase(w, i), b) && Holds(WorldPhase(w, j), b) ==> i == j
  }

  // So, whatever steps of whatever cameras and blocking opens interleave, a
  // backend's claim is set exactly while one of them holds it.
  lemma WorldClaims(acts: seq<Act>, b: Backend)
    requires IsWorldRun(BOOT, acts)
    ensures WorldOk(WorldAfter(BOOT, acts)) && OneHolder(WorldAfter(BOOT, acts), b)
  {
    WorldRefines(INITIAL, BOOT, acts);
    ClaimsHeldFromStart(Trace(BOOT, acts));
    HolderShows(Final(INITIAL, Trace(BOOT, acts)), WorldAfter(BOOT, acts), b);
  }

  lemma HolderShows(s: System, w: World, b: Backend)
    requires WorldOk(w) && Shows(s, w) && ClaimsAreHeld(s)
    ensures OneHolder(w, b)
  {
    assert forall i :: PhaseOf(s, i) == WorldPhase(w, i);
    if b in w.flags.claims {
      assert Held(s, b);
      var i :| Holds(PhaseOf(s, i), b);
      assert Holds(WorldPhase(w, i), b);
    }
    if i :| Holds(WorldPhase(w, i), b) { assert Holds(PhaseOf(s, i), b) && Held(s, b); }
    forall i, j | Holds(WorldPhase(w, i), b) && Holds(WorldPhase(w, j), b) ensures i == j {
      assert Holds(PhaseOf(s, i), b) && Holds(PhaseOf(s, j), b);
    }
  }

  // The callers between their latch read and their compare-exchange.
  ghost function Between(w: World, b: Backend): set<Caller>
    requires WorldOk(w)
  {
    set i | i in w.procs && WorldPhase(w, i) == Checked(b)
  }

  // From the step that latches a backend on, its open is started at most once
  // for each caller then between its latch read and its compare-exchange.
  lemma WorldSpawnBound(before: seq<Act>, a: Act, after: seq<Act>, b: Backend)
    requires IsWorldRun(BOOT, before) && WorldOk(WorldAfter(BOOT, before)) && Enabled(WorldAfter(BOOT, before), a)
    requires OpOf(WorldAfter(BOOT, before), a) == Some(Latch(b)) && IsWorldRun(Acted(WorldAfter(BOOT, before), a), after)
    ensures var w := WorldAfter(BOOT, before);
            Spawns(Trace(Acted(w, a), after), b) <= |Between(w, b)|
  {
    WorldRefines(INITIAL, BOOT, before);
    ClaimsHeldFromStart(Trace(BOOT, before));
    LatchBounds(Final(INITIAL, Trace(BOOT, before)), WorldAfter(BOOT, before), a, after, b);
  }

  lemma LatchBounds(s: System, w: World, a: Act, after: seq<Act>, b: Backend)
    requires WorldOk(w) && Shows(s, w) && ClaimsAreHeld(s) && Enabled(w, a) && OpOf(w, a) == Some(Latch(b))
    requires IsWorldRun(Acted(w, a), after)
    ensures Spawns(Trace(Acted(w, a), after), b) <= |Between(w, b)|
  {
    var e := Event(a.i, Latch(b));
    ActRefines(s, w, a);
    assert EventsIn(w, a) == [e] && [e][1..] == [];
    assert Final(s, EventsIn(w, a)) == Step(s, e);
    WorldRefines(Step(s, e), Acted(w, a), after);
    SpawnBoundAtLatch(s, a.i, b, Trace(Acted(w, a), after));
    CheckersAreBetween(s, w, b);
  }

  lemma CheckersAreBetween(s: System, w: World, b: Backend)
    requires WorldOk(w) && Shows(s, w)
    ensures |Checkers(s, b)| <= |Between(w, b)|
  {
    forall i | i in Checkers(s, b) ensures i in Between(w, b) {
      assert PhaseOf(s, i) == WorldPhase(w, i);
    }
    SubsetSize(Checkers(s, b), Between(w, b));
  }

  // -------------------------------------------------------------------------
  // When a latch is final
  // -------------------------------------------------------------------------

  // The caller has read the latch of `b` and may still start an open of it. One
  // whose open could not be started has the claim too, but only to give it up.
  predicate Committing(c: Proc, b: Backend)
    requires ProcOk(c)
  {
    ((c.Taking? || c.Starting?) && Target(c.p) == b) || ((c.EagerTaking? || c.EagerStarting?) && c.b == b)
  }

  ghost predicate NoneCommitting(w: World, b: Backend)
    requires WorldOk(w)
  {
    forall i :: i in w.procs ==> !Committing(w.procs[i], b)
  }

  // Some run from `w` opens `b`.
  ghost predicate CanSpawn(w: World, b: Backend) {
    exists acts :: IsWorldRun(w, acts) && Spawns(Trace(w, acts), b) > 0
  }

  lemma MoveStaysUncommitted(c: Proc, f: Flags, saw: Saw, b: Backend)
    requires ProcOk(c) && b in f.wedged && !Committing(c, b)
    ensures var m := Moves(c, f, saw);
            !Committing(m.to, b) && m.op != Some(Spawn(b)) && b in FlagsAfter(f, m.op).wedged
  {
  }

  lemma ActStaysUncommitted(w: World, a: Act, b: Backend)
    requires WorldOk(w) && Enabled(w, a) && b in w.flags.wedged && NoneCommitting(w, b)
    ensures WorldOk(Acted(w, a)) && NoneCommitting(Acted(w, a), b) && b in Acted(w, a).flags.wedged
    ensures OpOf(w, a) != Some(Spawn(b))
  {
    ActIsProtocolStep(w, a);
    if a.Goes? { MoveStaysUncommitted(w.procs[a.i], w.flags, a.saw, b); }
  }

  lemma {:induction false} UncommittedNeverSpawns(w: World, acts: seq<Act>, b: Backend)
    requires IsWorldRun(w, acts) && b in w.flags.wedged && NoneCommitting(w, b)
    ensures Spawns(Trace(w, acts), b) == 0
    decreases |acts|
  {
    if acts != [] {
      ActStaysUncommitted(w, acts[0], b);
      UncommittedNeverSpawns(Acted(w, acts[0]), acts[1..], b);
      SpawnsAfterAct(w, acts[0], acts[1..], b);
    }
  }

  lemma SpawnsAfterAct(w: World, a: Act, acts: seq<Act>, b: Backend)
    requires WorldOk(w) && Enabled(w, a) && IsWorldRun(Acted(w, a), acts)
    ensures Spawns(EventsIn(w, a) + Trace(Acted(w, a), acts), b)
         == (if OpOf(w, a) == Some(Spawn(b)) then 1 else 0) + Spawns(Trace(Acted(w, a), acts), b)
  {
    var rest := Trace(Acted(w, a), acts);
    if OpOf(w, a).Some? {
      SpawnsFirst(Event(a.i, OpOf(w, a).value), rest, b);
    } else {
      assert EventsIn(w, a) + rest == rest;
    }
  }

  lemma SpawnLater(w: World, a: Act, b: Backend)
    requires WorldOk(w) && Enabled(w, a)
    requires OpOf(w, a) == Some(Spawn(b)) || CanSpawn(Acted(w, a), b)
    ensures CanSpawn(w, b)
  {
    var acts: seq<Act> := [];
    ActIsProtocolStep(w, a);
    if OpOf(w, a) != Some(Spawn(b)) {
      acts :| IsWorldRun(Acted(w, a), acts) && Spawns(Trace(Acted(w, a), acts), b) > 0;
    }
    OneMoreAct(w, a, acts);
    SpawnsAfterAct(w, a, acts, b);
    assert IsWorldRun(w, [a] + acts) && Spawns(Trace(w, [a] + acts), b) > 0;
  }

  // A step told that every open starts and succeeds.
  const ANSWERED := Saw([], true, 0, Opened)

  lemma GoesOn(w: World, i: Caller)
    requires WorldOk(w) && i in w.procs
    ensures var m := Moves(w.procs[i], w.flags, ANSWERED);
            var w', a := Acted(w, Goes(i, ANSWERED)), Goes(i, ANSWERED);
            && Enabled(w, a) && OpOf(w, a) == m.op && WorldOk(w')
            && w'.flags == FlagsAfter(w.flags, m.op) && w'.procs == w.procs[i := m.to]
  {
  }

  lemma StartingSpawns(w: World, i: Caller, b: Backend)
    requires WorldOk(w) && i in w.procs && Committing(w.procs[i], b) && (w.procs[i].Starting? || w.procs[i].EagerStarting?)
    ensures CanSpawn(w, b)
  {
    GoesOn(w, i);
    SpawnLater(w, Goes(i, ANSWERED), b);
  }

  lemma TakingSpawns(w: World, i: Caller, b: Backend)
    requires WorldOk(w) && i in w.procs && Committing(w.procs[i], b) && b !in w.flags.claims
    ensures CanSpawn(w, b)
  {
    if w.procs[i].Taking? || w.procs[i].EagerTaking? {
      GoesOn(w, i);
      StartingSpawns(Acted(w, Goes(i, ANSWERED)), i, b);
      SpawnLater(w, Goes(i, ANSWERED), b);
    } else {
      StartingSpawns(w, i, b);
    }
  }

  // A caller about to give the claim of `b` up.
  predicate Freeing(c: Proc, b: Backend)
    requires ProcOk(c)
  {
    (c.Dropping? && Target(c.p) == b) || (c.EagerDropping? && c.b == b)
  }

  lemma FreeingLetsSpawn(w: World, h: Caller, i: Caller, b: Backend)
    requires WorldOk(w) && h in w.procs && i in w.procs && h != i
    requires Freeing(w.procs[h], b) && Committing(w.procs[i], b)
    ensures CanSpawn(w, b)
  {
    GoesOn(w, h);
    TakingSpawns(Acted(w, Goes(h, ANSWERED)), i, b);
    SpawnLater(w, Goes(h, ANSWERED), b);
  }

  // A holder is about to start, about to give up, one step from that, or
  // between packets, where it can be dropped.
  lemma HolderMoves(c: Proc, f: Flags, b: Backend)
    requires ProcOk(c) && Holds(ProcPhase(c), b)
    ensures Committing(c, b) || Freeing(c, b) || Freeing(Moves(c, f, ANSWERED).to, b) || MayLeave(c)
    ensures Committing(c, b) ==> c.Starting? || c.EagerStarting?
  {
  }

  lemma LeavingLetsSpawn(w: World, h: Caller, i: Caller, b: Backend)
    requires WorldOk(w) && h in w.procs && i in w.procs && h != i
    requires MayLeave(w.procs[h]) && Holds(ProcPhase(w.procs[h]), b) && Committing(w.procs[i], b)
    ensures CanSpawn(w, b)
  {
    ActIsProtocolStep(w, Leaves(h));
    TakingSpawns(Acted(w, Leaves(h)), i, b);
    SpawnLater(w, Leaves(h), b);
  }

  lemma HolderLetsSpawn(w: World, h: Caller, i: Caller, b: Backend)
    requires WorldOk(w) && h in w.procs && i in w.procs && h != i
    requires Holds(ProcPhase(w.procs[h]), b) && Committing(w.procs[i], b)
    ensures CanSpawn(w, b)
  {
    HolderMoves(w.procs[h], w.flags, b);
    if Committing(w.procs[h], b) {
      StartingSpawns(w, h, b);
    } else if Freeing(w.procs[h], b) {
      FreeingLetsSpawn(w, h, i, b);
    } else if MayLeave(w.procs[h]) {
      LeavingLetsSpawn(w, h, i, b);
    } else {
      GoesOn(w, h);
      FreeingLetsSpawn(Acted(w, Goes(h, ANSWERED)), h, i, b);
      SpawnLater(w, Goes(h, ANSWERED), b);
    }
  }

  lemma CommittingCanSpawn(w: World, i: Caller, b: Backend)
    requires WorldOk(w) && OneHolder(w, b) && i in w.procs && Committing(w.procs[i], b)
    ensures CanSpawn(w, b)
  {
    if b !in w.flags.claims {
      TakingSpawns(w, i, b);
    } else {
      var h :| Holds(WorldPhase(w, h), b);
      if h == i { StartingSpawns(w, i, b); } else { HolderLetsSpawn(w, h, i, b); }
    }
  }

  // In every reachable state, a latched backend is never opened again, whoever
  // arrives and however they interleave, exactly when no caller is past its
  // latch read with its open still to start.
  lemma WorldLatchIsFinalIff(acts: seq<Act>, b: Backend)
    requires IsWorldRun(BOOT, acts) && b in WorldAfter(BOOT, acts).flags.wedged
    ensures WorldOk(WorldAfter(BOOT, acts))
    ensures !CanSpawn(WorldAfter(BOOT, acts), b) <==> NoneCommitting(WorldAfter(BOOT, acts), b)
  {
    var w := WorldAfter(BOOT, acts);
    WorldClaims(acts, b);
    if NoneCommitting(w, b) {
      forall more | IsWorldRun(w, more) ensures Spawns(Trace(w, more), b) == 0 { UncommittedNeverSpawns(w, more, b); }
    } else {
      var i :| i in w.procs && Committing(w.procs[i], b);
      CommittingCanSpawn(w, i, b);
    }
  }

  // -------------------------------------------------------------------------
  // A latched backend opened again
  // -------------------------------------------------------------------------

  // Two blocking opens and nothing else.
  function Two(f: Flags, c0: Proc, c1: Proc): World { World(f, map[0 := c0, 1 := c1]) }

  const STARTED := Saw([], true, 0, Silent)

  lemma {:induction false} WorldGoesOn(w: World, acts: seq<Act>, a: Act)
    requires IsWorldRun(w, acts) && WorldOk(WorldAfter(w, acts)) && Enabled(WorldAfter(w, acts), a)
    requires WorldOk(Acted(WorldAfter(w, acts), a))
    ensures IsWorldRun(w, acts + [a]) && WorldAfter(w, acts + [a]) == Acted(WorldAfter(w, acts), a)
    decreases |acts|
  {
    if acts == [] {
      assert [a][1..] == [] && acts + [a] == [a];
    } else {
      WorldGoesOn(Acted(w, acts[0]), acts[1..], a);
      assert (acts + [a])[1..] == acts[1..] + [a];
    }
  }

  ghost predicate Reaches(acts: seq<Act>, w: World) { IsWorldRun(BOOT, acts) && WorldOk(w) && WorldAfter(BOOT, acts) == w }

  lemma Reach(acts: seq<Act>, w: World, a: Act, w': World)
    requires Reaches(acts, w) && Enabled(w, a) && Acted(w, a) == w' && WorldOk(w')
    ensures Reaches(acts + [a], w')
  {
    WorldGoesOn(BOOT, acts, a);
  }

  lemma FirstGoes(f: Flags, c0: Proc, c1: Proc, c0': Proc)
    requires ProcOk(c0) && ProcOk(c1)
    requires Moves(c0, f, STARTED).to == c0'
    ensures var w, a := Two(f, c0, c1), Goes(0, STARTED);
            && WorldOk(w) && Enabled(w, a) && OpOf(w, a) == Moves(c0, f, STARTED).op
            && Acted(w, a) == Two(FlagsAfter(f, OpOf(w, a)), c0', c1)
  {
    assert map[0 := c0, 1 := c1][0 := c0'] == map[0 := c0', 1 := c1];
  }

  lemma SecondGoes(f: Flags, c0: Proc, c1: Proc, c1': Proc)
    requires ProcOk(c0) && ProcOk(c1)
    requires Moves(c1, f, STARTED).to == c1'
    ensures var w, a := Two(f, c0, c1), Goes(1, STARTED);
            && WorldOk(w) && Enabled(w, a) && OpOf(w, a) == Moves(c1, f, STARTED).op
            && Acted(w, a) == Two(FlagsAfter(f, OpOf(w, a)), c0, c1')
  {
    assert map[0 := c0, 1 := c1][1 := c1'] == map[0 := c0, 1 := c1'];
  }

  lemma FirstReaches(acts: seq<Act>, f: Flags, c0: Proc, c1: Proc, op: Option<Op>, c0': Proc)
    requires Reaches(acts, Two(f, c0, c1)) && ProcOk(c0) && ProcOk(c1) && Moves(c0, f, STARTED) == Moved(c0', op)
    ensures Reaches(acts + [Goes(0, STARTED)], Two(FlagsAfter(f, op), c0', c1))
  {
    FirstGoes(f, c0, c1, c0');
    Reach(acts, Two(f, c0, c1), Goes(0, STARTED), Two(FlagsAfter(f, op), c0', c1));
  }

  lemma SecondReaches(acts: seq<Act>, f: Flags, c0: Proc, c1: Proc, op: Option<Op>, c1': Proc)
    requires Reaches(acts, Two(f, c0, c1)) && ProcOk(c0) && ProcOk(c1) && Moves(c1, f, STARTED) == Moved(c1', op)
    ensures Reaches(acts + [Goes(1, STARTED)], Two(FlagsAfter(f, op), c0, c1'))
  {
    SecondGoes(f, c0, c1, c1');
    Reach(acts, Two(f, c0, c1), Goes(1, STARTED), Two(FlagsAfter(f, op), c0, c1'));
  }

  lemma BothOpen(b: Backend) returns (acts: seq<Act>)
    ensures Reaches(acts, Two(Flags({}, {}), EagerLooking(b), EagerLooking(b)))
  {
    var one, both := World(Flags({}, {}), map[0 := EagerLooking(b)]), Two(Flags({}, {}), EagerLooking(b), EagerLooking(b));
    Reach([], BOOT, Opens(0, b), one);
    assert one.procs[1 := EagerLooking(b)] == both.procs;
    acts := [] + [Opens(0, b)];
    Reach(acts, one, Opens(1, b), both);
    acts := acts + [Opens(1, b)];
  }

  lemma BothCheck(b: Backend) returns (acts: seq<Act>)
    ensures Reaches(acts, Two(Flags({}, {}), EagerTaking(b), EagerTaking(b)))
  {
    var f, load := Flags({}, {}), Some(LoadWedged(b, false));
    acts := BothOpen(b);
    FirstReaches(acts, f, EagerLooking(b), EagerLooking(b), load, EagerTaking(b));
    acts := acts + [Goes(0, STARTED)];
    SecondReaches(acts, f, EagerTaking(b), EagerLooking(b), load, EagerTaking(b));
    acts := acts + [Goes(1, STARTED)];
  }

  // Both have read the latch; the first has the claim and has waited in vain.
  lemma OneLatching(b: Backend) returns (acts: seq<Act>)
    ensures Reaches(acts, Two(Flags({b}, {}), EagerLatching(b), EagerTaking(b)))
  {
    var f, g := Flags({}, {}), Flags({b}, {});
    acts := BothCheck(b);
    assert FlagsAfter(f, Some(TakeClaim(b, true))) == g;
    FirstReaches(acts, f, EagerTaking(b), EagerTaking(b), Some(TakeClaim(b, true)), EagerStarting(b));
    acts := acts + [Goes(0, STARTED)];
    FirstReaches(acts, g, EagerStarting(b), EagerTaking(b), Some(Spawn(b)), EagerWaiting(b));
    acts := acts + [Goes(0, STARTED)];
    FirstReaches(acts, g, EagerWaiting(b), EagerTaking(b), None, EagerLatching(b));
    acts := acts + [Goes(0, STARTED)];
  }

  // The first latches the backend and lets go; the second, past its latch read,
  // takes the claim and opens the backend again.
  lemma LatchedIsOpenedAgain(b: Backend) returns (before: seq<Act>, after: seq<Act>)
    ensures var w, a := Two(Flags({b}, {}), EagerLatching(b), EagerTaking(b)), Goes(0, STARTED);
            && Reaches(before, w) && Enabled(w, a) && OpOf(w, a) == Some(Latch(b))
            && IsWorldRun(Acted(w, a), after) && Spawns(Trace(Acted(w, a), after), b) == 1
  {
    before := OneLatching(b);
    after := OpenedAgain(b);
    FirstLatches(b);
  }

  lemma FirstLatches(b: Backend)
    ensures var w, a := Two(Flags({b}, {}), EagerLatching(b), EagerTaking(b)), Goes(0, STARTED);
            && WorldOk(w) && Enabled(w, a) && OpOf(w, a) == Some(Latch(b))
            && Acted(w, a) == Two(Flags({b}, {b}), EagerDropping(b, Latched(b), TimedOut), EagerTaking(b))
  {
    FirstGoes(Flags({b}, {}), EagerLatching(b), EagerTaking(b), EagerDropping(b, Latched(b), TimedOut));
    assert {} + {b} == {b};
  }

  lemma OpenedAgain(b: Backend) returns (acts: seq<Act>)
    ensures var w := Two(Flags({b}, {b}), EagerDropping(b, Latched(b), TimedOut), EagerTaking(b));
            IsWorldRun(w, acts) && Spawns(Trace(w, acts), b) == 1
  {
    var f, drop, done := Flags({b}, {b}), EagerDropping(b, Latched(b), TimedOut), EagerDone(TimedOut);
    var go0, go1 := Goes(0, STARTED), Goes(1, STARTED);
    FirstGoes(f, drop, EagerTaking(b), done);
    acts := TakenAgain(b);
    assert Acted(Two(f, drop, EagerTaking(b)), go0) == Two(Flags({}, {b}), done, EagerTaking(b));
    OneMoreAct(Two(f, drop, EagerTaking(b)), go0, acts);
    assert EventsIn(Two(f, drop, EagerTaking(b)), go0) == [Event(0, Release(b))];
    SpawnsFirst(Event(0, Release(b)), Trace(Two(Flags({}, {b}), done, EagerTaking(b)), acts), b);
    acts := [go0] + acts;
  }

  lemma TakenAgain(b: Backend) returns (acts: seq<Act>)
    ensures var w := Two(Flags({}, {b}), EagerDone(TimedOut), EagerTaking(b));
            IsWorldRun(w, acts) && Spawns(Trace(w, acts), b) == 1
  {
    var f, g, done, go := Flags({}, {b}), Flags({b}, {b}), EagerDone(TimedOut), Goes(1, STARTED);
    var w, w' := Two(f, done, EagerTaking(b)), Two(g, done, EagerStarting(b));
    SecondGoes(f, done, EagerTaking(b), EagerStarting(b));
    SecondGoes(g, done, EagerStarting(b), EagerWaiting(b));
    assert Acted(w, go) == w';
    OneMoreAct(w', go, []);
    SpawnsFirst(Event(1, Spawn(b)), [], b);
    OneMoreAct(w, go, [go] + []);
    SpawnsFirst(Event(1, TakeClaim(b, true)), Trace(w', [go] + []), b);
    acts := [go] + ([go] + []);
  }

  lemma SpawnsFirst(e: Event, events: seq<Event>, b: Backend)
    ensures Spawns([e] + events, b) == (if e.op == Spawn(b) then 1 else 0) + Spawns(events, b)
  {
    assert ([e] + events)[1..] == events;
  }

  lemma OneMoreAct(w: World, a: Act, acts: seq<Act>)
    requires WorldOk(w) && Enabled(w, a) && IsWorldRun(Acted(w, a), acts)
    ensures IsWorldRun(w, [a] + acts) && Trace(w, [a] + acts) == EventsIn(w, a) + Trace(Acted(w, a), acts)
  {
    assert ([a] + acts)[1..] == acts;
  }
}
