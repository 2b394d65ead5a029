/**
 The process-wide flags every hardware probe runs against: one claim and one
 wedge latch per backend, touched by any number of callers one atomic
 operation at a time.

 A caller reads the latch, then compare-exchanges the claim, then spawns the
 open: three separate operations, between which any other caller may run.
 */
module ClaimProtocol {
  import opened Common

  datatype Backend = Vaapi | Qsv | Nvdec | V4l2 | Videotoolbox

  // The backends whose flag is set.
  datatype Flags = Flags(claims: set<Backend>, wedged: set<Backend>)

  // One operation of a caller on the shared flags, with what it observed.
  datatype Op =
    | LoadWedged(backend: Backend, wedged: bool)
    | TakeClaim(backend: Backend, taken: bool)
    | Spawn(backend: Backend)
    | Latch(backend: Backend)
    | Release(backend: Backend)

  // Where a caller stands. A caller that is `Away` is between calls, or has
  // given up on a backend; `Probing` is the open running on its own thread.
  datatype Phase =
    | Away
    | Checked(backend: Backend)
    | Claimed(backend: Backend)
    | Probing(backend: Backend)
    | Latched(backend: Backend)

  // A caller's own rules: which operation may follow which.
  function Next(p: Phase, op: Op): Option<Phase> {
    match op
    case LoadWedged(b, wedged) => if p == Away then Some(if wedged then Away else Checked(b)) else None
    case TakeClaim(b, taken) => if p == Checked(b) then Some(if taken then Claimed(b) else Away) else None
    case Spawn(b) => if p == Claimed(b) then Some(Probing(b)) else None
    case Latch(b) => if p == Probing(b) then Some(Latched(b)) else None
    case Release(b) => if Holds(p, b) then Some(Away) else None
  }

  // Whether a caller in this phase owns the backend's claim.
  predicate Holds(p: Phase, b: Backend) { p == Claimed(b) || p == Probing(b) || p == Latched(b) }

  // What the operation sees is what is there.
  predicate Observes(f: Flags, op: Op) {
    match op
    case LoadWedged(b, wedged) => wedged == (b in f.wedged)
    case TakeClaim(b, taken) => taken == (b !in f.claims)
    case _ => true
  }

  function Effect(f: Flags, op: Op): Flags {
    match op
    case TakeClaim(b, _) => f.(claims := f.claims + {b})
    case Latch(b) => f.(wedged := f.wedged + {b})
    case Release(b) => f.(claims := f.claims - {b})
    case _ => f
  }

  type Caller = nat

  // A caller without an entry is away.
  datatype System = System(flags: Flags, phases: map<Caller, Phase>)

  datatype Event = Event(caller: Caller, op: Op)

  function PhaseOf(s: System, i: Caller): Phase { if i in s.phases then s.phases[i] else Away }

  predicate CanStep(s: System, e: Event) {
    Next(PhaseOf(s, e.caller), e.op).Some? && Observes(s.flags, e.op)
  }

  function Step(s: System, e: Event): System
    requires CanStep(s, e)
  {
    System(Effect(s.flags, e.op), s.phases[e.caller := Next(PhaseOf(s, e.caller), e.op).value])
  }

  predicate IsRun(s: System, events: seq<Event>)
    decreases |events|
  {
    events != [] ==> CanStep(s, events[0]) && IsRun(Step(s, events[0]), events[1..])
  }

  function Final(s: System, events: seq<Event>): System
    requires IsRun(s, events)
    decreases |events|
  {
    if events == [] then s else Final(Step(s, events[0]), events[1..])
  }

  const INITIAL := System(Flags({}, {}), map[])

  // -------------------------------------------------------------------------
  // One holder per set claim, in every interleaving
  // -------------------------------------------------------------------------

  ghost predicate Held(s: System, b: Backend) {
    exists i :: Holds(PhaseOf(s, i), b)
  }

  ghost predicate ClaimsAreHeld(s: System) {
    && (forall b :: b in s.flags.claims <==> Held(s, b))
    && (forall b, i, j :: Holds(PhaseOf(s, i), b) && Holds(PhaseOf(s, j), b) ==> i == j)
    && (forall b, i :: PhaseOf(s, i) == Latched(b) ==> b in s.flags.wedged)
  }

  lemma StepKeepsClaims(s: System, e: Event)
    requires ClaimsAreHeld(s) && CanStep(s, e)
    ensures ClaimsAreHeld(Step(s, e))
  {
    var s' := Step(s, e);
    PhasesAfter(s, e);
    forall b ensures b in s'.flags.claims <==> Held(s', b) {
      ClaimAfter(s, e, b);
    }
    forall b, i, j | Holds(PhaseOf(s', i), b) && Holds(PhaseOf(s', j), b) ensures i == j {
      if i != j { SecondHolder(s, e, b, i, j); }
    }
  }

  lemma PhasesAfter(s: System, e: Event)
    requires CanStep(s, e)
    ensures forall i :: PhaseOf(Step(s, e), i)
                     == if i == e.caller then Next(PhaseOf(s, e.caller), e.op).value else PhaseOf(s, i)
  {
  }

  lemma ClaimAfter(s: System, e: Event, b: Backend)
    requires ClaimsAreHeld(s) && CanStep(s, e)
    ensures b in Step(s, e).flags.claims <==> Held(Step(s, e), b)
  {
    var s' := Step(s, e);
    PhasesAfter(s, e);
    if b in s'.flags.claims {
      if Holds(PhaseOf(s', e.caller), b) {
      } else {
        assert Held(s, b);
        var i :| Holds(PhaseOf(s, i), b);
        assert Holds(PhaseOf(s', i), b);
      }
    }
    if Held(s', b) {
      var i :| Holds(PhaseOf(s', i), b);
      assert i != e.caller ==> Holds(PhaseOf(s, i), b);
    }
  }

  // A second holder could only have taken a claim that was set already.
  lemma SecondHolder(s: System, e: Event, b: Backend, i: Caller, j: Caller)
    requires ClaimsAreHeld(s) && CanStep(s, e) && i != j
    ensures !(Holds(PhaseOf(Step(s, e), i), b) && Holds(PhaseOf(Step(s, e), j), b))
  {
    PhasesAfter(s, e);
    assert b in s.flags.claims <==> Held(s, b);
  }

  lemma {:induction false} ExclusiveClaims(s: System, events: seq<Event>)
    requires ClaimsAreHeld(s) && IsRun(s, events)
    ensures ClaimsAreHeld(Final(s, events))
    ensures s.flags.wedged <= Final(s, events).flags.wedged
    decreases |events|
  {
    if events != [] {
      StepKeepsClaims(s, events[0]);
      ExclusiveClaims(Step(s, events[0]), events[1..]);
    }
  }

  // From process start, in every interleaving: a claim flag is set exactly
  // while one caller holds it, and a latched backend stays latched.
  lemma ClaimsHeldFromStart(events: seq<Event>)
    requires IsRun(INITIAL, events)
    ensures ClaimsAreHeld(Final(INITIAL, events))
  {
    ExclusiveClaims(INITIAL, events);
  }

  // -------------------------------------------------------------------------
  // Spawns after the latch
  // -------------------------------------------------------------------------

  // Callers past the latch read of `b` that have not spawned yet.
  ghost function Committed(s: System, b: Backend): set<Caller> {
    set i | i in s.phases && (s.phases[i] == Checked(b) || s.phases[i] == Claimed(b))
  }

  ghost function Checkers(s: System, b: Backend): set<Caller> {
    set i | i in s.phases && s.phases[i] == Checked(b)
  }

  function Spawns(events: seq<Event>, b: Backend): nat {
    if events == [] then 0 else (if events[0].op == Spawn(b) then 1 else 0) + Spawns(events[1..], b)
  }

  lemma CommittedShrinks(s: System, e: Event, b: Backend)
    requires CanStep(s, e) && b in s.flags.wedged
    ensures |Committed(Step(s, e), b)| + (if e.op == Spawn(b) then 1 else 0) <= |Committed(s, b)|
  {
    var before, after := Committed(s, b), Committed(Step(s, e), b);
    CommittedNext(s, e, b);
    if e.op == Spawn(b) {
      SubsetSize(after, before - {e.caller});
    } else {
      SubsetSize(after, before);
    }
  }

  // No caller commits to a latched backend, and a spawn uses one up.
  lemma CommittedNext(s: System, e: Event, b: Backend)
    requires CanStep(s, e) && b in s.flags.wedged
    ensures Committed(Step(s, e), b) <= Committed(s, b)
    ensures e.op == Spawn(b) ==> e.caller in Committed(s, b) && e.caller !in Committed(Step(s, e), b)
  {
  }

  lemma {:induction false} SubsetSize<T>(a: set<T>, b: set<T>)
    requires a <= b
    ensures |a| <= |b|
  {
    if a != {} {
      var x :| x in a;
      SubsetSize(a - {x}, b - {x});
    }
  }

  lemma {:induction false} SpawnsAfterLatch(s: System, events: seq<Event>, b: Backend)
    requires IsRun(s, events) && b in s.flags.wedged
    ensures Spawns(events, b) + |Committed(Final(s, events), b)| <= |Committed(s, b)|
    decreases |events|
  {
    if events != [] {
      CommittedShrinks(s, events[0], b);
      SpawnsAfterLatch(Step(s, events[0]), events[1..], b);
    }
  }

  // From the operation that latches a backend on, it is spawned at most once
  // for each caller that was then between its latch read and its
  // compare-exchange.
  lemma SpawnBoundAtLatch(s: System, i: Caller, b: Backend, events: seq<Event>)
    requires ClaimsAreHeld(s) && CanStep(s, Event(i, Latch(b)))
    requires IsRun(Step(s, Event(i, Latch(b))), events)
    ensures Spawns(events, b) <= |Checkers(s, b)|
  {
    var s' := Step(s, Event(i, Latch(b)));
    forall j | j in Committed(s', b) ensures j in Checkers(s, b) {
      assert Holds(PhaseOf(s, i), b);
      assert PhaseOf(s, j) == s.phases[j];
    }
    SubsetSize(Committed(s', b), Checkers(s, b));
    SpawnsAfterLatch(s', events, b);
  }

  // The bound is attained: each such caller can still spawn the backend.
  lemma {:induction false} SpawnBoundAttained(s: System, b: Backend) returns (events: seq<Event>)
    requires b !in s.flags.claims
    ensures IsRun(s, events) && Spawns(events, b) == |Checkers(s, b)|
    decreases |Checkers(s, b)|
  {
    events := [];
    if Checkers(s, b) != {} {
      var i :| i in Checkers(s, b);
      var s' := Step(Step(Step(s, Event(i, TakeClaim(b, true))), Event(i, Spawn(b))), Event(i, Release(b)));
      assert Checkers(s', b) == Checkers(s, b) - {i};
      var rest := SpawnBoundAttained(s', b);
      events := RunProbe(s, i, b, rest);
    }
  }

  // One checked caller takes the free claim, spawns and gives the claim up.
  lemma RunProbe(s: System, i: Caller, b: Backend, rest: seq<Event>) returns (events: seq<Event>)
    requires PhaseOf(s, i) == Checked(b) && b !in s.flags.claims
    requires IsRun(Step(Step(Step(s, Event(i, TakeClaim(b, true))), Event(i, Spawn(b))), Event(i, Release(b))), rest)
    ensures IsRun(s, events) && Spawns(events, b) == 1 + Spawns(rest, b)
  {
    var release := [Event(i, Release(b))] + rest;
    assert release[1..] == rest && Spawns(release, b) == Spawns(rest, b);
    var spawn := [Event(i, Spawn(b))] + release;
    assert spawn[1..] == release && Spawns(spawn, b) == 1 + Spawns(release, b);
    events := [Event(i, TakeClaim(b, true))] + spawn;
    assert events[1..] == spawn;
  }

  // No run from `s` spawns `b` again.
  ghost predicate NeverSpawnedAgain(s: System, b: Backend) {
    forall events :: IsRun(s, events) ==> Spawns(events, b) == 0
  }

  // With the latch read and the compare-exchange as separate steps, a latched
  // backend can be spawned again; it cannot be exactly when no caller is
  // between the two.
  lemma LatchIsFinalIff(s: System, b: Backend)
    requires ClaimsAreHeld(s) && b in s.flags.wedged
    ensures NeverSpawnedAgain(s, b) <==> Committed(s, b) == {}
  {
    if Committed(s, b) == {} {
      forall events | IsRun(s, events) ensures Spawns(events, b) == 0 {
        SpawnsAfterLatch(s, events, b);
      }
    } else {
      var i :| i in Committed(s, b);
      var events := LateSpawn(s, i, b);
      assert Spawns(events, b) > 0;
    }
  }

  // The run that spawns a latched backend: whoever holds the claim lets go,
  // and the caller that had already read the latch takes it.
  lemma LateSpawn(s: System, i: Caller, b: Backend) returns (events: seq<Event>)
    requires ClaimsAreHeld(s) && i in Committed(s, b)
    ensures IsRun(s, events) && Spawns(events, b) > 0
  {
    if s.phases[i] == Claimed(b) {
      events := SpawnNow(s, i, b);
    } else if b !in s.flags.claims {
      events := RunProbe(s, i, b, []);
    } else {
      assert Held(s, b);
      var h :| Holds(PhaseOf(s, h), b);
      if PhaseOf(s, h) == Claimed(b) {
        events := SpawnNow(s, h, b);
      } else {
        var freed := Step(s, Event(h, Release(b)));
        var rest := RunProbe(freed, i, b, []);
        events := [Event(h, Release(b))] + rest;
        assert events[1..] == rest;
      }
    }
  }

  lemma SpawnNow(s: System, i: Caller, b: Backend) returns (events: seq<Event>)
    requires PhaseOf(s, i) == Claimed(b)
    ensures IsRun(s, events) && Spawns(events, b) > 0
  {
    events := [Event(i, Spawn(b))];
    assert events[1..] == [];
  }

  // -------------------------------------------------------------------------
  // Calls that run as one step
  // -------------------------------------------------------------------------

  // No caller is in the middle of a call.
  ghost predicate BetweenCalls(s: System) {
    forall i :: PhaseOf(s, i).Away? || PhaseOf(s, i).Probing?
  }

  // A run cut into whole calls, each entered and left between calls, never
  // spawns a latched backend.
  lemma {:induction false} AtomicCallsNeverRespawn(s: System, calls: seq<seq<Event>>, b: Backend)
    requires b in s.flags.wedged && BetweenCalls(s) && IsCallRun(s, calls)
    ensures forall k :: 0 <= k < |calls| ==> Spawns(calls[k], b) == 0
    decreases |calls|
  {
    if calls != [] {
      assert Committed(s, b) == {} by {
        forall i | i in s.phases ensures s.phases[i] != Checked(b) && s.phases[i] != Claimed(b) {
          assert PhaseOf(s, i) == s.phases[i];
        }
      }
      SpawnsAfterLatch(s, calls[0], b);
      LatchedStays(s, calls[0]);
      AtomicCallsNeverRespawn(Final(s, calls[0]), calls[1..], b);
    }
  }

  lemma {:induction false} LatchedStays(s: System, events: seq<Event>)
    requires IsRun(s, events)
    ensures s.flags.wedged <= Final(s, events).flags.wedged
    decreases |events|
  {
    if events != [] { LatchedStays(Step(s, events[0]), events[1..]); }
  }

  ghost predicate IsCallRun(s: System, calls: seq<seq<Event>>)
    decreases |calls|
  {
    calls != [] ==>
      && IsRun(s, calls[0])
      && BetweenCalls(Final(s, calls[0]))
      && IsCallRun(Final(s, calls[0]), calls[1..])
  }
}
