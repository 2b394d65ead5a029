/**
 The synchronous hardware open: wait for the backend's turn, then for the open
 itself, each bounded. Time is milliseconds since the call began.

 Other callers run between the passes of the wait, so what each pass finds is
 given: the latch, the claim and the clock.
 */
module EagerOpen {
  import opened Common
  import opened ClaimProtocol
  import opened HwProbe

  const BUDGET := 2 * HW_OPEN_DEADLINE

  datatype Pass = Pass(wedged: bool, claimFree: bool, elapsed: int)

  datatype EagerResult = DecoderOpened | AlreadyWedged | BackendBusy | NotStarted | OpenError | ThreadLost | TimedOut

  predicate EndsWait(p: Pass) { p.wedged || p.claimFree || p.elapsed >= BUDGET }

  ghost predicate WaitEnds(passes: seq<Pass>) { exists k :: 0 <= k < |passes| && EndsWait(passes[k]) }

  // The pass on which the wait for the claim ends.
  function LastPass(passes: seq<Pass>): (k: nat)
    requires WaitEnds(passes)
    ensures k < |passes| && EndsWait(passes[k])
    ensures forall j :: 0 <= j < k ==> !EndsWait(passes[j])
  {
    if EndsWait(passes[0]) then 0 else
    assert WaitEnds(passes[1..]) by {
      var k :| 0 <= k < |passes| && EndsWait(passes[k]);
      assert passes[1..][k - 1] == passes[k];
    }
    1 + LastPass(passes[1..])
  }

  function RecvTimeout(elapsed: int): int {
    Min(Max(Max(BUDGET - elapsed, 0), HW_OPEN_DEADLINE), HW_OPEN_DEADLINE)
  }

  // The phase a caller following its own rules is in after `ops`.
  function PhaseAfter(p: Phase, ops: seq<Op>): Option<Phase> {
    if ops == [] then Some(p)
    else
      var before := PhaseAfter(p, ops[..|ops| - 1]);
      if before.None? then None else Next(before.value, ops[|ops| - 1])
  }

  lemma OneOpLater(p: Phase, ops: seq<Op>, op: Op)
    ensures PhaseAfter(p, ops + [op])
         == if PhaseAfter(p, ops).None? then None else Next(PhaseAfter(p, ops).value, op)
  {
    assert (ops + [op])[..|ops|] == ops;
  }

  // What one pass of the wait does: read the latch, then try for the claim.
  function PassOps(b: Backend, p: Pass): seq<Op> {
    if p.wedged then [LoadWedged(b, true)] else [LoadWedged(b, false), TakeClaim(b, p.claimFree)]
  }

  function PassesOps(b: Backend, passes: seq<Pass>): seq<Op> {
    if passes == [] then [] else PassesOps(b, passes[..|passes| - 1]) + PassOps(b, passes[|passes| - 1])
  }

  // Every pass of the wait, the one that ends it included.
  function WaitOps(b: Backend, passes: seq<Pass>): seq<Op>
    requires WaitEnds(passes)
  {
    PassesOps(b, passes[..LastPass(passes) + 1])
  }

  lemma OnePassLater(b: Backend, passes: seq<Pass>, k: nat)
    requires k < |passes|
    ensures PassesOps(b, passes[..k + 1]) == PassesOps(b, passes[..k]) + PassOps(b, passes[k])
  {
    assert passes[..k + 1][..k] == passes[..k];
  }

  lemma OnePassOn(b: Backend, ops: seq<Op>, p: Pass)
    requires PhaseAfter(Away, ops) == Some(Away)
    ensures PhaseAfter(Away, ops + PassOps(b, p)) == Some(if !p.wedged && p.claimFree then Claimed(b) else Away)
  {
    OneOpLater(Away, ops, LoadWedged(b, p.wedged));
    OneOpLater(Away, ops + [LoadWedged(b, false)], TakeClaim(b, p.claimFree));
    assert ops + [LoadWedged(b, false)] + [TakeClaim(b, p.claimFree)]
        == ops + [LoadWedged(b, false), TakeClaim(b, p.claimFree)];
  }

  // The passes before the last leave the caller where it was, and the last
  // leaves it with the claim or without.
  lemma {:induction false} WaitKeepsRules(b: Backend, passes: seq<Pass>, k: nat)
    requires k < |passes| && forall j :: 0 <= j < k ==> !EndsWait(passes[j])
    ensures PhaseAfter(Away, PassesOps(b, passes[..k])) == Some(Away)
    ensures PhaseAfter(Away, PassesOps(b, passes[..k + 1]))
         == Some(if !passes[k].wedged && passes[k].claimFree then Claimed(b) else Away)
  {
    if k > 0 { WaitKeepsRules(b, passes, k - 1); }
    OnePassLater(b, passes, k);
    OnePassOn(b, PassesOps(b, passes[..k]), passes[k]);
  }

  // The wait for the backend's turn: `None` once the claim is held.
  method WaitForClaim(b: Backend, passes: seq<Pass>) returns (refusal: Option<EagerResult>, ops: seq<Op>, elapsed: int)
    requires WaitEnds(passes)
    ensures var last := passes[LastPass(passes)];
            && refusal == (if last.wedged then Some(AlreadyWedged) else if !last.claimFree then Some(BackendBusy) else None)
            && elapsed == last.elapsed
    ensures PhaseAfter(Away, ops) == Some(if refusal.None? then Claimed(b) else Away)
    ensures ops == WaitOps(b, passes)
  {
    ops, elapsed := [], 0;
    var k := 0;
    ghost var last := LastPass(passes);
    WaitKeepsRules(b, passes, last);
    while true
      invariant k <= last
      invariant ops == PassesOps(b, passes[..k])
      decreases last - k
    {
      OnePassLater(b, passes, k);
      elapsed := passes[k].elapsed;
      if passes[k].wedged {
        ops := ops + [LoadWedged(b, true)];
        return Some(AlreadyWedged), ops, elapsed;
      }
      ops := ops + [LoadWedged(b, false), TakeClaim(b, passes[k].claimFree)];
      if passes[k].claimFree { return None, ops, elapsed; }
      if elapsed >= BUDGET { return Some(BackendBusy), ops, elapsed; }
      k := k + 1;
    }
  }

  function Answer(reply: Poll): EagerResult {
    match reply
    case Opened => DecoderOpened
    case OpenFailed => OpenError
    case ThreadDied => ThreadLost
    case Silent => TimedOut
  }

  // The operations on the shared flags once the claim is held. A silent open
  // is latched before the claim is let go.
  function HeldOps(b: Backend, started: bool, reply: Poll): seq<Op> {
    if !started then [Release(b)]
    else if reply.Silent? then [Spawn(b), Latch(b), Release(b)]
    else [Spawn(b), Release(b)]
  }

  predicate HadClaim(passes: seq<Pass>)
    requires WaitEnds(passes)
  {
    var last := passes[LastPass(passes)];
    !last.wedged && last.claimFree
  }

  // The longest the call can take: up to the end of the wait, and then, if an
  // open was started, for the answer.
  function LongestWait(passes: seq<Pass>, started: bool): int
    requires WaitEnds(passes)
  {
    var elapsed := passes[LastPass(passes)].elapsed;
    elapsed + if HadClaim(passes) && started then RecvTimeout(elapsed) else 0
  }

  function EagerOutcome(passes: seq<Pass>, started: bool, reply: Poll): EagerResult
    requires WaitEnds(passes)
  {
    var last := passes[LastPass(passes)];
    if last.wedged then AlreadyWedged
    else if !last.claimFree then BackendBusy
    else if !started then NotStarted
    else Answer(reply)
  }

  // The whole call is a run of the protocol that ends with the claim released,
  // whatever the latch, the claim, the spawn and the open came to.
  method OpenHwBounded(b: Backend, passes: seq<Pass>, started: bool, reply: Poll)
    returns (r: EagerResult, ops: seq<Op>, longest: int)
    requires WaitEnds(passes)
    ensures PhaseAfter(Away, ops) == Some(Away)
    ensures r == EagerOutcome(passes, started, reply)
    ensures ops == WaitOps(b, passes) + if HadClaim(passes) then HeldOps(b, started, reply) else []
    ensures longest == LongestWait(passes, started)
  {
    var refusal;
    refusal, ops, longest := WaitForClaim(b, passes);
    if refusal.Some? {
      assert ops + [] == ops;
      return refusal.value, ops, longest;
    }
    HeldOpsRelease(b, ops, started, reply);
    if !started {
      ops := ops + [Release(b)];
      return NotStarted, ops, longest;
    }
    ops := ops + [Spawn(b)];
    var remaining := Max(Max(BUDGET - longest, 0), HW_OPEN_DEADLINE);
    longest := longest + Min(remaining, HW_OPEN_DEADLINE);
    if reply.Silent? { ops := ops + [Latch(b)]; }
    ops := ops + [Release(b)];
    r := Answer(reply);
  }

  lemma HeldOpsRelease(b: Backend, ops: seq<Op>, started: bool, reply: Poll)
    requires PhaseAfter(Away, ops) == Some(Claimed(b))
    ensures PhaseAfter(Away, ops + HeldOps(b, started, reply)) == Some(Away)
    ensures started && reply.Silent? ==> ops + [Spawn(b)] + [Latch(b)] + [Release(b)] == ops + HeldOps(b, started, reply)
    ensures started && !reply.Silent? ==> ops + [Spawn(b)] + [Release(b)] == ops + HeldOps(b, started, reply)
  {
    if !started {
      OneOpLater(Away, ops, Release(b));
    } else {
      var spawned := ops + [Spawn(b)];
      OneOpLater(Away, ops, Spawn(b));
      if reply.Silent? {
        OneOpLater(Away, spawned, Latch(b));
        OneOpLater(Away, spawned + [Latch(b)], Release(b));
        assert spawned + [Latch(b)] + [Release(b)] == ops + [Spawn(b), Latch(b), Release(b)];
      } else {
        OneOpLater(Away, spawned, Release(b));
        assert spawned + [Release(b)] == ops + [Spawn(b), Release(b)];
      }
    }
  }

  // Each answer by what brought it about: the open's own on a pass that found the
  // backend unlatched and free, and otherwise the refusal that pass meets. Only
  // silence latches the backend, and an open is started at most once.
  lemma OutcomeIs(b: Backend, passes: seq<Pass>, started: bool, reply: Poll)
    requires WaitEnds(passes)
    ensures var last, r := passes[LastPass(passes)], EagerOutcome(passes, started, reply);
            && (r.AlreadyWedged? <==> last.wedged)
            && (r.BackendBusy? <==> !last.wedged && !last.claimFree)
            && (r.NotStarted? <==> !last.wedged && last.claimFree && !started)
            && (r.DecoderOpened? <==> !last.wedged && last.claimFree && started && reply.Opened?)
            && (r.OpenError? <==> !last.wedged && last.claimFree && started && reply.OpenFailed?)
            && (r.ThreadLost? <==> !last.wedged && last.claimFree && started && reply.ThreadDied?)
            && (r.TimedOut? <==> !last.wedged && last.claimFree && started && reply.Silent?)
    ensures Latch(b) in HeldOps(b, started, reply) <==> started && reply.Silent?
    ensures Spawn(b) in HeldOps(b, started, reply) <==> started
    ensures HeldOps(b, started, reply)[|HeldOps(b, started, reply)| - 1] == Release(b)
  {
  }

  // Every pass but the last found the backend unlatched and taken, with the
  // budget not yet spent.
  lemma EarlierPassesWaited(passes: seq<Pass>, k: nat)
    requires WaitEnds(passes) && k < LastPass(passes)
    ensures !passes[k].wedged && !passes[k].claimFree && passes[k].elapsed < 6000
  {
    assert !EndsWait(passes[k]);
  }

  // The wait for an answer is one deadline whatever the wait for the claim
  // took, and a refusal comes only at a pass that found the latch or was already
  // past the budget. So a call that starts its open keeps within the two-deadline
  // budget exactly when it had the claim within the first deadline, and any other
  // exactly when its last pass was within the budget.
  lemma WaitWithinBudgetIff(passes: seq<Pass>, started: bool)
    requires WaitEnds(passes)
    ensures LongestWait(passes, started) <= 6000
       <==> passes[LastPass(passes)].elapsed <= if HadClaim(passes) && started then 3000 else 6000
  {
    assert RecvTimeout(passes[LastPass(passes)].elapsed) == HW_OPEN_DEADLINE;
  }

  // In particular a call refused as busy keeps within it only if its last pass
  // was at the budget to the millisecond.
  lemma BusyWithinBudgetIff(passes: seq<Pass>, started: bool, reply: Poll)
    requires WaitEnds(passes) && EagerOutcome(passes, started, reply) == BackendBusy
    ensures LongestWait(passes, started) <= 6000 <==> passes[LastPass(passes)].elapsed == 6000
  {
    WaitWithinBudgetIff(passes, started);
  }

  // What the call does keep to: the budget, one more deadline, and the time
  // between two passes.
  lemma WaitIsBounded(passes: seq<Pass>, started: bool, gap: nat)
    requires WaitEnds(passes)
    requires passes[0].elapsed <= gap
    requires forall k :: 0 < k < |passes| ==> passes[k].elapsed <= passes[k - 1].elapsed + gap
    ensures LongestWait(passes, started) <= 9000 + gap
  {
    var last := LastPass(passes);
    assert RecvTimeout(passes[last].elapsed) == HW_OPEN_DEADLINE;
    if last > 0 { assert !EndsWait(passes[last - 1]); }
  }

  // A claim released late in the budget leaves a call that waits past it; so do
  // a claim never released and a latch set late, with no claim had at all.
  lemma WaitCanPassBudget()
    ensures var late, busy, latched := [Pass(false, false, 0), Pass(false, true, 5950)],
                [Pass(false, false, 0), Pass(false, false, 6001)], [Pass(false, false, 5990), Pass(true, false, 6040)];
            && WaitEnds(late) && HadClaim(late) && LongestWait(late, true) > BUDGET
            && WaitEnds(busy) && !HadClaim(busy) && LongestWait(busy, true) > BUDGET
            && WaitEnds(latched) && !HadClaim(latched) && LongestWait(latched, true) > BUDGET
  {
    SecondEnds(Pass(false, false, 0), Pass(false, true, 5950));
    SecondEnds(Pass(false, false, 0), Pass(false, false, 6001));
    SecondEnds(Pass(false, false, 5990), Pass(true, false, 6040));
  }

  lemma SecondEnds(first: Pass, second: Pass)
    requires !EndsWait(first) && EndsWait(second)
    ensures WaitEnds([first, second]) && LastPass([first, second]) == 1
  {
    var passes := [first, second];
    assert EndsWait(passes[1]) && !EndsWait(passes[0]);
  }
}
