/**
 Which backends a deferred decoder tries, and when it may stop: told of each
 packet, and of whole runs, from the flags found and the host's answers alone.
 */
module ProbeStory {
  import opened Common
  import opened AnnexB
  import opened ClaimProtocol
  import opened HwProbe
  import opened DecoderTrace

  // -------------------------------------------------------------------------
  // One packet
  // -------------------------------------------------------------------------

  // The positions whose open was underway or was started during the packet.
  function Tried(from: Probe, opens: seq<Open>): set<nat> {
    (set o | o in opens :: o.position) + if from.Opening? then {from.current} else {}
  }

  function StartOf(from: Probe, host: Host, j: nat): int {
    if from.Opening? && from.current == j then from.started else host.startedAt(j)
  }

  predicate Failed(host: Host, j: nat) { host.poll(j).OpenFailed? || host.poll(j).ThreadDied? }

  // Three seconds without an answer.
  predicate TimedOut(from: Probe, host: Host, j: nat) {
    host.poll(j).Silent? && host.polledAt(j) - StartOf(from, host, j) >= 3000
  }

  // The backend at `j` was latched before the packet, or by an earlier position
  // of the same backend during it.
  predicate FoundLatched(backends: seq<Backend>, from: Probe, f: Flags, host: Host, tried: set<nat>, j: nat)
    requires j < |backends|
  {
    || backends[j] in f.wedged
    || exists i :: i in tried && i < j && backends[i] == backends[j] && TimedOut(from, host, i)
  }

  // Why position `j` was left for the next.
  predicate PassedOver(backends: seq<Backend>, from: Probe, f: Flags, host: Host, tried: set<nat>, f': Flags, j: nat)
    requires j < |backends|
  {
    if j in tried then Failed(host, j) || (TimedOut(from, host, j) && backends[j] in f'.wedged)
    else FoundLatched(backends, from, f, host, tried, j)
  }

  function FirstOf(probe: Probe): nat {
    match probe
    case Claiming(_, next) => next
    case Opening(_, current, _) => current
    case _ => 0
  }

  // The opens are of backends not found latched that could be started, in the
  // order of the list, past what was underway.
  predicate OpensInOrder(backends: seq<Backend>, from: Probe, f: Flags, host: Host, opens: seq<Open>, x: seq<byte>, e: nat) {
    && (forall a, b :: 0 <= a < b < |opens| ==> opens[a].position < opens[b].position)
    && (forall o :: o in opens ==>
          && FirstOf(from) <= o.position <= e && o.position < |backends|
          && !(from.Opening? && from.current == o.position)
          && o.backend == backends[o.position] && o.extradata == x && host.starts(o.position)
          && !FoundLatched(backends, from, f, host, Tried(from, opens), o.position))
  }

  // What became of the probe, and at which position.
  datatype Ending = Exhausted | NotStarted | AwaitsTurn | AwaitsAnswer | IsOpen

  predicate EndsAs(backends: seq<Backend>, from: Probe, f: Flags, host: Host, tried: set<nat>, f': Flags, e: nat,
                   ending: Ending)
    requires e <= |backends|
  {
    if ending == Exhausted then e == |backends|
    else
      && e < |backends|
      && if ending == AwaitsAnswer then
           e in tried && host.poll(e).Silent? && host.polledAt(e) - StartOf(from, host, e) < 3000
         else if ending == IsOpen then e in tried && host.poll(e).Opened?
         else
           && e !in tried && !FoundLatched(backends, from, f, host, tried, e)
           && if ending == NotStarted then !host.starts(e) && backends[e] !in f'.claims else backends[e] in f'.claims
  }

  // Exactly the backends whose open was silent for three seconds were latched.
  ghost predicate LatchesExactly(backends: seq<Backend>, from: Probe, f: Flags, host: Host, tried: set<nat>, f': Flags) {
    forall b :: b in f'.wedged <==>
      b in f.wedged || exists j :: j in tried && j < |backends| && backends[j] == b && TimedOut(from, host, j)
  }

  // The claim of the open still awaited is held, and no other than were held
  // before; that of an open underway and answered is not.
  predicate ClaimsExactly(backends: seq<Backend>, from: Probe, f: Flags, f': Flags, e: nat, ending: Ending)
    requires e <= |backends|
  {
    if ending == AwaitsAnswer && from.Opening? && from.current == e then f'.claims == f.claims
    else
      f'.claims == f.claims - (if from.Opening? && from.current < |backends| then {backends[from.current]} else {})
                   + if ending == AwaitsAnswer && e < |backends| then {backends[e]} else {}
  }

  // Every position up to `e` was passed over for its reason, and there the probe
  // stopped for its own.
  ghost predicate Story(backends: seq<Backend>, from: Probe, x: seq<byte>, f: Flags, host: Host, opens: seq<Open>,
                        f': Flags, e: nat, ending: Ending)
  {
    && FirstOf(from) <= e <= |backends|
    && LatchesExactly(backends, from, f, host, Tried(from, opens), f')
    && ClaimsExactly(backends, from, f, f', e, ending)
    && (forall j :: FirstOf(from) <= j < e ==> PassedOver(backends, from, f, host, Tried(from, opens), f', j))
    && OpensInOrder(backends, from, f, host, opens, x, e)
    && EndsAs(backends, from, f, host, Tried(from, opens), f', e, ending)
  }

  // The decoder that makes.
  function After(p: Pending, from: Probe, x: seq<byte>, host: Host, au: seq<byte>, e: nat, ending: Ending): Decoder
    requires e <= |p.backends| && (ending == IsOpen ==> e < |p.backends|)
  {
    match ending
    case Exhausted => Decoder(if p.required then Refused else Software, None)
    case NotStarted => Decoder(if p.required then Refused else Software, None)
    case AwaitsTurn => Decoder(Software, Some(p.(probe := Claiming(x, e))))
    case AwaitsAnswer => Decoder(Software, Some(p.(probe := Opening(x, e, StartOf(from, host, e)))))
    case IsOpen => Opened(p, p.backends[e], au)
  }

  // An open decoder takes over at a keyframe.
  function Opened(p: Pending, b: Backend, au: seq<byte>): Decoder {
    if ContainsIdr(au) then Decoder(Hardware(b), None) else Decoder(Software, Some(p.(probe := Ready(b))))
  }

  // -------------------------------------------------------------------------
  // Every packet has such a story
  // -------------------------------------------------------------------------

  // A latched backend passed over adds itself to the story.
  lemma SkipStory(backends: seq<Backend>, x: seq<byte>, next: nat, f: Flags, host: Host, opens: seq<Open>, f': Flags,
                  e: nat, ending: Ending)
    requires next < |backends| && backends[next] in f.wedged
    requires Story(backends, Claiming(x, next + 1), x, f, host, opens, f', e, ending)
    ensures Story(backends, Claiming(x, next), x, f, host, opens, f', e, ending)
  {
    var from, from1 := Claiming(x, next), Claiming(x, next + 1);
    assert Tried(from, opens) == Tried(from1, opens);
    SameReasons(backends, from1, from, f, f, host, Tried(from, opens));
    SameLatches(backends, from1, from, f, f, host, Tried(from, opens), f');
    assert next !in Tried(from, opens);
  }

  // Reasons depend on what was tried, since when, and the latches, and on nothing
  // else.
  lemma SameReasons(backends: seq<Backend>, from1: Probe, from: Probe, f1: Flags, f: Flags, host: Host, tried: set<nat>)
    requires f1.wedged == f.wedged && forall j :: j in tried ==> StartOf(from1, host, j) == StartOf(from, host, j)
    ensures forall j: nat :: j < |backends| ==>
              (FoundLatched(backends, from1, f1, host, tried, j) <==> FoundLatched(backends, from, f, host, tried, j))
    ensures forall j: nat, f': Flags :: j < |backends| ==>
              (PassedOver(backends, from1, f1, host, tried, f', j) <==> PassedOver(backends, from, f, host, tried, f', j))
  {
    forall j: nat | j < |backends|
      ensures FoundLatched(backends, from1, f1, host, tried, j) <==> FoundLatched(backends, from, f, host, tried, j)
    {
    }
  }

  lemma SameLatches(backends: seq<Backend>, from1: Probe, from: Probe, f1: Flags, f: Flags, host: Host, tried: set<nat>,
                    f': Flags)
    requires f1.wedged == f.wedged && forall j :: j in tried ==> StartOf(from1, host, j) == StartOf(from, host, j)
    requires LatchesExactly(backends, from1, f1, host, tried, f')
    ensures LatchesExactly(backends, from, f, host, tried, f')
  {
    forall j | j in tried ensures TimedOut(from1, host, j) <==> TimedOut(from, host, j) {}
  }

  // An open started is underway for the rest of the packet.
  lemma OpenStory(backends: seq<Backend>, x: seq<byte>, next: nat, f: Flags, f1: Flags, host: Host, opens: seq<Open>,
                  f': Flags, e: nat, ending: Ending)
    requires next < |backends| && backends[next] !in f.wedged && backends[next] !in f.claims && host.starts(next)
    requires f1 == Taken(f, backends[next])
    requires Story(backends, Opening(x, next, host.startedAt(next)), x, f1, host, opens, f', e, ending)
    ensures Story(backends, Claiming(x, next), x, f, host, [Open(next, backends[next], x)] + opens, f', e, ending)
  {
    var from, from1 := Claiming(x, next), Opening(x, next, host.startedAt(next));
    var o := Open(next, backends[next], x);
    TriedTogether(from, from1, o, opens);
    SameReasons(backends, from1, from, f1, f, host, Tried(from1, opens));
    SameLatches(backends, from1, from, f1, f, host, Tried(from1, opens), f');
    assert f.claims + {backends[next]} - {backends[next]} == f.claims;
    OpenInOrder(backends, x, next, f, f1, host, opens, e);
  }

  lemma OpenInOrder(backends: seq<Backend>, x: seq<byte>, next: nat, f: Flags, f1: Flags, host: Host, opens: seq<Open>,
                    e: nat)
    requires next < |backends| && backends[next] !in f.wedged && host.starts(next) && f1.wedged == f.wedged && next <= e
    requires OpensInOrder(backends, Opening(x, next, host.startedAt(next)), f1, host, opens, x, e)
    ensures OpensInOrder(backends, Claiming(x, next), f, host, [Open(next, backends[next], x)] + opens, x, e)
  {
    var from, from1 := Claiming(x, next), Opening(x, next, host.startedAt(next));
    var o := Open(next, backends[next], x);
    var all := [o] + opens;
    TriedTogether(from, from1, o, opens);
    var tried := Tried(from, all);
    SameReasons(backends, from1, from, f1, f, host, tried);
    FirstNotLatched(backends, from, f, host, tried, next);
    forall o' | o' in all
      ensures next <= o'.position <= e && o'.position < |backends|
      ensures o'.backend == backends[o'.position] && o'.extradata == x && host.starts(o'.position)
      ensures !FoundLatched(backends, from, f, host, tried, o'.position)
    {
      assert o' == o || o' in opens;
    }
  }

  lemma TriedTogether(from: Probe, from1: Probe, o: Open, opens: seq<Open>)
    requires from.Claiming? && from1.Opening? && from1.current == o.position
    ensures Tried(from, [o] + opens) == Tried(from1, opens)
  {
    forall j ensures j in Tried(from, [o] + opens) <==> j in Tried(from1, opens) {
      if j in Tried(from1, opens) && j != o.position {
        var o' :| o' in opens && o'.position == j;
        assert o' in [o] + opens;
      }
      if j == o.position { assert o in [o] + opens; }
    }
  }

  // Nothing before the first position tried can have latched its backend.
  lemma FirstNotLatched(backends: seq<Backend>, from: Probe, f: Flags, host: Host, tried: set<nat>, j: nat)
    requires j < |backends| && backends[j] !in f.wedged && forall i :: i in tried ==> j <= i
    ensures !FoundLatched(backends, from, f, host, tried, j)
  {
  }

  // An open given up on was passed over, and its latch is found from there on.
  lemma GivenUpStory(backends: seq<Backend>, x: seq<byte>, current: nat, started: int, f: Flags, f1: Flags, host: Host,
                     opens: seq<Open>, f': Flags, e: nat, ending: Ending)
    requires current < |backends|
    requires var late := TimedOut(Opening(x, current, started), host, current);
             && (Failed(host, current) || late)
             && f1.wedged == (f.wedged + if late then {backends[current]} else {})
             && f1.claims == f.claims - {backends[current]}
    requires Story(backends, Claiming(x, current + 1), x, f1, host, opens, f', e, ending)
    ensures Story(backends, Opening(x, current, started), x, f, host, opens, f', e, ending)
  {
    var from, from1 := Opening(x, current, started), Claiming(x, current + 1);
    var tried, tried1 := Tried(from, opens), Tried(from1, opens);
    assert tried == tried1 + {current};
    forall j: nat | current < j < |backends|
      ensures FoundLatched(backends, from, f, host, tried, j) <==> FoundLatched(backends, from1, f1, host, tried1, j)
    {
      LatchFoundLater(backends, from, from1, f, f1, host, tried1, current, j);
    }
    LatchesAdded(backends, from, from1, f, f1, host, tried1, current, f');
    forall j | current <= j < e ensures PassedOver(backends, from, f, host, tried, f', j) {
      if j > current { assert PassedOver(backends, from1, f1, host, tried1, f', j); }
    }
  }

  lemma LatchesAdded(backends: seq<Backend>, from: Probe, from1: Probe, f: Flags, f1: Flags, host: Host,
                     tried1: set<nat>, current: nat, f': Flags)
    requires from.Opening? && from.current == current < |backends| && from1.Claiming?
    requires forall i :: i in tried1 ==> i > current
    requires f1.wedged == f.wedged + if TimedOut(from, host, current) then {backends[current]} else {}
    requires LatchesExactly(backends, from1, f1, host, tried1, f')
    ensures LatchesExactly(backends, from, f, host, tried1 + {current}, f')
  {
    var tried := tried1 + {current};
    forall j | j in tried1 ensures TimedOut(from1, host, j) <==> TimedOut(from, host, j) {}
    forall b ensures b in f'.wedged <==>
                       b in f.wedged || exists j :: j in tried && j < |backends| && backends[j] == b && TimedOut(from, host, j)
    {
      if j :| j in tried && j < |backends| && backends[j] == b && TimedOut(from, host, j) {
        assert j == current || j in tried1;
      }
      if TimedOut(from, host, current) && b == backends[current] { assert current in tried; }
    }
  }

  lemma LatchFoundLater(backends: seq<Backend>, from: Probe, from1: Probe, f: Flags, f1: Flags, host: Host,
                        tried1: set<nat>, current: nat, j: nat)
    requires from.Opening? && from.current == current && from1.Claiming? && current < j < |backends|
    requires forall i :: i in tried1 ==> i > current
    requires f1.wedged == f.wedged + if TimedOut(from, host, current) then {backends[current]} else {}
    ensures FoundLatched(backends, from, f, host, tried1 + {current}, j)
       <==> FoundLatched(backends, from1, f1, host, tried1, j)
  {
    if FoundLatched(backends, from, f, host, tried1 + {current}, j) && backends[j] !in f.wedged {
      var i :| i in tried1 + {current} && i < j && backends[i] == backends[j] && TimedOut(from, host, i);
      assert i != current ==> TimedOut(from1, host, i);
    }
    if FoundLatched(backends, from1, f1, host, tried1, j) && backends[j] !in f1.wedged {
      var i :| i in tried1 && i < j && backends[i] == backends[j] && TimedOut(from1, host, i);
      assert i in tried1 + {current} && TimedOut(from, host, i);
    }
    if TimedOut(from, host, current) && backends[j] == backends[current] {
      assert current in tried1 + {current};
    }
  }

  // An iteration has a story, and makes the decoder its ending says.
  ghost predicate Told(p: Pending, from: Probe, x: seq<byte>, f: Flags, host: Host, au: seq<byte>, t: Turn, e: nat, ending: Ending) {
    && Story(p.backends, from, x, f, host, t.opens, t.flags, e, ending)
    && t.verdict.Some? && Decided(p, t) == After(p, from, x, host, au, e, ending)
  }

  lemma {:induction false} IterateStory(p: Pending, from: Probe, x: seq<byte>, f: Flags, host: Host, au: seq<byte>)
    returns (e: nat, ending: Ending)
    requires ProbeOk(p.backends, from) && (from.Claiming? || from.Opening?) && from.extradata == x
    ensures Told(p, from, x, f, host, au, Iterate(p.backends, from, f, host, au), e, ending)
  {
    if from.Claiming? {
      e, ending := ClaimStory(p, x, from.next, f, host, au);
    } else {
      e, ending := PollStory(p, x, from.current, from.started, f, host, au);
    }
  }

  lemma {:induction false} ClaimStory(p: Pending, x: seq<byte>, next: nat, f: Flags, host: Host, au: seq<byte>)
    returns (e: nat, ending: Ending)
    requires next <= |p.backends|
    ensures Told(p, Claiming(x, next), x, f, host, au, Iterate(p.backends, Claiming(x, next), f, host, au), e, ending)
    decreases BackendsLeft(p.backends, Claiming(x, next)), 2, 0
  {
    if next < |p.backends| && p.backends[next] in f.wedged {
      e, ending := ClaimStory(p, x, next + 1, f, host, au);
      ClaimSkips(p, x, next, f, host, au, e, ending);
    } else if next < |p.backends| && p.backends[next] !in f.claims && host.starts(next) {
      e, ending := PollStory(p, x, next, host.startedAt(next), Taken(f, p.backends[next]), host, au);
      ClaimOpens(p, x, next, f, host, au, e, ending);
    } else {
      e, ending := ClaimEnds(p, x, next, f, host, au);
    }
  }

  function Taken(f: Flags, b: Backend): Flags { f.(claims := f.claims + {b}) }

  lemma ClaimSkips(p: Pending, x: seq<byte>, next: nat, f: Flags, host: Host, au: seq<byte>, e: nat, ending: Ending)
    requires next < |p.backends| && p.backends[next] in f.wedged
    requires Told(p, Claiming(x, next + 1), x, f, host, au, Iterate(p.backends, Claiming(x, next + 1), f, host, au), e, ending)
    ensures Told(p, Claiming(x, next), x, f, host, au, Iterate(p.backends, Claiming(x, next), f, host, au), e, ending)
  {
    var rest := Iterate(p.backends, Claiming(x, next + 1), f, host, au);
    SkipStory(p.backends, x, next, f, host, rest.opens, rest.flags, e, ending);
    TurnSkips(p, x, next, f, host, au);
    SameDecoder(p, Claiming(x, next), Claiming(x, next + 1), x, host, au, e, ending);
  }

  lemma TurnSkips(p: Pending, x: seq<byte>, next: nat, f: Flags, host: Host, au: seq<byte>)
    requires next < |p.backends| && p.backends[next] in f.wedged
    ensures var t, rest := Iterate(p.backends, Claiming(x, next), f, host, au),
                           Iterate(p.backends, Claiming(x, next + 1), f, host, au);
            t.opens == rest.opens && t.flags == rest.flags && t.verdict == rest.verdict && t.probe == rest.probe
  {
    assert OneTurn(p.backends, Claiming(x, next), f, host, au).probe == Claiming(x, next + 1);
    assert forall rest: seq<Open> :: [] + rest == rest;
  }

  lemma ClaimOpens(p: Pending, x: seq<byte>, next: nat, f: Flags, host: Host, au: seq<byte>, e: nat, ending: Ending)
    requires next < |p.backends| && p.backends[next] !in f.wedged && p.backends[next] !in f.claims && host.starts(next)
    requires var from1, f1 := Opening(x, next, host.startedAt(next)), Taken(f, p.backends[next]);
             Told(p, from1, x, f1, host, au, Iterate(p.backends, from1, f1, host, au), e, ending)
    ensures Told(p, Claiming(x, next), x, f, host, au, Iterate(p.backends, Claiming(x, next), f, host, au), e, ending)
  {
    var from1, f1 := Opening(x, next, host.startedAt(next)), Taken(f, p.backends[next]);
    var rest := Iterate(p.backends, from1, f1, host, au);
    OpenStory(p.backends, x, next, f, f1, host, rest.opens, rest.flags, e, ending);
    TurnOpens(p, x, next, f, host, au);
    SameDecoder(p, Claiming(x, next), from1, x, host, au, e, ending);
  }

  lemma TurnOpens(p: Pending, x: seq<byte>, next: nat, f: Flags, host: Host, au: seq<byte>)
    requires next < |p.backends| && p.backends[next] !in f.wedged && p.backends[next] !in f.claims && host.starts(next)
    ensures var from1, f1 := Opening(x, next, host.startedAt(next)), Taken(f, p.backends[next]);
            var t, rest := Iterate(p.backends, Claiming(x, next), f, host, au), Iterate(p.backends, from1, f1, host, au);
            && t.opens == [Open(next, p.backends[next], x)] + rest.opens
            && t.flags == rest.flags && t.verdict == rest.verdict && t.probe == rest.probe
  {
  }

  lemma ClaimEnds(p: Pending, x: seq<byte>, next: nat, f: Flags, host: Host, au: seq<byte>) returns (e: nat, ending: Ending)
    requires next <= |p.backends|
    requires next < |p.backends| ==>
               p.backends[next] !in f.wedged && (p.backends[next] in f.claims || !host.starts(next))
    ensures Told(p, Claiming(x, next), x, f, host, au, Iterate(p.backends, Claiming(x, next), f, host, au), e, ending)
  {
    e := next;
    ending := if next == |p.backends| then Exhausted else if p.backends[next] in f.claims then AwaitsTurn else NotStarted;
    assert Tried(Claiming(x, next), []) == {};
  }

  lemma {:induction false} PollStory(p: Pending, x: seq<byte>, current: nat, started: int, f: Flags, host: Host, au: seq<byte>)
    returns (e: nat, ending: Ending)
    requires current < |p.backends|
    ensures Told(p, Opening(x, current, started), x, f, host, au,
                 Iterate(p.backends, Opening(x, current, started), f, host, au), e, ending)
    decreases BackendsLeft(p.backends, Opening(x, current, started)), 1, 0
  {
    if Failed(host, current) || TimedOut(Opening(x, current, started), host, current) {
      var f1 := GaveUp(f, p.backends[current], TimedOut(Opening(x, current, started), host, current));
      e, ending := ClaimStory(p, x, current + 1, f1, host, au);
      PollGivesUp(p, x, current, started, f, host, au, e, ending);
    } else {
      e, ending := current, if host.poll(current).Opened? then IsOpen else AwaitsAnswer;
      PollEnds(p, x, current, started, f, host, au);
    }
  }

  function GaveUp(f: Flags, b: Backend, late: bool): Flags {
    Flags(f.claims - {b}, f.wedged + if late then {b} else {})
  }

  lemma TurnGivesUp(p: Pending, x: seq<byte>, current: nat, started: int, f: Flags, host: Host, au: seq<byte>)
    requires current < |p.backends|
    requires Failed(host, current) || TimedOut(Opening(x, current, started), host, current)
    ensures var from, f1 := Opening(x, current, started),
              GaveUp(f, p.backends[current], TimedOut(Opening(x, current, started), host, current));
            var t, rest := Iterate(p.backends, from, f, host, au), Iterate(p.backends, Claiming(x, current + 1), f1, host, au);
            t.opens == rest.opens && t.flags == rest.flags && t.verdict == rest.verdict && t.probe == rest.probe
  {
    var from := Opening(x, current, started);
    var b, t := p.backends[current], OneTurn(p.backends, from, f, host, au);
    assert f.wedged + {} == f.wedged;
    assert t.probe == Claiming(x, current + 1) && t.flags == GaveUp(f, b, TimedOut(from, host, current));
    assert forall rest: seq<Open> :: [] + rest == rest;
  }

  lemma PollGivesUp(p: Pending, x: seq<byte>, current: nat, started: int, f: Flags, host: Host, au: seq<byte>,
                    e: nat, ending: Ending)
    requires current < |p.backends|
    requires Failed(host, current) || TimedOut(Opening(x, current, started), host, current)
    requires var f1 := GaveUp(f, p.backends[current], TimedOut(Opening(x, current, started), host, current));
             Told(p, Claiming(x, current + 1), x, f1, host, au,
                  Iterate(p.backends, Claiming(x, current + 1), f1, host, au), e, ending)
    ensures Told(p, Opening(x, current, started), x, f, host, au,
                 Iterate(p.backends, Opening(x, current, started), f, host, au), e, ending)
  {
    var f1 := GaveUp(f, p.backends[current], TimedOut(Opening(x, current, started), host, current));
    var rest := Iterate(p.backends, Claiming(x, current + 1), f1, host, au);
    GivenUpStory(p.backends, x, current, started, f, f1, host, rest.opens, rest.flags, e, ending);
    TurnGivesUp(p, x, current, started, f, host, au);
    SameDecoder(p, Opening(x, current, started), Claiming(x, current + 1), x, host, au, e, ending);
  }

  // What is made of a later position does not depend on where the packet began.
  lemma SameDecoder(p: Pending, from: Probe, from1: Probe, x: seq<byte>, host: Host, au: seq<byte>, e: nat, ending: Ending)
    requires e <= |p.backends| && (ending == IsOpen ==> e < |p.backends|)
    requires StartOf(from, host, e) == StartOf(from1, host, e)
    ensures After(p, from, x, host, au, e, ending) == After(p, from1, x, host, au, e, ending)
  {
  }

  lemma PollEnds(p: Pending, x: seq<byte>, current: nat, started: int, f: Flags, host: Host, au: seq<byte>)
    requires current < |p.backends|
    requires !Failed(host, current) && !TimedOut(Opening(x, current, started), host, current)
    ensures Told(p, Opening(x, current, started), x, f, host, au,
                 Iterate(p.backends, Opening(x, current, started), f, host, au), current,
                 if host.poll(current).Opened? then IsOpen else AwaitsAnswer)
  {
    var from := Opening(x, current, started);
    assert Tried(from, []) == {current};
    NothingLatched(p.backends, from, f, host, current);
    TurnEnds(p, x, current, started, f, host, au);
  }

  lemma NothingLatched(backends: seq<Backend>, from: Probe, f: Flags, host: Host, current: nat)
    requires !TimedOut(from, host, current)
    ensures LatchesExactly(backends, from, f, host, {current}, f)
  {
  }

  lemma TurnEnds(p: Pending, x: seq<byte>, current: nat, started: int, f: Flags, host: Host, au: seq<byte>)
    requires current < |p.backends|
    requires !Failed(host, current) && !TimedOut(Opening(x, current, started), host, current)
    ensures var from, open := Opening(x, current, started), host.poll(current).Opened?;
            var t := Iterate(p.backends, from, f, host, au);
            && t.opens == [] && t.flags.wedged == f.wedged
            && t.flags.claims == (if open then f.claims - {p.backends[current]} else f.claims)
            && t.verdict.Some?
            && Decided(p, t) == After(p, from, x, host, au, current, if open then IsOpen else AwaitsAnswer)
  {
  }

  // Where a probe with a packet in hand starts from: what it was doing, or the
  // head of the list once the pair of parameter sets is complete.
  function StartsFrom(probe: Probe, au: seq<byte>): Probe {
    if !probe.Gathering? then probe
    else
      var sps := OrElse(LastOfType(Nals(au), SPS), probe.sps);
      var pps := OrElse(LastOfType(Nals(au), PPS), probe.pps);
      if sps.Some? && pps.Some? then Claiming(ExtradataFrom(sps.value, pps.value), 0) else probe
  }

  // A packet shown to a probe past gathering.
  ghost predicate PacketTold(p: Pending, from: Probe, f: Flags, host: Host, packet: seq<byte>, sent: Sent, e: nat, ending: Ending)
  {
    match from
    case Gathering(_, _, _) => false
    case Ready(b) => sent.decoder == Opened(p, b, packet) && sent.opens == [] && sent.flags == f
    case _ =>
      && Story(p.backends, from, from.extradata, f, host, sent.opens, sent.flags, e, ending)
      && sent.decoder == After(p, from, from.extradata, host, packet, e, ending)
  }

  lemma PacketStory(d: Decoder, f: Flags, host: Host, packet: seq<byte>) returns (e: nat, ending: Ending)
    requires DecoderOk(d) && d.pending.Some? && packet != []
    requires !StartsFrom(d.pending.value.probe, packet).Gathering?
    ensures var p := d.pending.value;
            PacketTold(p, StartsFrom(p.probe, packet), f, host, packet, SentPacket(d, f, host, packet), e, ending)
  {
    var p := d.pending.value;
    var from := StartsFrom(p.probe, packet);
    e, ending := 0, Exhausted;
    if !from.Ready? { e, ending := IterateStory(p, from, from.extradata, f, host, packet); }
  }

  // -------------------------------------------------------------------------
  // Whole runs
  // -------------------------------------------------------------------------

  // The list of one decoder's backends, whether they are required, the packets it
  // is shown, and what came of each.
  datatype Record = Record(backends: seq<Backend>, required: bool, inputs: seq<Input>, sent: seq<Sent>)

  type Run = r: Record | |r.sent| == |r.inputs| witness Record([], false, [], [])

  // What came of each packet is what the decoder does.
  ghost predicate Happened(r: Run) {
    forall m: nat :: m < |r.inputs| ==> r.sent[m] == SentAt(r.backends, r.required, r.inputs, m)
  }

  function RunOf(backends: seq<Backend>, required: bool, inputs: seq<Input>): (r: Run)
    ensures Happened(r)
  {
    Record(backends, required, inputs,
           seq(|inputs|, m requires 0 <= m < |inputs| => SentAt(backends, required, inputs, m)))
  }

  function DecoderIn(r: Run, n: nat): Decoder
    requires n <= |r.inputs|
  {
    Reached(r.backends, r.required, r.inputs[..n])
  }

  // Packet `m` opened position `j`.
  predicate OpenedIn(r: Run, m: nat, j: nat)
    requires m < |r.inputs|
  {
    exists o :: o in r.sent[m].opens && o.position == j
  }

  // Position `j` was found latched at packet `m`, never having been opened.
  ghost predicate LatchedIn(r: Run, m: nat, j: nat)
    requires m < |r.inputs| && j < |r.backends|
  {
    r.backends[j] in r.sent[m].flags.wedged && forall m' :: 0 <= m' <= m ==> !OpenedIn(r, m', j)
  }

  // The open started at packet `k` was seen at packet `m` to have failed, or to
  // have been silent for three seconds, and then its backend was latched.
  ghost predicate GivenUpIn(r: Run, k: nat, m: nat, j: nat)
    requires k <= m < |r.inputs| && j < |r.backends|
  {
    var host := r.inputs[m].host;
    && OpenedIn(r, k, j)
    && (host.poll(j).OpenFailed? || host.poll(j).ThreadDied?
        || (host.poll(j).Silent? && host.polledAt(j) - r.inputs[k].host.startedAt(j) >= 3000
            && r.backends[j] in r.sent[m].flags.wedged))
  }

  // Position `j` is done with by packet `n`.
  ghost predicate Gone(r: Run, n: nat, j: nat)
    requires n <= |r.inputs| && j < |r.backends|
  {
    || (exists m :: 0 <= m < n && LatchedIn(r, m, j))
    || (exists k, m :: 0 <= k <= m < n && GivenUpIn(r, k, m, j))
  }

  ghost predicate AllGone(r: Run, n: nat, e: nat)
    requires n <= |r.inputs| && e <= |r.backends|
  {
    forall j: nat :: j < e ==> Gone(r, n, j)
  }

  // No open so far is at `e` or past it.
  ghost predicate OpenedBelow(r: Run, n: nat, e: nat)
    requires n <= |r.inputs|
  {
    forall m, o :: 0 <= m < n && o in r.sent[m].opens ==> o.position < e
  }

  // The open of position `j` started at `started`.
  ghost predicate StartedAt(r: Run, n: nat, j: nat, started: int)
    requires n <= |r.inputs|
  {
    exists k :: 0 <= k < n && OpenedIn(r, k, j) && r.inputs[k].host.startedAt(j) == started
  }

  // The open of position `j` was seen to have succeeded, every position before it
  // gone.
  ghost predicate SucceededAt(r: Run, n: nat, j: nat)
    requires n <= |r.inputs| && j < |r.backends|
  {
    && AllGone(r, n, j)
    && exists k, m :: 0 <= k <= m < n && OpenedIn(r, k, j) && r.inputs[m].host.poll(j).Opened?
  }

  ghost predicate Succeeded(r: Run, n: nat, b: Backend)
    requires n <= |r.inputs|
  {
    exists j :: 0 <= j < |r.backends| && r.backends[j] == b && SucceededAt(r, n, j)
  }

  // The turn of position `j` came and its open could not be started.
  ghost predicate CouldNotStart(r: Run, n: nat, j: nat)
    requires n <= |r.inputs| && j < |r.backends|
  {
    && AllGone(r, n, j)
    && exists m :: 0 <= m < n && !r.inputs[m].host.starts(j) && r.backends[j] !in r.inputs[m].flags.wedged
         && r.backends[j] !in r.sent[m].flags.claims && forall k :: 0 <= k <= m ==> !OpenedIn(r, k, j)
  }

  // There was nothing left to try, or what there was could not be started.
  ghost predicate NothingLeft(r: Run, n: nat)
    requires n <= |r.inputs|
  {
    AllGone(r, n, |r.backends|) || exists j :: 0 <= j < |r.backends| && CouldNotStart(r, n, j)
  }

  // Whether gathering came to a pair of parameter sets in time.
  predicate PairInTime(r: Run, n: nat)
    requires n <= |r.inputs|
  {
    var aus := AccessUnits(r.inputs[..n]);
    Complete(aus) && CompletedAt(aus) <= 900
  }

  // What the decoder's state says of its past.
  ghost predicate Justified(r: Run, n: nat, d: Decoder)
    requires n <= |r.inputs|
  {
    match d.pending
    case Some(p) =>
      && p.backends == r.backends && p.required == r.required
      && (match p.probe
          case Gathering(_, _, _) => OpenedBelow(r, n, 0)
          case Claiming(_, next) => next <= |r.backends| && AllGone(r, n, next) && OpenedBelow(r, n, next)
          case Opening(_, current, started) =>
            current < |r.backends| && AllGone(r, n, current) && OpenedBelow(r, n, current + 1)
            && StartedAt(r, n, current, started)
          case Ready(b) => Succeeded(r, n, b))
    case None =>
      if d.active.Hardware? then Succeeded(r, n, d.active.backend)
      else PairInTime(r, n) ==> NothingLeft(r, n)
  }

  lemma GoneStays(r: Run, n: nat, e: nat)
    requires n < |r.inputs| && e <= |r.backends| && AllGone(r, n, e)
    ensures AllGone(r, n + 1, e)
  {
    var m := n + 1;
    forall j: nat | j < e ensures Gone(r, m, j) { assert Gone(r, n, j); }
  }

  lemma SucceededStays(r: Run, n: nat, b: Backend)
    requires n < |r.inputs| && Succeeded(r, n, b)
    ensures Succeeded(r, n + 1, b)
  {
    var j :| 0 <= j < |r.backends| && r.backends[j] == b && SucceededAt(r, n, j);
    GoneStays(r, n, j);
    assert SucceededAt(r, n + 1, j);
  }

  lemma NothingLeftStays(r: Run, n: nat)
    requires n < |r.inputs| && NothingLeft(r, n)
    ensures NothingLeft(r, n + 1)
  {
    if AllGone(r, n, |r.backends|) {
      GoneStays(r, n, |r.backends|);
    } else {
      var j :| 0 <= j < |r.backends| && CouldNotStart(r, n, j);
      GoneStays(r, n, j);
      assert CouldNotStart(r, n + 1, j);
    }
  }

  // A packet that opens nothing and leaves the decoder as it was.
  lemma NothingHappens(r: Run, n: nat, d: Decoder)
    requires n < |r.inputs| && Justified(r, n, d) && r.sent[n].opens == []
    requires d.pending.None? && !d.active.Hardware? && PairInTime(r, n + 1) ==> PairInTime(r, n)
    ensures Justified(r, n + 1, d)
  {
    if d.pending.Some? {
      match d.pending.value.probe {
        case Gathering(_, _, _) =>
        case Claiming(_, next) => GoneStays(r, n, next);
        case Opening(_, current, _) => GoneStays(r, n, current);
        case Ready(b) => SucceededStays(r, n, b);
      }
    } else if d.active.Hardware? {
      SucceededStays(r, n, d.active.backend);
    } else if PairInTime(r, n + 1) {
      NothingLeftStays(r, n);
    }
  }

  // Where packet `n` finds the probe.
  ghost predicate Begun(r: Run, n: nat, from: Probe)
    requires n <= |r.inputs|
  {
    match from
    case Claiming(_, next) => next <= |r.backends| && AllGone(r, n, next) && OpenedBelow(r, n, next)
    case Opening(_, current, started) =>
      current < |r.backends| && AllGone(r, n, current) && OpenedBelow(r, n, current + 1)
      && StartedAt(r, n, current, started)
    case _ => false
  }

  // What the story of packet `n` passed over is gone after it.
  lemma PassedIsGone(r: Run, n: nat, from: Probe, e: nat, ending: Ending, j: nat)
    requires n < |r.inputs| && Begun(r, n, from)
    requires Story(r.backends, from, from.extradata, r.inputs[n].flags, r.inputs[n].host, r.sent[n].opens,
                   r.sent[n].flags, e, ending)
    requires FirstOf(from) <= j < e
    ensures Gone(r, n + 1, j)
  {
    var sent, host := r.sent[n], r.inputs[n].host;
    var tried := Tried(from, sent.opens);
    assert PassedOver(r.backends, from, r.inputs[n].flags, host, tried, sent.flags, j);
    if j in tried {
      var k := StartedBy(r, n, from, j);
      assert GivenUpIn(r, k, n, j);
    } else {
      NotTriedNotOpened(r, n, from, j);
      PassedIsLatched(r.backends, from, r.inputs[n].flags, host, tried, sent.flags, e, j);
      assert LatchedIn(r, n, j);
    }
  }

  // Its open, if it has one, started at a known packet.
  lemma StartedBy(r: Run, n: nat, from: Probe, j: nat) returns (k: nat)
    requires n < |r.inputs| && Begun(r, n, from) && j in Tried(from, r.sent[n].opens)
    ensures k <= n && OpenedIn(r, k, j) && r.inputs[k].host.startedAt(j) == StartOf(from, r.inputs[n].host, j)
  {
    if from.Opening? && from.current == j {
      k :| 0 <= k < n && OpenedIn(r, k, j) && r.inputs[k].host.startedAt(j) == from.started;
    } else {
      k := n;
    }
  }

  lemma NotTriedNotOpened(r: Run, n: nat, from: Probe, j: nat)
    requires n < |r.inputs| && Begun(r, n, from) && FirstOf(from) <= j && j !in Tried(from, r.sent[n].opens)
    ensures forall m :: 0 <= m <= n ==> !OpenedIn(r, m, j)
  {
    forall m, o | 0 <= m <= n && o in r.sent[m].opens ensures o.position != j {
      if m == n { assert o.position in Tried(from, r.sent[n].opens); }
    }
  }

  lemma PassedIsLatched(backends: seq<Backend>, from: Probe, f: Flags, host: Host, tried: set<nat>, f': Flags, e: nat, j: nat)
    requires j < e <= |backends| && f.wedged <= f'.wedged && j !in tried && FirstOf(from) <= j
    requires forall i :: i in tried ==> FirstOf(from) <= i
    requires forall i :: FirstOf(from) <= i < e ==> PassedOver(backends, from, f, host, tried, f', i)
    ensures backends[j] in f'.wedged
  {
    assert PassedOver(backends, from, f, host, tried, f', j);
    if backends[j] !in f.wedged {
      var i :| i in tried && i < j && backends[i] == backends[j] && TimedOut(from, host, i);
      assert PassedOver(backends, from, f, host, tried, f', i);
    }
  }

  lemma StoryGoes(r: Run, n: nat, from: Probe, e: nat, ending: Ending)
    requires n < |r.inputs| && Begun(r, n, from)
    requires Story(r.backends, from, from.extradata, r.inputs[n].flags, r.inputs[n].host, r.sent[n].opens,
                   r.sent[n].flags, e, ending)
    ensures AllGone(r, n + 1, e)
  {
    var m := n + 1;
    forall j: nat | j < e ensures Gone(r, m, j) {
      if j < FirstOf(from) {
        GoneStays(r, n, FirstOf(from));
        assert AllGone(r, m, FirstOf(from));
      } else {
        PassedIsGone(r, n, from, e, ending, j);
      }
    }
  }

  lemma StoryOpens(r: Run, n: nat, from: Probe, x: seq<byte>, e: nat)
    requires n < |r.inputs| && Begun(r, n, from) && FirstOf(from) <= e
    requires OpensInOrder(r.backends, from, r.inputs[n].flags, r.inputs[n].host, r.sent[n].opens, x, e)
    ensures OpenedBelow(r, n + 1, e + 1)
    ensures e !in Tried(from, r.sent[n].opens) ==> OpenedBelow(r, n + 1, e)
  {
    OpenedEarlier(r, n, from, e);
    OpenedUpTo(r.backends, from, r.inputs[n].flags, r.inputs[n].host, r.sent[n].opens, x, e);
  }

  // What was opened before the packet lies before where it ends, unless it is what
  // was underway.
  lemma OpenedEarlier(r: Run, n: nat, from: Probe, e: nat)
    requires n <= |r.inputs| && Begun(r, n, from) && FirstOf(from) <= e
    ensures OpenedBelow(r, n, e + 1)
    ensures !(from.Opening? && from.current == e) ==> OpenedBelow(r, n, e)
  {
  }

  lemma OpenedUpTo(backends: seq<Backend>, from: Probe, f: Flags, host: Host, opens: seq<Open>, x: seq<byte>, e: nat)
    requires OpensInOrder(backends, from, f, host, opens, x, e)
    ensures forall o :: o in opens ==> o.position <= e
    ensures e !in Tried(from, opens) ==> !(from.Opening? && from.current == e) && forall o :: o in opens ==> o.position != e
  {
    if e !in Tried(from, opens) {
      forall o | o in opens ensures o.position != e { assert o.position in Tried(from, opens); }
    }
  }

  lemma StoryJustifies(r: Run, n: nat, p: Pending, from: Probe, e: nat, ending: Ending)
    requires n < |r.inputs| && Begun(r, n, from) && p.backends == r.backends && p.required == r.required
    requires Story(r.backends, from, from.extradata, r.inputs[n].flags, r.inputs[n].host, r.sent[n].opens,
                   r.sent[n].flags, e, ending)
    ensures Justified(r, n + 1, After(p, from, from.extradata, r.inputs[n].host, r.inputs[n].packet, e, ending))
  {
    StoryGoes(r, n, from, e, ending);
    StoryOpens(r, n, from, from.extradata, e);
    if ending == NotStarted {
      NotStartedJustifies(r, n, from, e);
      SettledJustified(r, n + 1, p);
    } else {
      EndingIs(r.backends, from, r.inputs[n].flags, r.inputs[n].host, Tried(from, r.sent[n].opens),
               r.sent[n].flags, e, ending);
      EndingJustifies(r, n, p, from, e, ending);
    }
  }

  lemma EndingIs(backends: seq<Backend>, from: Probe, f: Flags, host: Host, tried: set<nat>, f': Flags, e: nat, ending: Ending)
    requires e <= |backends| && EndsAs(backends, from, f, host, tried, f', e, ending)
    ensures if ending == Exhausted then e == |backends| else e < |backends|
    ensures ending == AwaitsTurn ==> e !in tried
    ensures ending == AwaitsAnswer || ending == IsOpen ==> e in tried
    ensures ending == IsOpen ==> host.poll(e).Opened?
  {
  }

  lemma EndingJustifies(r: Run, n: nat, p: Pending, from: Probe, e: nat, ending: Ending)
    requires n < |r.inputs| && Begun(r, n, from) && p.backends == r.backends && p.required == r.required
    requires FirstOf(from) <= e <= |r.backends| && AllGone(r, n + 1, e) && OpenedBelow(r, n + 1, e + 1)
    requires ending != NotStarted && if ending == Exhausted then e == |r.backends| else e < |r.backends|
    requires ending == AwaitsTurn ==> OpenedBelow(r, n + 1, e)
    requires ending == AwaitsAnswer || ending == IsOpen ==> e in Tried(from, r.sent[n].opens)
    requires ending == IsOpen ==> r.inputs[n].host.poll(e).Opened?
    ensures Justified(r, n + 1, After(p, from, from.extradata, r.inputs[n].host, r.inputs[n].packet, e, ending))
  {
    match ending
    case Exhausted => SettledJustified(r, n + 1, p);
    case AwaitsTurn => TurnJustified(r, n + 1, p, from.extradata, e);
    case AwaitsAnswer => AnswerAwaited(r, n, p, from, e);
    case IsOpen => OpenTaken(r, n, p, from, e);
  }

  lemma AnswerAwaited(r: Run, n: nat, p: Pending, from: Probe, e: nat)
    requires n < |r.inputs| && Begun(r, n, from) && p.backends == r.backends && p.required == r.required
    requires e < |r.backends| && AllGone(r, n + 1, e) && OpenedBelow(r, n + 1, e + 1)
    requires e in Tried(from, r.sent[n].opens)
    ensures Justified(r, n + 1,
              Decoder(Software, Some(p.(probe := Opening(from.extradata, e, StartOf(from, r.inputs[n].host, e))))))
  {
    var k := StartedBy(r, n, from, e);
    AnswerJustified(r, n + 1, p, from.extradata, e, StartOf(from, r.inputs[n].host, e));
  }

  lemma OpenTaken(r: Run, n: nat, p: Pending, from: Probe, e: nat)
    requires n < |r.inputs| && Begun(r, n, from) && p.backends == r.backends && p.required == r.required
    requires e < |r.backends| && AllGone(r, n + 1, e)
    requires e in Tried(from, r.sent[n].opens) && r.inputs[n].host.poll(e).Opened?
    ensures Justified(r, n + 1, Opened(p, r.backends[e], r.inputs[n].packet))
  {
    OpenJustifies(r, n, from, e);
    OpenedJustified(r, n + 1, p, r.backends[e], r.inputs[n].packet);
  }

  lemma SettledJustified(r: Run, n: nat, p: Pending)
    requires n <= |r.inputs| && NothingLeft(r, n)
    ensures Justified(r, n, Decoder(if p.required then Refused else Software, None))
  {
  }

  lemma TurnJustified(r: Run, n: nat, p: Pending, x: seq<byte>, e: nat)
    requires n <= |r.inputs| && p.backends == r.backends && p.required == r.required && e <= |r.backends|
    requires AllGone(r, n, e) && OpenedBelow(r, n, e)
    ensures Justified(r, n, Decoder(Software, Some(p.(probe := Claiming(x, e)))))
  {
  }

  lemma AnswerJustified(r: Run, n: nat, p: Pending, x: seq<byte>, e: nat, started: int)
    requires n <= |r.inputs| && p.backends == r.backends && p.required == r.required && e < |r.backends|
    requires AllGone(r, n, e) && OpenedBelow(r, n, e + 1) && StartedAt(r, n, e, started)
    ensures Justified(r, n, Decoder(Software, Some(p.(probe := Opening(x, e, started)))))
  {
  }

  lemma OpenedJustified(r: Run, n: nat, p: Pending, b: Backend, packet: seq<byte>)
    requires n <= |r.inputs| && p.backends == r.backends && p.required == r.required && Succeeded(r, n, b)
    ensures Justified(r, n, Opened(p, b, packet))
  {
  }

  lemma NotStartedJustifies(r: Run, n: nat, from: Probe, e: nat)
    requires n < |r.inputs| && Begun(r, n, from) && FirstOf(from) <= e <= |r.backends| && AllGone(r, n + 1, e)
    requires var tried := Tried(from, r.sent[n].opens);
             EndsAs(r.backends, from, r.inputs[n].flags, r.inputs[n].host, tried, r.sent[n].flags, e, NotStarted)
    ensures NothingLeft(r, n + 1)
  {
    var m := n + 1;
    NotTriedNotOpened(r, n, from, e);
    NotLatchedBefore(r.backends, from, r.inputs[n].flags, r.inputs[n].host, Tried(from, r.sent[n].opens), e);
    assert CouldNotStart(r, m, e);
  }

  lemma OpenJustifies(r: Run, n: nat, from: Probe, e: nat)
    requires n < |r.inputs| && Begun(r, n, from) && e < |r.backends| && AllGone(r, n + 1, e)
    requires e in Tried(from, r.sent[n].opens) && r.inputs[n].host.poll(e).Opened?
    ensures Succeeded(r, n + 1, r.backends[e])
  {
    var m := n + 1;
    var k := StartedBy(r, n, from, e);
    assert SucceededAt(r, m, e);
  }

  lemma NotLatchedBefore(backends: seq<Backend>, from: Probe, f: Flags, host: Host, tried: set<nat>, j: nat)
    requires j < |backends| && !FoundLatched(backends, from, f, host, tried, j)
    ensures backends[j] !in f.wedged
  {
  }

  // A decoder that stopped gathering without the pair has no pair in time.
  lemma NoPairStays(r: Run, n: nat)
    requires n < |r.inputs| && PairInTime(r, n + 1)
    requires DecoderIn(r, n).pending.None?
    ensures PairInTime(r, n)
  {
    var front, all := r.inputs[..n], r.inputs[..n + 1];
    assert all[..n] == front && all[|all| - 1] == r.inputs[n];
    ProbeHistory(r.backends, r.required, front);
    var aus, more := AccessUnits(front), AccessUnits(all);
    assert more == aus || (more == aus + [r.inputs[n].packet] && more[..|more| - 1] == aus);
  }

  // While the pair is incomplete nothing is opened and nothing else is settled.
  lemma StillGathering(r: Run, n: nat)
    requires Happened(r)
    requires n < |r.inputs| && Justified(r, n, DecoderIn(r, n)) && r.inputs[n].packet != []
    requires DecoderIn(r, n).pending.Some? && StartsFrom(DecoderIn(r, n).pending.value.probe, r.inputs[n].packet).Gathering?
    ensures Justified(r, n + 1, r.sent[n].decoder)
  {
    var d, all := DecoderIn(r, n), r.inputs[..n + 1];
    ProbeHistory(r.backends, r.required, all);
    ReachedNext(r.backends, r.required, r.inputs, n);
    assert r.sent[n].opens == [];
    if r.sent[n].decoder.pending.None? { GatheringSettles(r, n); }
  }

  lemma GatheringSettles(r: Run, n: nat)
    requires n < |r.inputs| && r.inputs[n].packet != [] && DecoderIn(r, n).pending.Some?
    requires StartsFrom(DecoderIn(r, n).pending.value.probe, r.inputs[n].packet).Gathering?
    ensures !PairInTime(r, n + 1)
  {
    var front, all := r.inputs[..n], r.inputs[..n + 1];
    assert all[..n] == front && all[|all| - 1] == r.inputs[n];
    ProbeHistory(r.backends, r.required, front);
    var aus, more := AccessUnits(front), AccessUnits(all);
    assert more == aus + [r.inputs[n].packet] && more[..|more| - 1] == aus;
  }

  lemma OneMoreJustified(r: Run, n: nat)
    requires Happened(r)
    requires n < |r.inputs| && Justified(r, n, DecoderIn(r, n))
    ensures Justified(r, n + 1, r.sent[n].decoder)
  {
    var d, packet := DecoderIn(r, n), r.inputs[n].packet;
    if d.pending.None? || packet == [] {
      if d.pending.None? && PairInTime(r, n + 1) { NoPairStays(r, n); }
      NothingHappens(r, n, d);
    } else if StartsFrom(d.pending.value.probe, packet).Gathering? {
      StillGathering(r, n);
    } else {
      PastGatheringJustified(r, n);
    }
  }

  lemma PastGatheringJustified(r: Run, n: nat)
    requires Happened(r)
    requires n < |r.inputs| && Justified(r, n, DecoderIn(r, n)) && DecoderIn(r, n).pending.Some?
    requires r.inputs[n].packet != []
    requires !StartsFrom(DecoderIn(r, n).pending.value.probe, r.inputs[n].packet).Gathering?
    ensures Justified(r, n + 1, r.sent[n].decoder)
  {
    var d, last := DecoderIn(r, n), r.inputs[n];
    var p := d.pending.value;
    var from := StartsFrom(p.probe, last.packet);
    var e, ending := PacketStory(d, last.flags, last.host, last.packet);
    if from.Ready? {
      SucceededStays(r, n, from.on);
    } else {
      StoryJustifies(r, n, p, from, e, ending);
    }
  }

  lemma {:induction false} RunIsJustified(r: Run, n: nat)
    requires Happened(r)
    requires n <= |r.inputs|
    ensures Justified(r, n, DecoderIn(r, n))
  {
    if n > 0 {
      var m: nat := n - 1;
      RunIsJustified(r, m);
      OneMoreJustified(r, m);
      ReachedNext(r.backends, r.required, r.inputs, m);
    }
  }

  // A decoder that had its pair in time settles, on software or in refusal, only
  // once every backend of the list was found latched, or was opened and failed
  // or was silent for three seconds; or one whose turn it was could not be
  // started.
  lemma SettlesOnlyWithNothingLeft(r: Run, n: nat)
    requires Happened(r)
    requires n <= |r.inputs| && PairInTime(r, n)
    requires DecoderIn(r, n).pending.None? && !DecoderIn(r, n).active.Hardware?
    ensures NothingLeft(r, n)
  {
    RunIsJustified(r, n);
  }

  // Hardware takes over only as the backend whose open succeeded, every backend
  // before it in the list gone.
  lemma HandsOverToSuccess(r: Run, n: nat)
    requires Happened(r)
    requires n <= |r.inputs| && DecoderIn(r, n).active.Hardware?
    ensures Succeeded(r, n, DecoderIn(r, n).active.backend)
  {
    RunIsJustified(r, n);
  }

  // One decoder's opens are in the order of the list, over its whole life.
  lemma OpensIncrease(r: Run, k: nat, n: nat, o: Open, o': Open)
    requires Happened(r)
    requires k < n < |r.inputs| && o in r.sent[k].opens && o' in r.sent[n].opens
    ensures o.position < o'.position
  {
    RunIsJustified(r, n);
    var d, last := DecoderIn(r, n), r.inputs[n];
    var e, ending := PacketStory(d, last.flags, last.host, last.packet);
  }
}
