/**
 The newest-wins handoff from N decode threads to one inference thread: a
 value in a mutex and a one-token wakeup channel per slot.

 A producer replaces the value and then signals; the consumer receives a token
 and then takes the value. Each of these is a step of its own, and any other
 thread's steps may fall between.
 */
module LatestSlot {
  import opened Common

  // Where a slot's producer is: outside an offer, between the two halves of
  // one, or gone (its sender dropped), possibly in the middle of an offer.
  datatype Producer = Idle | Replaced | Gone(midOffer: bool)

  // The values a producer offers are numbered 0, 1, 2, ... in offer order;
  // `offered` is how many were put in the slot. `dropped` and `delivered`
  // are what became of them.
  datatype Slot = Slot(
    pending: Option<nat>, token: bool, producer: Producer,
    offered: nat, dropped: seq<nat>, delivered: seq<nat>)

  const EMPTY := Slot(None, false, Idle, 0, [], [])

  // The consumer is selecting, or has received slot `slot`'s token and not
  // looked inside yet. `live` are the slots it still waits on.
  datatype Consumer = Selecting | Received(slot: nat)

  datatype State = State(slots: seq<Slot>, live: seq<nat>, consumer: Consumer)

  datatype Label =
    | Replace(slot: nat)
    | Signal(slot: nat)
    | Die(slot: nat)
    | Receive(position: nat)
    | Take
    | Retire(position: nat)

  predicate Enabled(s: State, a: Label) {
    match a
    case Replace(i) => i < |s.slots| && s.slots[i].producer == Idle
    case Signal(i) => i < |s.slots| && s.slots[i].producer == Replaced
    case Die(i) => i < |s.slots| && !s.slots[i].producer.Gone?
    case Receive(k) => s.consumer == Selecting && k < |s.live| && s.live[k] < |s.slots| && s.slots[s.live[k]].token
    case Take => s.consumer.Received? && s.consumer.slot < |s.slots|
    // A channel reports its sender gone only once it is drained.
    case Retire(k) =>
      && s.consumer == Selecting && k < |s.live| && s.live[k] < |s.slots|
      && !s.slots[s.live[k]].token && s.slots[s.live[k]].producer.Gone?
  }

  function Step(s: State, a: Label): State
    requires Enabled(s, a)
  {
    match a
    case Replace(i) =>
      s.(slots := s.slots[i := Put(s.slots[i])])
    case Signal(i) => s.(slots := s.slots[i := s.slots[i].(token := true, producer := Idle)])
    case Die(i) => s.(slots := s.slots[i := s.slots[i].(producer := Gone(s.slots[i].producer == Replaced))])
    case Receive(k) =>
      var i := s.live[k];
      s.(slots := s.slots[i := s.slots[i].(token := false)], consumer := Received(i))
    case Take =>
      s.(consumer := Selecting, slots := s.slots[s.consumer.slot := Emptied(s.slots[s.consumer.slot])])
    case Retire(k) => s.(live := s.live[..k] + s.live[k + 1..])
  }

  function Initial(n: nat): State {
    State(seq(n, _ => EMPTY), seq(n, i => i), Selecting)
  }

  // -------------------------------------------------------------------------
  // What every step keeps
  // -------------------------------------------------------------------------

  predicate Increasing(s: seq<nat>) { forall i, j :: 0 <= i < j < |s| ==> s[i] < s[j] }

  // Exactly one of: delivered, dropped by a newer offer, still in the slot.
  predicate Accounted(pending: Option<nat>, delivered: seq<nat>, dropped: seq<nat>, v: nat) {
    var inPending := pending == Some(v);
    var inDelivered := v in delivered;
    var inDropped := v in dropped;
    || (inPending && !inDelivered && !inDropped)
    || (!inPending && inDelivered && !inDropped)
    || (!inPending && !inDelivered && inDropped)
  }

  ghost predicate SlotOk(slot: Slot) {
    && (slot.pending.Some? ==> slot.offered > 0 && slot.pending.value == slot.offered - 1)
    && Increasing(slot.delivered) && Increasing(slot.dropped)
    && (forall v :: v in slot.delivered || v in slot.dropped ==> v < slot.offered)
    && (forall v: nat :: v < slot.offered ==> Accounted(slot.pending, slot.delivered, slot.dropped, v))
    && (slot.producer == Gone(true) || slot.producer == Replaced ==> slot.offered > 0)
  }

  // A value in the slot is announced: by a queued token, by a producer about
  // to signal, by a consumer about to look, or never, when the producer died
  // between the two halves of its last offer.
  predicate Announced(slot: Slot, looking: bool) {
    slot.pending.Some? ==> slot.token || slot.producer == Replaced || looking || slot.producer == Gone(true)
  }

  // A slot is given up with nothing in it but, at most, the offer its
  // producer died in the middle of.
  predicate Retired(slot: Slot) {
    slot.producer.Gone? && !slot.token && (slot.pending.Some? ==> slot.producer.midOffer)
  }

  ghost predicate SlotInv(s: State, i: nat)
    requires i < |s.slots|
  {
    && SlotOk(s.slots[i])
    && Announced(s.slots[i], s.consumer == Received(i))
    && (i !in s.live ==> Retired(s.slots[i]) && s.consumer != Received(i))
  }

  ghost predicate Inv(s: State) {
    && (forall i: nat {:trigger SlotInv(s, i)} :: i < |s.slots| ==> SlotInv(s, i))
    && LiveOk(s.live, |s.slots|)
    && (s.consumer.Received? ==> s.consumer.slot < |s.slots|)
  }

  predicate LiveOk(live: seq<nat>, n: nat) {
    Increasing(live) && forall k :: 0 <= k < |live| ==> live[k] < n
  }

  // At first every slot is waited on, and nothing is offered, queued or held.
  lemma InitialInv(n: nat)
    ensures Inv(Initial(n))
    ensures |Initial(n).slots| == |Initial(n).live| == n && Initial(n).consumer == Selecting
    ensures forall i :: 0 <= i < n ==> Initial(n).live[i] == i && Initial(n).slots[i] == Slot(None, false, Idle, 0, [], [])
  {
    forall i: nat | i < n ensures i in Initial(n).live {
      assert Initial(n).live[i] == i;
    }
  }

  lemma AppendValue(s: seq<nat>, v: nat)
    requires Increasing(s) && forall x :: x in s ==> x < v
    ensures Increasing(s + [v])
    ensures forall x :: x in s + [v] <==> x in s || x == v
  {
    forall i, j | 0 <= i < j < |s| + 1 ensures (s + [v])[i] < (s + [v])[j] {
      if j == |s| { assert s[i] in s; }
    }
  }

  // Putting the next offer in a slot, and taking what is in it.
  function Put(slot: Slot): Slot {
    slot.(pending := Some(slot.offered), offered := slot.offered + 1, producer := Replaced,
          dropped := if slot.pending.Some? then slot.dropped + [slot.pending.value] else slot.dropped)
  }

  function Emptied(slot: Slot): Slot {
    slot.(pending := None,
          delivered := if slot.pending.Some? then slot.delivered + [slot.pending.value] else slot.delivered)
  }

  lemma PutKeepsSlot(slot: Slot)
    requires SlotOk(slot)
    ensures SlotOk(Put(slot))
  {
    if slot.pending.Some? {
      var v := slot.pending.value;
      assert Accounted(slot.pending, slot.delivered, slot.dropped, v);
      AppendValue(slot.dropped, v);
    }
    var put := Put(slot);
    forall x: nat | x < put.offered ensures Accounted(put.pending, put.delivered, put.dropped, x) {
      if x < slot.offered { assert Accounted(slot.pending, slot.delivered, slot.dropped, x); }
    }
  }

  lemma EmptiedKeepsSlot(slot: Slot)
    requires SlotOk(slot)
    ensures SlotOk(Emptied(slot))
  {
    if slot.pending.Some? {
      var v := slot.pending.value;
      assert Accounted(slot.pending, slot.delivered, slot.dropped, v);
      AppendValue(slot.delivered, v);
    }
    var left := Emptied(slot);
    forall x: nat | x < left.offered ensures Accounted(left.pending, left.delivered, left.dropped, x) {
      assert Accounted(slot.pending, slot.delivered, slot.dropped, x);
    }
  }

  lemma StepKeepsSlot(s: State, a: Label, i: nat)
    requires Inv(s) && Enabled(s, a) && i < |s.slots|
    ensures SlotInv(Step(s, a), i)
  {
    assert SlotInv(s, i);
    match a
    case Replace(j) => PutKeepsSlot(s.slots[i]);
    case Take => EmptiedKeepsSlot(s.slots[i]);
    case Retire(k) => RemovedAt(s.live, k, i);
    case _ =>
  }

  lemma StepKeepsInv(s: State, a: Label)
    requires Inv(s) && Enabled(s, a)
    ensures Inv(Step(s, a))
  {
    var s' := Step(s, a);
    forall i: nat | i < |s'.slots| ensures SlotInv(s', i) {
      StepKeepsSlot(s, a, i);
    }
    if a.Retire? { RemovedLive(s.live, a.position, |s.slots|); }
  }

  lemma RemovedAt(live: seq<nat>, k: nat, i: nat)
    requires k < |live|
    ensures i in live ==> i == live[k] || i in live[..k] + live[k + 1..]
    ensures i in live[..k] + live[k + 1..] ==> i in live
  {
  }

  lemma RemovedLive(live: seq<nat>, k: nat, n: nat)
    requires k < |live| && LiveOk(live, n)
    ensures LiveOk(live[..k] + live[k + 1..], n)
  {
  }

  predicate IsRun(s: State, labels: seq<Label>)
    decreases |labels|
  {
    labels != [] ==> Enabled(s, labels[0]) && IsRun(Step(s, labels[0]), labels[1..])
  }

  function Final(s: State, labels: seq<Label>): State
    requires IsRun(s, labels)
    decreases |labels|
  {
    if labels == [] then s else Final(Step(s, labels[0]), labels[1..])
  }

  lemma {:induction false} RunKeepsInv(s: State, labels: seq<Label>)
    requires Inv(s) && IsRun(s, labels)
    ensures Inv(Final(s, labels))
    decreases |labels|
  {
    if labels != [] {
      StepKeepsInv(s, labels[0]);
      RunKeepsInv(Step(s, labels[0]), labels[1..]);
    }
  }

  // -------------------------------------------------------------------------
  // What that means for every interleaving
  // -------------------------------------------------------------------------

  // No wakeup is lost: a value a producer finished offering is either about to
  // be taken or has its token queued, so the consumer can go on to take it.
  lemma NoLostWakeup(n: nat, labels: seq<Label>, i: nat)
    requires IsRun(Initial(n), labels) && i < |Final(Initial(n), labels).slots|
    ensures var s := Final(Initial(n), labels);
            s.slots[i].pending.Some? && s.slots[i].producer != Replaced && s.slots[i].producer != Gone(true) ==>
              s.consumer == Received(i) || (s.slots[i].token && i in s.live)
  {
    InitialInv(n);
    RunKeepsInv(Initial(n), labels);
    var s := Final(Initial(n), labels);
    assert SlotInv(s, i);
  }

  // The consumer's own steps towards slot `i`: finish the look in hand, then
  // receive the slot's token, then look.
  function Fetch(s: State, i: nat): seq<Label>
    requires s.consumer == Received(i) || i in s.live
  {
    if s.consumer == Received(i) then [Take]
    else (if s.consumer.Received? then [Take] else []) + [Receive(PositionOf(s.live, i)), Take]
  }

  function PositionOf(live: seq<nat>, i: nat): (k: nat)
    requires i in live
    ensures k < |live| && live[k] == i
  {
    if live[0] == i then 0 else 1 + PositionOf(live[1..], i)
  }

  // An offer the consumer can go and get.
  predicate Deliverable(s: State, i: nat) {
    && i < |s.slots| && s.slots[i].pending.Some?
    && (s.consumer == Received(i) || (i in s.live && s.slots[i].token))
  }

  // No step of the run is a look inside slot `i`.
  predicate Unserved(s: State, labels: seq<Label>, i: nat)
    requires IsRun(s, labels)
    decreases |labels|
  {
    labels != [] ==> !(labels[0].Take? && s.consumer == Received(i)) && Unserved(Step(s, labels[0]), labels[1..], i)
  }

  // Only that look takes the chance away: no other thread's step does, and no
  // step of the consumer's towards another slot.
  lemma StepKeepsDeliverable(s: State, a: Label, i: nat)
    requires Enabled(s, a) && LiveOk(s.live, |s.slots|) && Deliverable(s, i)
    requires !(a.Take? && s.consumer == Received(i))
    ensures Deliverable(Step(s, a), i) && s.slots[i].offered <= Step(s, a).slots[i].offered
  {
    if a.Retire? { RemovedAt(s.live, a.position, i); }
  }

  lemma {:induction false} RunKeepsDeliverable(s: State, labels: seq<Label>, i: nat)
    requires Inv(s) && IsRun(s, labels) && Unserved(s, labels, i) && Deliverable(s, i)
    ensures Deliverable(Final(s, labels), i) && s.slots[i].offered <= Final(s, labels).slots[i].offered
    decreases |labels|
  {
    if labels != [] {
      StepKeepsDeliverable(s, labels[0], i);
      StepKeepsInv(s, labels[0]);
      RunKeepsDeliverable(Step(s, labels[0]), labels[1..], i);
    }
  }

  // Progress: once an offer is finished, whatever steps of whatever threads
  // follow, the consumer alone can deliver that offer or a newer one within three
  // steps, until it does.
  lemma FinishedOfferIsDelivered(n: nat, labels: seq<Label>, more: seq<Label>, i: nat)
    requires IsRun(Initial(n), labels)
    requires var s := Final(Initial(n), labels);
             && i < |s.slots| && s.slots[i].pending.Some?
             && s.slots[i].producer != Replaced && s.slots[i].producer != Gone(true)
             && IsRun(s, more) && Unserved(s, more, i)
    ensures var s := Final(Final(Initial(n), labels), more);
            && Deliverable(s, i) && s.slots[i].offered >= Final(Initial(n), labels).slots[i].offered
            && |Fetch(s, i)| <= 3 && IsRun(s, Fetch(s, i))
            && i < |Final(s, Fetch(s, i)).slots|
            && Final(s, Fetch(s, i)).slots[i].delivered == s.slots[i].delivered + [s.slots[i].offered - 1]
  {
    var s := Final(Initial(n), labels);
    NoLostWakeup(n, labels, i);
    InitialInv(n);
    RunKeepsInv(Initial(n), labels);
    RunKeepsInv(s, more);
    RunKeepsDeliverable(s, more, i);
    FetchDelivers(Final(s, more), i);
  }

  lemma FetchDelivers(s: State, i: nat)
    requires Inv(s) && Deliverable(s, i)
    ensures IsRun(s, Fetch(s, i)) && i < |Final(s, Fetch(s, i)).slots|
    ensures Final(s, Fetch(s, i)).slots[i].delivered == s.slots[i].delivered + [s.slots[i].offered - 1]
  {
    assert SlotInv(s, i);
    if s.consumer == Received(i) {
      assert [Take][1..] == [];
    } else if s.consumer.Received? {
      var after, fetch := Step(s, Take), [Receive(PositionOf(s.live, i)), Take];
      assert Fetch(s, i) == [Take] + fetch && ([Take] + fetch)[1..] == fetch;
      ReceiveThenTake(after, i, PositionOf(s.live, i));
    } else {
      assert Fetch(s, i) == [Receive(PositionOf(s.live, i)), Take];
      ReceiveThenTake(s, i, PositionOf(s.live, i));
    }
  }

  lemma ReceiveThenTake(s: State, i: nat, k: nat)
    requires s.consumer == Selecting && k < |s.live| && s.live[k] == i < |s.slots|
    requires s.slots[i].token && s.slots[i].pending.Some?
    ensures var fetch := [Receive(k), Take];
            && IsRun(s, fetch) && i < |Final(s, fetch).slots|
            && Final(s, fetch).slots[i].delivered == s.slots[i].delivered + [s.slots[i].pending.value]
  {
    var fetch, got := [Receive(k), Take], Step(s, Receive(k));
    assert fetch[1..] == [Take] && [Take][1..] == [];
    assert Final(got, [Take]) == Step(got, Take);
  }

  // A producer is never held up: whatever the consumer does, a live one can
  // always take its next step, and after its two halves can offer again.
  lemma ProducerGoesOn(s: State, i: nat)
    requires i < |s.slots| && !s.slots[i].producer.Gone?
    ensures Enabled(s, Replace(i)) || Enabled(s, Signal(i))
    ensures Enabled(s, Replace(i)) ==> Enabled(Step(s, Replace(i)), Signal(i))
    ensures Enabled(s, Signal(i)) ==> Enabled(Step(s, Signal(i)), Replace(i))
  {
  }

  // Every offered value is exactly one of delivered, dropped for a newer one,
  // or still in the slot, and the deliveries are in offer order.
  lemma OffersConserved(n: nat, labels: seq<Label>, i: nat)
    requires IsRun(Initial(n), labels) && i < |Final(Initial(n), labels).slots|
    ensures var slot := Final(Initial(n), labels).slots[i];
            && Increasing(slot.delivered)
            && (forall v: nat :: v < slot.offered ==> Accounted(slot.pending, slot.delivered, slot.dropped, v))
            && (forall v :: v in slot.delivered ==> v < slot.offered)
  {
    InitialInv(n);
    RunKeepsInv(Initial(n), labels);
    assert SlotInv(Final(Initial(n), labels), i);
  }

  // What a take delivers is the newest value that had been offered.
  lemma TakesNewest(n: nat, labels: seq<Label>)
    requires IsRun(Initial(n), labels) && Enabled(Final(Initial(n), labels), Take)
    ensures var s := Final(Initial(n), labels);
            var i := s.consumer.slot;
            var after := Step(s, Take).slots[i];
            after.delivered == s.slots[i].delivered
            || (s.slots[i].offered > 0 && after.delivered == s.slots[i].delivered + [s.slots[i].offered - 1])
  {
    InitialInv(n);
    RunKeepsInv(Initial(n), labels);
    var s := Final(Initial(n), labels);
    assert SlotInv(s, s.consumer.slot);
  }

  // A slot is dropped only after everything its producer finished offering has
  // been delivered or replaced.
  lemma FinishedOffersPrecedeRetirement(n: nat, labels: seq<Label>, i: nat, v: nat)
    requires IsRun(Initial(n), labels)
    requires var s := Final(Initial(n), labels);
             i < |s.slots| && i !in s.live && v < s.slots[i].offered
    ensures var slot := Final(Initial(n), labels).slots[i];
            v in slot.delivered || v in slot.dropped || (v == slot.offered - 1 && slot.producer == Gone(true))
  {
    InitialInv(n);
    RunKeepsInv(Initial(n), labels);
    assert SlotInv(Final(Initial(n), labels), i);
    var slot := Final(Initial(n), labels).slots[i];
    assert Accounted(slot.pending, slot.delivered, slot.dropped, v);
  }

  // -------------------------------------------------------------------------
  // The steps as the two sides perform them
  // -------------------------------------------------------------------------

  class Handoff {
    var slots: seq<Slot>
    var live: seq<nat>
    var consumer: Consumer

    constructor (n: nat)
      ensures Value() == Initial(n)
    {
      slots := seq(n, _ => EMPTY);
      live := seq(n, i => i);
      consumer := Selecting;
    }

    function Value(): State
      reads this
    {
      State(slots, live, consumer)
    }

    // The first half of an offer: put the value in, and learn whether it
    // replaced one nobody had taken.
    method ReplacePending(i: nat) returns (replaced: bool)
      requires Enabled(Value(), Replace(i))
      modifies this
      ensures Value() == Step(old(Value()), Replace(i))
      ensures replaced == old(slots[i].pending.Some?)
    {
      var slot := slots[i];
      replaced := slot.pending.Some?;
      if replaced { slot := slot.(dropped := slot.dropped + [slot.pending.value]); }
      slots := slots[i := slot.(pending := Some(slot.offered), offered := slot.offered + 1, producer := Replaced)];
    }

    // The second half. A full channel already holds the wakeup.
    method TrySend(i: nat)
      requires Enabled(Value(), Signal(i))
      modifies this
      ensures Value() == Step(old(Value()), Signal(i))
    {
      slots := slots[i := slots[i].(producer := Idle)];
      if !slots[i].token {
        slots := slots[i := slots[i].(token := true)];
      }
    }

    // An offer nothing interrupts; the answer says whether the slot was free.
    method OfferValue(i: nat) returns (free: bool)
      requires Enabled(Value(), Replace(i))
      modifies this
      ensures Value() == Step(Step(old(Value()), Replace(i)), Signal(i))
      ensures free == old(slots[i].pending.None?)
    {
      var replaced := ReplacePending(i);
      TrySend(i);
      free := !replaced;
    }

    // The consumer's receive on the slot the select picked: a token, or the
    // news that the producer is gone, which drops the slot.
    method ReceiveAt(k: nat) returns (alive: bool)
      requires Enabled(Value(), Receive(k)) || Enabled(Value(), Retire(k))
      modifies this
      ensures alive == old(slots[live[k]].token)
      ensures Value() == Step(old(Value()), if alive then Receive(k) else Retire(k))
    {
      var i := live[k];
      alive := slots[i].token;
      if alive {
        slots := slots[i := slots[i].(token := false)];
        consumer := Received(i);
      } else {
        live := live[..k] + live[k + 1..];
      }
    }

    // The look inside the slot whose token was received.
    method TakePending() returns (value: Option<nat>)
      requires Enabled(Value(), Take)
      modifies this
      ensures Value() == Step(old(Value()), Take)
      ensures value == old(slots[consumer.slot].pending)
    {
      var i := consumer.slot;
      value := slots[i].pending;
      var slot := slots[i].(pending := None);
      if value.Some? { slot := slot.(delivered := slot.delivered + [value.value]); }
      slots := slots[i := slot];
      consumer := Selecting;
    }

    // One ready slot served.
    method Serve(k: nat) returns (value: Option<nat>, ghost labels: seq<Label>)
      requires Ready(Value(), k) && consumer == Selecting
      modifies this
      ensures IsRun(old(Value()), labels) && Value() == Final(old(Value()), labels)
      ensures value.Some? ==>
                && value == old(slots[live[k]].pending) && consumer == Selecting && live == old(live)
                && Delivered(old(slots), slots, old(live[k]), value.value)
      ensures value.None? ==> Served(old(Value()), Value())
    {
      ghost var before := Value();
      var alive := ReceiveAt(k);
      if alive {
        value := TakePending();
        labels := [Receive(k), Take];
        TakeServes(before, k);
      } else {
        value := None;
        labels := [Retire(k)];
        RetireServes(before, k);
      }
    }

    // The next value of any slot. Where the program would block for one, the
    // answer is that nothing is ready.
    method Next() returns (next: NextValue, ghost labels: seq<Label>)
      requires LiveOk(live, |slots|) && consumer == Selecting
      modifies this
      ensures IsRun(old(Value()), labels) && Value() == Final(old(Value()), labels)
      ensures consumer == Selecting && |slots| == |old(slots)|
      ensures next.Got? ==> next.slot < |old(slots)| && old(slots)[next.slot].pending == Some(next.value)
      ensures next.Got? ==> Delivered(old(slots), slots, next.slot, next.value)
      ensures next.AllGone? ==> live == [] && SameValues(old(slots), slots)
      ensures next.NothingReady? ==> live != [] && (forall k: nat :: !Ready(Value(), k)) && SameValues(old(slots), slots)
    {
      labels := [];
      while live != []
        invariant IsRun(old(Value()), labels) && Value() == Final(old(Value()), labels)
        invariant LiveOk(live, |slots|) && consumer == Selecting && SameValues(old(slots), slots)
        decreases |live|, Tokens(slots)
      {
        if forall k :: 0 <= k < |live| ==> !Ready(Value(), k) { return NothingReady, labels; }
        var k :| 0 <= k < |live| && Ready(Value(), k);
        var slot := live[k];
        var value, more := Serve(k);
        RunsJoin(old(Value()), labels, more);
        labels := labels + more;
        if value.Some? { return Got(slot, value.value), labels; }
      }
      return AllGone, labels;
    }
  }

  datatype NextValue = Got(slot: nat, value: nat) | AllGone | NothingReady

  // The select has something to report on the `k`th slot it waits on.
  predicate Ready(s: State, k: nat) { Enabled(s, Receive(k)) || Enabled(s, Retire(k)) }

  // No value moved.
  predicate SameValues(a: seq<Slot>, b: seq<Slot>) {
    |a| == |b| && forall i :: 0 <= i < |a| ==>
      a[i].pending == b[i].pending && a[i].delivered == b[i].delivered && a[i].dropped == b[i].dropped
  }

  // One value was handed over, out of its slot, and no other moved.
  predicate Delivered(a: seq<Slot>, b: seq<Slot>, k: nat, value: nat) {
    && |a| == |b| && k < |a|
    && b[k].pending.None? && b[k].delivered == a[k].delivered + [value] && b[k].dropped == a[k].dropped
    && forall i :: 0 <= i < |a| && i != k ==>
         a[i].pending == b[i].pending && a[i].delivered == b[i].delivered && a[i].dropped == b[i].dropped
  }

  // The wakeups queued.
  function Tokens(slots: seq<Slot>): nat {
    if slots == [] then 0 else Tokens(slots[..|slots| - 1]) + if slots[|slots| - 1].token then 1 else 0
  }

  // Serving a slot with nothing in it uses up a wakeup or drops the slot, and
  // touches no value.
  ghost predicate Served(s: State, t: State) {
    && t.consumer == Selecting && SameValues(s.slots, t.slots)
    && (LiveOk(s.live, |s.slots|) ==> LiveOk(t.live, |t.slots|))
    && (|t.live| < |s.live| || (t.live == s.live && Tokens(t.slots) < Tokens(s.slots)))
  }

  lemma {:induction false} TokenSpent(slots: seq<Slot>, i: nat, slot: Slot)
    requires i < |slots| && slots[i].token && !slot.token
    ensures Tokens(slots[i := slot]) < Tokens(slots)
  {
    var front := slots[..|slots| - 1];
    if i < |front| {
      TokenSpent(front, i, slot);
      assert slots[i := slot][..|slots| - 1] == front[i := slot];
    } else {
      assert slots[i := slot][..|slots| - 1] == front;
    }
  }

  lemma TakeServes(s: State, k: nat)
    requires Enabled(s, Receive(k))
    ensures var t := Step(Step(s, Receive(k)), Take);
            && IsRun(s, [Receive(k), Take]) && t == Final(s, [Receive(k), Take])
            && (s.slots[s.live[k]].pending.None? ==> Served(s, t))
  {
    var i := s.live[k];
    var mid := Step(s, Receive(k));
    var labels := [Receive(k), Take];
    assert labels[1..] == [Take] && [Take][1..] == [];
    if s.slots[i].pending.None? {
      TokenSpent(s.slots, i, Emptied(mid.slots[i]));
      assert Step(mid, Take).slots == s.slots[i := Emptied(mid.slots[i])];
    }
  }

  lemma RetireServes(s: State, k: nat)
    requires Enabled(s, Retire(k))
    ensures IsRun(s, [Retire(k)]) && Step(s, Retire(k)) == Final(s, [Retire(k)]) && Served(s, Step(s, Retire(k)))
  {
    assert [Retire(k)][1..] == [];
    if LiveOk(s.live, |s.slots|) { RemovedLive(s.live, k, |s.slots|); }
  }

  lemma {:induction false} RunsJoin(s: State, labels: seq<Label>, more: seq<Label>)
    requires IsRun(s, labels) && IsRun(Final(s, labels), more)
    ensures IsRun(s, labels + more) && Final(s, labels + more) == Final(Final(s, labels), more)
    decreases |labels|
  {
    if labels == [] {
      assert labels + more == more;
    } else {
      RunsJoin(Step(s, labels[0]), labels[1..], more);
      assert (labels + more)[1..] == labels[1..] + more;
    }
  }
}
