/** Whatever arrives, each payment's events are applied in sequence, each step once. */
module OrderingSequence {
  import opened Wrappers
  import opened Ledgers
  import opened Ordering
  import opened OrderingInvariant

  /** The sequences applied for a payment, in the order in which they were applied. */
  ghost function Applied(results: seq<Result>, payment: string): seq<nat> {
    if results == [] then []
    else
      var init, last := results[..|results| - 1], results[|results| - 1];
      Applied(init, payment)
      + (if last.decision == Processed && last.event.payment == payment then [last.event.sequence] else [])
  }

  ghost function UpTo(n: nat): (r: seq<nat>)
    ensures |r| == n && forall i :: 0 <= i < n ==> r[i] == i + 1
  {
    seq(n, i => i + 1)
  }

  /** The sequences applied so far: all up to the last, or all but the step that was refused. */
  ghost predicate Sequenced(applied: seq<nat>, last: nat, refused: bool) {
    && (forall i, j :: 0 <= i < j < |applied| ==> applied[i] < applied[j])
    && (forall i :: 0 <= i < |applied| ==> applied[i] <= last)
    && (!refused ==> applied == UpTo(last))
    && (refused ==> last >= COMPLETED && (last == COMPLETED ==> applied == UpTo(COMPLETED - 1)))
  }

  ghost predicate InSequence(p: Processor, refused: set<string>) {
    forall payment :: Sequenced(Applied(p.results, payment), StateOf(p, payment).last, payment in refused)
  }

  ghost predicate Slotted(p: Processor) {
    forall slot :: slot in p.buffer ==> p.buffer[slot].payment == slot.0 && p.buffer[slot].sequence == slot.1
  }

  lemma AppliedAppend(results: seq<Result>, r: Result)
    ensures forall payment :: Applied(results + [r], payment) ==
              Applied(results, payment) + (if r.decision == Processed && r.event.payment == payment then [r.event.sequence] else [])
  {
    assert (results + [r])[..|results|] == results;
  }

  /** What is applied and how far each payment is stays the same. */
  lemma SameSequence(p: Processor, q: Processor, refused: set<string>)
    requires InSequence(p, refused)
    requires forall payment :: Applied(q.results, payment) == Applied(p.results, payment)
    requires forall payment :: StateOf(q, payment).last == StateOf(p, payment).last
    ensures InSequence(q, refused)
  {
    forall payment
      ensures Sequenced(Applied(q.results, payment), StateOf(q, payment).last, payment in refused)
    {
      assert Sequenced(Applied(p.results, payment), StateOf(p, payment).last, payment in refused);
    }
  }

  lemma NotedInSequence(p: Processor, e: PaymentEvent, d: Decision, expected: nat, refused: set<string>)
    requires InSequence(p, refused) && d != Processed
    ensures InSequence(Noted(p, e, d, expected), refused)
  {
    AppliedAppend(p.results, Result(e, d, expected));
    var q := Noted(p, e, d, expected);
    forall payment ensures Applied(q.results, payment) == Applied(p.results, payment) {
      assert Applied(p.results, payment) + [] == Applied(p.results, payment);
    }
    SameSequence(p, q, refused);
  }

  lemma SequencedNext(applied: seq<nat>, last: nat, refused: bool)
    requires Sequenced(applied, last, refused)
    ensures Sequenced(applied + [last + 1], last + 1, refused)
  {
    if !refused {
      assert UpTo(last) + [last + 1] == UpTo(last + 1);
    }
  }

  lemma AdvancedInSequence(p: Processor, q: Processor, e: PaymentEvent, expected: nat, refused: set<string>)
    requires InSequence(p, refused) && e.sequence == StateOf(p, e.payment).last + 1
    requires q.results == p.results + [Result(e, Processed, expected)] && q.states == Advanced(p, e).states
    ensures InSequence(q, refused)
  {
    AdvancedApplies(p, q, e, expected);
    forall payment ensures Sequenced(Applied(q.results, payment), StateOf(q, payment).last, payment in refused) {
      assert Sequenced(Applied(p.results, payment), StateOf(p, payment).last, payment in refused);
      if payment == e.payment {
        SequencedNext(Applied(p.results, payment), StateOf(p, payment).last, payment in refused);
      }
    }
  }

  lemma AdvancedApplies(p: Processor, q: Processor, e: PaymentEvent, expected: nat)
    requires q.results == p.results + [Result(e, Processed, expected)] && q.states == Advanced(p, e).states
    ensures Applied(q.results, e.payment) == Applied(p.results, e.payment) + [e.sequence]
    ensures StateOf(q, e.payment).last == e.sequence
    ensures forall payment :: payment != e.payment ==>
              Applied(q.results, payment) == Applied(p.results, payment) && StateOf(q, payment) == StateOf(p, payment)
  {
    AppliedAppend(p.results, Result(e, Processed, expected));
    forall payment | payment != e.payment ensures Applied(q.results, payment) == Applied(p.results, payment) {
      assert Applied(p.results, payment) + [] == Applied(p.results, payment);
    }
  }

  /** The step that is refused is the last: the state has moved on, and nothing is noted. */
  lemma RefusedInSequence(p: Processor, e: PaymentEvent, refused: set<string>)
    requires InSequence(p, refused) && e.sequence == StateOf(p, e.payment).last + 1 == COMPLETED
    ensures InSequence(Advanced(p, e), refused + {e.payment})
  {
    var q := Advanced(p, e);
    forall payment
      ensures Sequenced(Applied(q.results, payment), StateOf(q, payment).last, payment in refused + {e.payment})
    {
      assert Sequenced(Applied(p.results, payment), StateOf(p, payment).last, payment in refused);
    }
  }

  lemma ApplyInSequence(p: Processor, e: PaymentEvent, refused: set<string>)
    requires InSequence(p, refused) && e.sequence == StateOf(p, e.payment).last + 1
    ensures InSequence(Apply(p, e).after, RefusedBy(refused, Apply(p, e), e.payment)) && Apply(p, e).after.buffer == p.buffer
  {
    var expected := StateOf(p, e.payment).last + 1;
    ApplyIs(p, e);
    if Conflicts(p, e) {
      NotedInSequence(p, e, Rejected, expected, refused);
    } else if Apply(p, e).Raised? {
      RefusedInSequence(p, e, refused);
    } else {
      AdvancedInSequence(p, Apply(p, e).after, e, expected, refused);
    }
  }

  lemma ApplyIs(p: Processor, e: PaymentEvent)
    ensures Apply(p, e).after.buffer == p.buffer
    ensures Conflicts(p, e) ==> Apply(p, e) == Returned(Noted(p, e, Rejected, StateOf(p, e.payment).last + 1))
    ensures Apply(p, e).Raised? ==> Apply(p, e) == Raised(Advanced(p, e)) && e.sequence == COMPLETED
    ensures !Conflicts(p, e) && Apply(p, e).Returned? ==>
              && Apply(p, e).after.results == p.results + [Result(e, Processed, StateOf(p, e.payment).last + 1)]
              && Apply(p, e).after.states == Advanced(p, e).states
  {
  }

  lemma PopInSequence(p: Processor, slot: Slot, refused: set<string>)
    requires InSequence(p, refused) && slot in p.buffer
    ensures InSequence(p.(buffer := Without(p.buffer, slot)), refused)
  {
    SameSequence(p, p.(buffer := Without(p.buffer, slot)), refused);
  }

  lemma PopApplyInSequence(p: Processor, slot: Slot, refused: set<string>)
    requires InSequence(p, refused) && Slotted(p) && IsNext(p, slot)
    ensures var o := Popped(p, slot);
            InSequence(o.after, RefusedBy(refused, o, slot.0)) && Slotted(o.after) && o.after.buffer == Without(p.buffer, slot)
  {
    PopInSequence(p, slot, refused);
    ApplyInSequence(p.(buffer := Without(p.buffer, slot)), p.buffer[slot], refused);
  }

  ghost predicate OutcomeInSequence(o: Outcome, refused: set<string>, payment: string) {
    InSequence(o.after, RefusedBy(refused, o, payment)) && Slotted(o.after)
  }

  lemma DrainInSequence(p: Processor, payment: string, refused: set<string>)
    requires InSequence(p, refused) && Slotted(p)
    ensures InSequence(Drain(p, payment).after, RefusedBy(refused, Drain(p, payment), payment)) && Slotted(Drain(p, payment).after)
  {
    var ok := (o: Outcome) => OutcomeInSequence(o, refused, payment);
    forall q: Processor, n: nat | IsNext(q, (payment, n)) && ok(Returned(q)) ensures ok(Popped(q, (payment, n))) {
      PopApplyInSequence(q, (payment, n), refused);
    }
    DrainPreserves(p, payment, ok);
    assert OutcomeInSequence(Drain(p, payment), refused, payment);
  }

  lemma ArrivedInSequence(p: Processor, e: PaymentEvent, refused: set<string>)
    requires InSequence(p, refused)
    ensures InSequence(Arrived(p, e), refused) && StateOf(Arrived(p, e), e.payment) == StateOf(p, e.payment)
  {
    SameSequence(p, Arrived(p, e), refused);
  }

  lemma HeldInSequence(p: Processor, e: PaymentEvent, expected: nat, refused: set<string>)
    requires InSequence(p, refused) && Slotted(p)
    ensures InSequence(Noted(Hold(p, e), e, Buffered, expected), refused) && Slotted(Noted(Hold(p, e), e, Buffered, expected))
  {
    SameSequence(p, Hold(p, e), refused);
    NotedInSequence(Hold(p, e), e, Buffered, expected, refused);
  }

  lemma DecidedInSequence(p: Processor, e: PaymentEvent, d: Decision, expected: nat, refused: set<string>)
    requires InSequence(p, refused) && Slotted(p) && d != Processed
    ensures InSequence(Noted(Arrived(p, e), e, d, expected), refused) && Slotted(Noted(Arrived(p, e), e, d, expected))
  {
    ArrivedInSequence(p, e, refused);
    NotedInSequence(Arrived(p, e), e, d, expected, refused);
  }

  lemma NextInSequence(p: Processor, e: PaymentEvent, refused: set<string>)
    requires InSequence(p, refused) && Slotted(p) && e.sequence == StateOf(p, e.payment).last + 1
    ensures var o := ApplyAndDrain(p, e); InSequence(o.after, RefusedBy(refused, o, e.payment)) && Slotted(o.after)
  {
    ApplyInSequence(p, e, refused);
    if Apply(p, e).Returned? {
      DrainInSequence(Apply(p, e).after, e.payment, refused);
    }
  }

  lemma ReceiveInSequence(p: Processor, e: PaymentEvent, refused: set<string>)
    requires InSequence(p, refused) && Slotted(p)
    ensures var o := Receive(p, e); InSequence(o.after, RefusedBy(refused, o, e.payment)) && Slotted(o.after)
  {
    var st := StateOf(p, e.payment);
    if e.id in p.processedIds || e.sequence <= st.last || e.revision <= st.revision {
      SeenInSequence(p, e, refused);
    } else if e.sequence == st.last + 1 {
      ArrivedInSequence(p, e, refused);
      NextInSequence(Arrived(p, e), e, refused);
    } else {
      EarlyInSequence(p, e, refused);
    }
  }

  lemma SeenInSequence(p: Processor, e: PaymentEvent, refused: set<string>)
    requires InSequence(p, refused) && Slotted(p)
    requires e.id in p.processedIds || e.sequence <= StateOf(p, e.payment).last || e.revision <= StateOf(p, e.payment).revision
    ensures Receive(p, e).Returned? && InSequence(Receive(p, e).after, refused) && Slotted(Receive(p, e).after)
  {
    var d := if e.id in p.processedIds then Duplicate else Stale;
    SeenIs(p, e, d);
    DecidedInSequence(p, e, d, StateOf(p, e.payment).last + 1, refused);
  }

  lemma SeenIs(p: Processor, e: PaymentEvent, d: Decision)
    requires e.id in p.processedIds || e.sequence <= StateOf(p, e.payment).last || e.revision <= StateOf(p, e.payment).revision
    requires d == if e.id in p.processedIds then Duplicate else Stale
    ensures Receive(p, e) == Returned(Noted(Arrived(p, e), e, d, StateOf(p, e.payment).last + 1))
  {
  }

  lemma EarlyInSequence(p: Processor, e: PaymentEvent, refused: set<string>)
    requires InSequence(p, refused) && Slotted(p) && e.id !in p.processedIds
    requires e.sequence > StateOf(p, e.payment).last + 1 && e.revision > StateOf(p, e.payment).revision
    ensures Receive(p, e).Returned? && InSequence(Receive(p, e).after, refused) && Slotted(Receive(p, e).after)
  {
    var expected := StateOf(p, e.payment).last + 1;
    if (e.payment, e.sequence) in p.buffer {
      ReceiveTakenIs(p, e);
      DecidedInSequence(p, e, Rejected, expected, refused);
    } else {
      ReceiveEarlyIs(p, e);
      ArrivedInSequence(p, e, refused);
      HeldInSequence(Arrived(p, e), e, expected, refused);
    }
  }

  lemma {:induction false} ExecInSequence(opening: seq<Entry>, events: seq<PaymentEvent>)
    ensures var run := Exec(opening, events); InSequence(run.p, run.refused) && Slotted(run.p)
    decreases |events|
  {
    if events != [] {
      var before := Exec(opening, events[..|events| - 1]);
      ExecInSequence(opening, events[..|events| - 1]);
      ReceiveInSequence(before.p, events[|events| - 1], before.refused);
    }
  }

  /**
   After any stream whatever the events applied for a payment are 1, 2, ...,
   last, in this order and each once, or 1, 2, 3 if the ledger refused the last.
   */
  lemma AppliedInSequence(opening: seq<Entry>, events: seq<PaymentEvent>, payment: string)
    ensures var Run(p, refused) := Exec(opening, events);
            var last := StateOf(p, payment).last;
            && (payment !in refused ==> Applied(p.results, payment) == UpTo(last))
            && (payment in refused && last == COMPLETED ==> Applied(p.results, payment) == UpTo(3))
  {
    ExecInSequence(opening, events);
    var Run(p, refused) := Exec(opening, events);
    assert Sequenced(Applied(p.results, payment), StateOf(p, payment).last, payment in refused);
  }

  lemma {:induction false} AppliedTwice(results: seq<Result>, i: nat, j: nat)
    requires i < j < |results| && results[i].decision == results[j].decision == Processed
    requires results[i].event.payment == results[j].event.payment && results[i].event.sequence == results[j].event.sequence
    ensures exists a, b :: 0 <= a < b < |Applied(results, results[i].event.payment)|
              && Applied(results, results[i].event.payment)[a] == Applied(results, results[i].event.payment)[b]
    decreases |results|
  {
    var init, last := results[..|results| - 1], results[|results| - 1];
    var payment := results[i].event.payment;
    var before, all := Applied(init, payment), Applied(results, payment);
    if j < |init| {
      AppliedTwice(init, i, j);
      var a, b :| 0 <= a < b < |before| && before[a] == before[b];
      assert all[a] == before[a] && all[b] == before[b];
    } else {
      AppliedHas(init, i);
      var a :| 0 <= a < |before| && before[a] == init[i].event.sequence;
      assert all[a] == before[a] && all[|before|] == last.event.sequence;
    }
  }

  lemma {:induction false} AppliedHas(results: seq<Result>, i: nat)
    requires i < |results| && results[i].decision == Processed
    ensures results[i].event.sequence in Applied(results, results[i].event.payment)
    decreases |results|
  {
    var init := results[..|results| - 1];
    if i < |init| {
      AppliedHas(init, i);
    }
  }

  lemma AppliedIncrease(opening: seq<Entry>, events: seq<PaymentEvent>, payment: string)
    ensures var applied := Applied(Exec(opening, events).p.results, payment);
            forall i, j :: 0 <= i < j < |applied| ==> applied[i] < applied[j]
  {
    ExecInSequence(opening, events);
    var Run(p, refused) := Exec(opening, events);
    assert Sequenced(Applied(p.results, payment), StateOf(p, payment).last, payment in refused);
  }

  /** No step of a payment is applied twice. */
  lemma EachStepOnce(opening: seq<Entry>, events: seq<PaymentEvent>, i: nat, j: nat)
    requires var r := Exec(opening, events).p.results; i < j < |r| && r[i].decision == r[j].decision == Processed
    ensures var r := Exec(opening, events).p.results;
            r[i].event.payment != r[j].event.payment || r[i].event.sequence != r[j].event.sequence
  {
    var p := Exec(opening, events).p;
    var r := p.results;
    if r[i].event.payment == r[j].event.payment && r[i].event.sequence == r[j].event.sequence {
      AppliedTwice(r, i, j);
      AppliedIncrease(opening, events, r[i].event.payment);
    }
  }

  // ----- Identifiers of drained events -----

  /** What `receive` checks is the identifier of the delivery; a buffered event is not checked again when it is drained. */
  lemma SharedEventId(opening: seq<Entry>, early: PaymentEvent, first: PaymentEvent)
    requires early.payment == first.payment && early.id == first.id && early.cents == first.cents
    requires early.sequence == early.revision == 2 && first.sequence == first.revision == 1
    ensures var run := Exec(opening, [early, first]);
            && run.refused == {}
            && run.p.results == [Result(early, Buffered, 1), Result(first, Processed, 1), Result(early, Processed, 2)]
  {
    var p0 := Create(opening);
    var p1 := Noted(Hold(Arrived(p0, early), early), early, Buffered, 1);
    assert [early, first][..1] == [early] && [early][..0] == [];
    assert Exec(opening, [early]) == Run(p1, {});
    var p2 := Noted(Advanced(Arrived(p1, first), first), first, Processed, 1);
    assert Apply(Arrived(p1, first), first) == Returned(p2);
    DrainOnce(p2, early);
  }

  lemma DrainOnce(p: Processor, e: PaymentEvent)
    requires p.buffer == map[(e.payment, e.sequence) := e] && e.sequence == StateOf(p, e.payment).last + 1 < COMPLETED
    requires StateOf(p, e.payment).cents == Some(e.cents)
    ensures Drain(p, e.payment) ==
            Returned(Noted(Advanced(p.(buffer := map[]), e), e, Processed, e.sequence))
  {
    var slot := (e.payment, e.sequence);
    SmallerWithout(p.buffer, slot);
    assert Without(p.buffer, slot) == map[];
    var q := Noted(Advanced(p.(buffer := map[]), e), e, Processed, e.sequence);
    assert Apply(p.(buffer := map[]), e) == Returned(q);
    assert Drain(q, e.payment) == Returned(q);
  }

  // ----- Nothing comes from nowhere -----

  /** Buffered events and decided ones have all been delivered. */
  ghost predicate FromStream(p: Processor, events: seq<PaymentEvent>) {
    && (forall slot :: slot in p.buffer ==> p.buffer[slot] in events)
    && (forall i :: 0 <= i < |p.results| ==> p.results[i].event in events)
  }

  lemma ApplyFromStream(p: Processor, e: PaymentEvent, events: seq<PaymentEvent>)
    requires FromStream(p, events) && e in events
    ensures FromStream(Apply(p, e).after, events)
  {
  }

  lemma {:induction false} DrainFromStream(p: Processor, payment: string, events: seq<PaymentEvent>)
    requires FromStream(p, events)
    ensures FromStream(Drain(p, payment).after, events)
    decreases |p.buffer|
  {
    var slot := (payment, StateOf(p, payment).last + 1);
    if slot in p.buffer {
      var p1 := p.(buffer := Without(p.buffer, slot));
      SmallerWithout(p.buffer, slot);
      ApplyFromStream(p1, p.buffer[slot], events);
      if Apply(p1, p.buffer[slot]).Returned? {
        SameBuffer(p1, p.buffer[slot]);
        DrainFromStream(Apply(p1, p.buffer[slot]).after, payment, events);
      }
    }
  }

  lemma SameBuffer(p: Processor, e: PaymentEvent)
    ensures Apply(p, e).after.buffer == p.buffer
  {
  }

  lemma ReceiveFromStream(p: Processor, e: PaymentEvent, events: seq<PaymentEvent>)
    requires FromStream(p, events) && e in events
    ensures FromStream(Receive(p, e).after, events)
  {
    var p1 := Arrived(p, e);
    ApplyFromStream(p1, e, events);
    if Apply(p1, e).Returned? {
      DrainFromStream(Apply(p1, e).after, e.payment, events);
    }
  }

  lemma {:induction false} ExecFromStream(opening: seq<Entry>, events: seq<PaymentEvent>)
    ensures FromStream(Exec(opening, events).p, events)
    decreases |events|
  {
    if events != [] {
      var init, e := events[..|events| - 1], events[|events| - 1];
      ExecFromStream(opening, init);
      assert FromStream(Exec(opening, init).p, events);
      ReceiveFromStream(Exec(opening, init).p, e, events);
    }
  }

  /** If each identifier delivered names one step of one payment, no identifier is applied twice. */
  lemma EachIdOnce(opening: seq<Entry>, events: seq<PaymentEvent>, owner: string -> Slot, i: nat, j: nat)
    requires forall e :: e in events ==> owner(e.id) == (e.payment, e.sequence)
    requires var r := Exec(opening, events).p.results; i < j < |r| && r[i].decision == r[j].decision == Processed
    ensures var r := Exec(opening, events).p.results; r[i].event.id != r[j].event.id
  {
    var r := Exec(opening, events).p.results;
    ExecFromStream(opening, events);
    EachStepOnce(opening, events, i, j);
    assert r[i].event in events && r[j].event in events;
  }

  // ----- Exactly when an identifier is applied again -----

  /** The identifiers applied, in the order in which they were applied. */
  ghost function AppliedIds(results: seq<Result>): seq<string> {
    if results == [] then []
    else
      var init, last := results[..|results| - 1], results[|results| - 1];
      AppliedIds(init) + (if last.decision == Processed then [last.event.id] else [])
  }

  /** The identifiers buffered for a payment from a sequence on, without a gap and with the same amount. */
  ghost function RunIds(buffer: map<Slot, PaymentEvent>, payment: string, next: nat, cents: nat): seq<string>
    decreases |buffer|
  {
    var slot := (payment, next);
    if slot !in buffer || buffer[slot].cents != cents then []
    else
      SmallerWithout(buffer, slot);
      [buffer[slot].id] + RunIds(Without(buffer, slot), payment, next + 1, cents)
  }

  /** What a delivery would apply; it can be told before the delivery. */
  ghost function NewIds(p: Processor, e: PaymentEvent): seq<string> {
    var st := StateOf(p, e.payment);
    if e.id in p.processedIds || e.sequence != st.last + 1 || e.revision <= st.revision then []
    else if Conflicts(p, e) then RunIds(p.buffer, e.payment, e.sequence, st.cents.value)
    else [e.id] + RunIds(p.buffer, e.payment, e.sequence + 1, e.cents)
  }

  ghost predicate Distinct(ids: seq<string>) {
    forall i, j :: 0 <= i < j < |ids| ==> ids[i] != ids[j]
  }

  /** The delivery applies no identifier twice, nor one that has been applied. */
  ghost predicate Fresh(p: Processor, e: PaymentEvent) {
    Distinct(NewIds(p, e)) && forall id :: id in NewIds(p, e) ==> id !in p.processedIds
  }

  lemma AppliedIdsAppend(results: seq<Result>, r: Result)
    ensures AppliedIds(results + [r]) == AppliedIds(results) + (if r.decision == Processed then [r.event.id] else [])
  {
    assert (results + [r])[..|results|] == results;
  }

  lemma DrainRest(p: Processor, payment: string)
    requires Slotted(p) && Drain(p, payment).Returned? && (payment, StateOf(p, payment).last + 1) in p.buffer
    ensures var slot := (payment, StateOf(p, payment).last + 1);
            var p1 := p.(buffer := Without(p.buffer, slot));
            && Apply(p1, p.buffer[slot]).Returned? && Slotted(Apply(p1, p.buffer[slot]).after)
            && Drain(p, payment) == Drain(Apply(p1, p.buffer[slot]).after, payment)
            && Apply(p1, p.buffer[slot]).after.buffer == Without(p.buffer, slot)
  {
  }

  /** The next event is applied, or rejected and nothing but noted. */
  lemma ApplyIds(p: Processor, e: PaymentEvent)
    requires Apply(p, e).Returned?
    ensures var q := Apply(p, e).after;
            && q.buffer == p.buffer
            && AppliedIds(q.results) == AppliedIds(p.results) + (if Conflicts(p, e) then [] else [e.id])
            && StateOf(q, e.payment) ==
               if Conflicts(p, e) then StateOf(p, e.payment) else PaymentState(e.sequence, e.revision, Some(e.cents))
  {
    var q := Apply(p, e).after;
    AppliedIdsAppend(p.results, q.results[|p.results|]);
    assert q.results == p.results + [q.results[|p.results|]];
  }

  /** What draining `p` leads to is what was told. */
  ghost predicate DrainsRun(p: Processor, payment: string, results: seq<Result>) {
    var st := StateOf(p, payment);
    st.cents.Some? && AppliedIds(results) == AppliedIds(p.results) + RunIds(p.buffer, payment, st.last + 1, st.cents.value)
  }

  /** Draining applies the run of buffered events. */
  lemma {:induction false} DrainApplies(p: Processor, payment: string)
    requires Slotted(p) && Drain(p, payment).Returned? && StateOf(p, payment).cents.Some?
    ensures DrainsRun(p, payment, Drain(p, payment).after.results)
    decreases |p.buffer|
  {
    var slot := (payment, StateOf(p, payment).last + 1);
    if slot in p.buffer {
      var p1, e := p.(buffer := Without(p.buffer, slot)), p.buffer[slot];
      var p2 := Apply(p1, e).after;
      DrainRest(p, payment);
      SmallerWithout(p.buffer, slot);
      ApplyIds(p1, e);
      if Conflicts(p1, e) {
        DrainDrops(p, payment, p2);
      } else {
        DrainApplies(p2, payment);
        DrainMore(p, payment, p2, Drain(p2, payment).after.results);
      }
    }
  }

  /** The buffered event has another amount. */
  lemma DrainDrops(p: Processor, payment: string, q: Processor)
    requires var st := StateOf(p, payment);
             var slot := (payment, st.last + 1);
             && slot in p.buffer && st.cents.Some? && p.buffer[slot].cents != st.cents.value
             && StateOf(q, payment) == st && q.buffer == Without(p.buffer, slot) && AppliedIds(q.results) == AppliedIds(p.results) + []
    ensures DrainsRun(p, payment, Drain(q, payment).after.results)
  {
    DrainStops(q, payment);
  }

  /** The buffered event has been applied, and what follows was drained. */
  lemma DrainMore(p: Processor, payment: string, q: Processor, results: seq<Result>)
    requires var st := StateOf(p, payment);
             var slot := (payment, st.last + 1);
             && slot in p.buffer && st.cents == Some(p.buffer[slot].cents)
             && StateOf(q, payment).last == st.last + 1 && StateOf(q, payment).cents == st.cents
             && q.buffer == Without(p.buffer, slot) && AppliedIds(q.results) == AppliedIds(p.results) + [p.buffer[slot].id]
    requires DrainsRun(q, payment, results)
    ensures DrainsRun(p, payment, results)
  {
    RunIdsFrom(p, payment, p.buffer[(payment, StateOf(p, payment).last + 1)]);
  }

  lemma RunIdsFrom(p: Processor, payment: string, e: PaymentEvent)
    requires var st := StateOf(p, payment);
             var slot := (payment, st.last + 1);
             slot in p.buffer && p.buffer[slot] == e && st.cents == Some(e.cents)
    ensures var st := StateOf(p, payment);
            var slot := (payment, st.last + 1);
            RunIds(p.buffer, payment, st.last + 1, e.cents) ==
            [e.id] + RunIds(Without(p.buffer, slot), payment, st.last + 2, e.cents)
  {
  }

  lemma DrainStops(p: Processor, payment: string)
    requires (payment, StateOf(p, payment).last + 1) !in p.buffer
    ensures Drain(p, payment) == Returned(p)
  {
  }

  lemma NextSlotted(p: Processor, e: PaymentEvent)
    requires Slotted(p)
    ensures Slotted(Apply(p, e).after)
  {
  }

  lemma NextApplies(p: Processor, e: PaymentEvent)
    requires Slotted(p) && e.sequence == StateOf(p, e.payment).last + 1 && ApplyAndDrain(p, e).Returned?
    ensures AppliedIds(ApplyAndDrain(p, e).after.results) == AppliedIds(p.results) +
              if Conflicts(p, e) then RunIds(p.buffer, e.payment, e.sequence, StateOf(p, e.payment).cents.value)
              else [e.id] + RunIds(p.buffer, e.payment, e.sequence + 1, e.cents)
  {
    ApplyIds(p, e);
    NextSlotted(p, e);
    DrainApplies(Apply(p, e).after, e.payment);
    NextDrains(p, e, Apply(p, e).after, Drain(Apply(p, e).after, e.payment).after.results);
  }

  lemma NextDrains(p: Processor, e: PaymentEvent, q: Processor, results: seq<Result>)
    requires e.sequence == StateOf(p, e.payment).last + 1 && DrainsRun(q, e.payment, results)
    requires q.buffer == p.buffer && AppliedIds(q.results) == AppliedIds(p.results) + (if Conflicts(p, e) then [] else [e.id])
    requires StateOf(q, e.payment) ==
             if Conflicts(p, e) then StateOf(p, e.payment) else PaymentState(e.sequence, e.revision, Some(e.cents))
    ensures AppliedIds(results) == AppliedIds(p.results) +
              if Conflicts(p, e) then RunIds(p.buffer, e.payment, e.sequence, StateOf(p, e.payment).cents.value)
              else [e.id] + RunIds(p.buffer, e.payment, e.sequence + 1, e.cents)
  {
  }

  /** A delivery applies exactly what could be told before. */
  lemma ReceiveApplies(p: Processor, e: PaymentEvent)
    requires Slotted(p) && Receive(p, e).Returned?
    ensures AppliedIds(Receive(p, e).after.results) == AppliedIds(p.results) + NewIds(p, e)
  {
    var st, p1 := StateOf(p, e.payment), Arrived(p, e);
    if e.id in p.processedIds || e.sequence <= st.last || e.revision <= st.revision || e.sequence > st.last + 1 {
      var q := Receive(p, e).after;
      AppliedIdsAppend(p.results, q.results[|p.results|]);
    } else {
      NextApplies(p1, e);
    }
  }

  /** The identifiers remembered are those applied. */
  ghost predicate Remembered(p: Processor) {
    forall id :: id in p.processedIds <==> id in AppliedIds(p.results)
  }

  lemma ApplyRemembers(p: Processor, e: PaymentEvent)
    requires Remembered(p) && Apply(p, e).Returned?
    ensures Remembered(Apply(p, e).after)
  {
    ApplyIds(p, e);
  }

  lemma {:induction false} DrainRemembers(p: Processor, payment: string)
    requires Remembered(p) && Drain(p, payment).Returned?
    ensures Remembered(Drain(p, payment).after)
    decreases |p.buffer|
  {
    var slot := (payment, StateOf(p, payment).last + 1);
    if slot in p.buffer {
      var p1 := p.(buffer := Without(p.buffer, slot));
      SmallerWithout(p.buffer, slot);
      ApplyRemembers(p1, p.buffer[slot]);
      SameBuffer(p1, p.buffer[slot]);
      DrainRemembers(Apply(p1, p.buffer[slot]).after, payment);
    }
  }

  lemma NotedRemembers(p: Processor, e: PaymentEvent, d: Decision, expected: nat)
    requires Remembered(p) && d != Processed
    ensures Remembered(Noted(p, e, d, expected))
  {
    AppliedIdsAppend(p.results, Result(e, d, expected));
  }

  lemma ReceiveRemembers(p: Processor, e: PaymentEvent)
    requires Remembered(p) && Receive(p, e).Returned?
    ensures Remembered(Receive(p, e).after)
  {
    var st, p1 := StateOf(p, e.payment), Arrived(p, e);
    var expected := st.last + 1;
    if e.id in p.processedIds || e.sequence <= st.last || e.revision <= st.revision {
      var d := if e.id in p.processedIds then Duplicate else Stale;
      SeenIs(p, e, d);
      NotedRemembers(p1, e, d, expected);
    } else if e.sequence == expected {
      ApplyRemembers(p1, e);
      DrainRemembers(Apply(p1, e).after, e.payment);
    } else {
      EarlyRemembers(p, e);
    }
  }

  lemma EarlyRemembers(p: Processor, e: PaymentEvent)
    requires Remembered(p) && e.id !in p.processedIds
    requires e.sequence > StateOf(p, e.payment).last + 1 && e.revision > StateOf(p, e.payment).revision
    ensures Remembered(Receive(p, e).after)
  {
    var expected := StateOf(p, e.payment).last + 1;
    if (e.payment, e.sequence) in p.buffer {
      ReceiveTakenIs(p, e);
      NotedRemembers(Arrived(p, e), e, Rejected, expected);
    } else {
      ReceiveEarlyIs(p, e);
      NotedRemembers(Hold(Arrived(p, e), e), e, Buffered, expected);
    }
  }

  /** Whether a delivery applies an identifier again can be told before it: exactly when what it would apply is not fresh. */
  lemma RepeatsIff(p: Processor, e: PaymentEvent)
    requires Slotted(p) && Remembered(p) && Distinct(AppliedIds(p.results)) && Receive(p, e).Returned?
    ensures Distinct(AppliedIds(Receive(p, e).after.results)) <==> Fresh(p, e)
  {
    ReceiveApplies(p, e);
    DistinctConcat(AppliedIds(p.results), NewIds(p, e));
  }

  lemma DistinctConcat(x: seq<string>, y: seq<string>)
    ensures Distinct(x + y) <==> Distinct(x) && Distinct(y) && forall id :: id in y ==> id !in x
  {
    var z := x + y;
    if Distinct(z) {
      forall i, j | 0 <= i < j < |x| ensures x[i] != x[j] {
        assert z[i] != z[j];
      }
      forall i, j | 0 <= i < j < |y| ensures y[i] != y[j] {
        assert z[|x| + i] != z[|x| + j];
      }
      forall i, j | 0 <= i < |x| && 0 <= j < |y| ensures x[i] != y[j] {
        assert z[i] != z[|x| + j];
      }
    } else {
      var i, j :| 0 <= i < j < |z| && z[i] == z[j];
      assert z[j] in y || j < |x|;
      assert i < |x| ==> z[i] in x;
    }
  }

  /** Every delivery was fresh when it came. */
  ghost predicate AllFresh(opening: seq<Entry>, events: seq<PaymentEvent>) {
    events != [] ==>
      var init := events[..|events| - 1];
      AllFresh(opening, init) && Fresh(Exec(opening, init).p, events[|events| - 1])
  }

  lemma {:induction false} ExecRemembers(opening: seq<Entry>, events: seq<PaymentEvent>)
    requires Exec(opening, events).refused == {}
    ensures Remembered(Exec(opening, events).p)
    decreases |events|
  {
    if events != [] {
      ExecRemembers(opening, events[..|events| - 1]);
      ReceiveRemembers(Exec(opening, events[..|events| - 1]).p, events[|events| - 1]);
    }
  }

  /** Over a whole stream: no identifier is applied twice exactly when every delivery was fresh. */
  lemma {:induction false} EachIdOnceIff(opening: seq<Entry>, events: seq<PaymentEvent>)
    requires Exec(opening, events).refused == {}
    ensures Distinct(AppliedIds(Exec(opening, events).p.results)) <==> AllFresh(opening, events)
    decreases |events|
  {
    if events != [] {
      var init, e := events[..|events| - 1], events[|events| - 1];
      var p := Exec(opening, init).p;
      EachIdOnceIff(opening, init);
      ExecInSequence(opening, init);
      ExecRemembers(opening, init);
      ReceiveApplies(p, e);
      DistinctConcat(AppliedIds(p.results), NewIds(p, e));
    }
  }

  lemma {:induction false} DistinctWhen(results: seq<Result>)
    requires forall i, j :: 0 <= i < j < |results| && results[i].decision == results[j].decision == Processed ==>
               results[i].event.id != results[j].event.id
    ensures Distinct(AppliedIds(results))
    ensures forall id :: id in AppliedIds(results) ==>
              exists i :: 0 <= i < |results| && results[i].decision == Processed && results[i].event.id == id
    decreases |results|
  {
    if results != [] {
      var init := results[..|results| - 1];
      assert forall i :: 0 <= i < |init| ==> init[i] == results[i];
      DistinctWhen(init);
      assert results[|results| - 1] == results[|init|];
      DistinctConcat(AppliedIds(init), if results[|init|].decision == Processed then [results[|init|].event.id] else []);
    }
  }

  /** So in a stream whose identifiers name one step of one payment each, every delivery is fresh. */
  lemma OwnedIsFresh(opening: seq<Entry>, events: seq<PaymentEvent>, owner: string -> Slot)
    requires Exec(opening, events).refused == {}
    requires forall e :: e in events ==> owner(e.id) == (e.payment, e.sequence)
    ensures AllFresh(opening, events)
  {
    var results := Exec(opening, events).p.results;
    forall i, j | 0 <= i < j < |results| && results[i].decision == results[j].decision == Processed
      ensures results[i].event.id != results[j].event.id
    {
      EachIdOnce(opening, events, owner, i, j);
    }
    DistinctWhen(results);
    EachIdOnceIff(opening, events);
  }

  /** The other way round it need not be: an identifier used for two payments can still be applied once. */
  lemma FreshWithoutOwner(opening: seq<Entry>, x: PaymentEvent, y: PaymentEvent)
    requires x.payment != y.payment && x.id == y.id && x.sequence == x.revision == y.sequence == y.revision == 1
    ensures Exec(opening, [x, y]).refused == {} && AllFresh(opening, [x, y])
    ensures Exec(opening, [x, y]).p.results == [Result(x, Processed, 1), Result(y, Duplicate, 1)]
  {
    var p0 := Create(opening);
    var p1 := Noted(Advanced(Arrived(p0, x), x), x, Processed, 1);
    assert [x, y][..1] == [x] && [x][..0] == [];
    assert Apply(Arrived(p0, x), x) == Returned(p1);
    assert Drain(p1, x.payment) == Returned(p1);
    assert Exec(opening, [x]) == Run(p1, {});
    assert NewIds(p0, x) == [x.id];
    assert NewIds(p1, y) == [];
  }
}
