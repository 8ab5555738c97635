/**
 Exactly when the ledger refuses a delivery: on any ledger and after any
 deliveries, earlier refusals included, and with any identifiers and amounts.
 */
module OrderingRefusals {
  import opened Wrappers
  import opened Ledgers
  import opened Ordering
  import opened OrderingInvariant

  /** The completing event at the end of the run buffered for a payment from a sequence on, of one amount and without a gap. */
  ghost function EndOfRun(buffer: map<Slot, PaymentEvent>, payment: string, next: nat, cents: nat): Option<PaymentEvent>
    decreases if next < COMPLETED then COMPLETED - next else 0
  {
    var slot := (payment, next);
    if slot !in buffer || buffer[slot].cents != cents then None
    else if next < COMPLETED then EndOfRun(buffer, payment, next + 1, cents)
    else Some(buffer[slot])
  }

  /** The completing event that a delivery which is next brings to the ledger. */
  ghost function Brings(p: Processor, e: PaymentEvent): Option<PaymentEvent> {
    if e.sequence < COMPLETED then EndOfRun(p.buffer, e.payment, e.sequence + 1, e.cents) else Some(e)
  }

  /** The ledger has the settlement of this payment, or has moved on since its event arrived. */
  ghost predicate Refuses(entries: seq<Entry>, completing: PaymentEvent) {
    Settlement(completing.payment) in Ids(entries) || completing.arrival < LastPosted(entries)
  }

  /** What a caller can tell before the delivery. */
  ghost predicate WillBeRefused(p: Processor, e: PaymentEvent) {
    && e.id !in p.processedIds
    && e.sequence == StateOf(p, e.payment).last + 1
    && !Conflicts(p, e)
    && Brings(p, e).Some? && Refuses(p.entries, Brings(p, e).value)
  }

  lemma ObjectsIff(entries: seq<Entry>, e: PaymentEvent)
    ensures Objection(entries, SettlementOf(entries, e)).Some? <==> Refuses(entries, e)
  {
  }

  lemma ApplyRaisesIff(p: Processor, e: PaymentEvent)
    ensures Apply(p, e).Raised? <==> !Conflicts(p, e) && e.sequence == COMPLETED && Refuses(p.entries, e)
  {
    ObjectsIff(p.entries, e);
  }

  /** Taking out what comes before changes nothing. */
  lemma {:induction false} RunBehind(buffer: map<Slot, PaymentEvent>, slot: Slot, payment: string, next: nat, cents: nat)
    requires slot in buffer && slot.1 < next
    ensures EndOfRun(Without(buffer, slot), payment, next, cents) == EndOfRun(buffer, payment, next, cents)
    decreases if next < COMPLETED then COMPLETED - next else 0
  {
    if next < COMPLETED {
      RunBehind(buffer, slot, payment, next + 1, cents);
    }
  }

  /** Draining `p` raises exactly when its run ends with a completion that the ledger refuses. */
  ghost predicate DrainRefused(p: Processor, payment: string)
    requires StateOf(p, payment).cents.Some?
  {
    var st := StateOf(p, payment);
    var completing := EndOfRun(p.buffer, payment, st.last + 1, st.cents.value);
    completing.Some? && Refuses(p.entries, completing.value)
  }

  lemma NothingNext(p: Processor, payment: string)
    requires (payment, StateOf(p, payment).last + 1) !in p.buffer
    ensures Drain(p, payment).Returned?
  {
  }

  /** What applying the next event leaves, when it does not complete. */
  lemma MiddleStep(p: Processor, e: PaymentEvent)
    requires !Conflicts(p, e) && e.sequence < COMPLETED
    ensures var o := Apply(p, e);
            && o.Returned? && o.after.buffer == p.buffer && o.after.entries == p.entries
            && StateOf(o.after, e.payment) == PaymentState(e.sequence, e.revision, Some(e.cents))
  {
  }

  lemma LastStep(p: Processor, e: PaymentEvent)
    requires !Conflicts(p, e) && e.sequence == COMPLETED
    ensures var o := Apply(p, e); o.after.buffer == p.buffer && StateOf(o.after, e.payment).last == COMPLETED
  {
  }

  lemma ConflictingStep(p: Processor, e: PaymentEvent)
    requires Conflicts(p, e)
    ensures var o := Apply(p, e);
            o.Returned? && o.after.buffer == p.buffer && StateOf(o.after, e.payment) == StateOf(p, e.payment)
  {
  }

  ghost predicate OwnSlots(buffer: map<Slot, PaymentEvent>) {
    forall slot: Slot :: slot in buffer ==>
      ValidEvent(buffer[slot]) && buffer[slot].payment == slot.0 && buffer[slot].sequence == slot.1
  }

  /** The next buffered event has been applied on the way to the last: what is refused is decided behind it. */
  lemma RefusedBehind(p: Processor, payment: string, slot: Slot, q: Processor)
    requires StateOf(p, payment).cents.Some? && slot == (payment, StateOf(p, payment).last + 1)
    requires slot in p.buffer && slot.1 < COMPLETED && p.buffer[slot].cents == StateOf(p, payment).cents.value
    requires q.buffer == Without(p.buffer, slot) && q.entries == p.entries
    requires StateOf(q, payment).last == slot.1 && StateOf(q, payment).cents == StateOf(p, payment).cents
    ensures DrainRefused(p, payment) <==> DrainRefused(q, payment)
  {
    RunBehind(p.buffer, slot, payment, slot.1 + 1, p.buffer[slot].cents);
  }

  /** What popping and applying such an event leaves. */
  lemma PopMiddle(p: Processor, payment: string, slot: Slot, p1: Processor)
    requires OwnSlots(p.buffer) && StateOf(p, payment).cents.Some?
    requires slot == (payment, StateOf(p, payment).last + 1) && slot in p.buffer && slot.1 < COMPLETED
    requires p1 == p.(buffer := Without(p.buffer, slot)) && !Conflicts(p1, p.buffer[slot])
    ensures p.buffer[slot].cents == StateOf(p, payment).cents.value
    ensures var o := Apply(p1, p.buffer[slot]);
            && o.Returned? && o.after.buffer == p1.buffer && o.after.entries == p.entries
            && StateOf(o.after, payment).last == slot.1 && StateOf(o.after, payment).cents == StateOf(p, payment).cents
  {
    MiddleStep(p1, p.buffer[slot]);
  }

  /** The next buffered event conflicts or completes: nothing comes behind it. */
  lemma NothingBehind(p: Processor, payment: string, slot: Slot, p1: Processor)
    requires OwnSlots(p.buffer) && StateOf(p, payment).cents.Some?
    requires slot == (payment, StateOf(p, payment).last + 1) && slot in p.buffer
    requires p1 == p.(buffer := Without(p.buffer, slot)) && (slot.1 == COMPLETED || Conflicts(p1, p.buffer[slot]))
    ensures Drain(p, payment).Raised? <==> DrainRefused(p, payment)
  {
    var e := p.buffer[slot];
    DrainUnfolds(p, payment, slot, p1);
    ApplyRaisesIff(p1, e);
    if Conflicts(p1, e) {
      ConflictingStep(p1, e);
    } else {
      LastStep(p1, e);
    }
    NothingNext(Apply(p1, e).after, payment);
  }

  lemma {:induction false} DrainRaisesIff(p: Processor, payment: string)
    requires OwnSlots(p.buffer) && StateOf(p, payment).cents.Some?
    ensures Drain(p, payment).Raised? <==> DrainRefused(p, payment)
    decreases |p.buffer|
  {
    var slot: Slot := (payment, StateOf(p, payment).last + 1);
    if slot !in p.buffer {
      NothingNext(p, payment);
    } else {
      var p1 := p.(buffer := Without(p.buffer, slot));
      if slot.1 < COMPLETED && !Conflicts(p1, p.buffer[slot]) {
        var q := Apply(p1, p.buffer[slot]).after;
        PopMiddle(p, payment, slot, p1);
        DrainUnfolds(p, payment, slot, p1);
        RefusedBehind(p, payment, slot, q);
        DrainRaisesIff(q, payment);
      } else {
        NothingBehind(p, payment, slot, p1);
      }
    }
  }

  lemma NextRaisesIff(p: Processor, e: PaymentEvent)
    requires OwnSlots(p.buffer) && (e.payment, e.sequence) !in p.buffer && ValidEvent(e)
    requires e.sequence == StateOf(p, e.payment).last + 1
    ensures ApplyAndDrain(p, e).Raised? <==>
              !Conflicts(p, e) && Brings(p, e).Some? && Refuses(p.entries, Brings(p, e).value)
  {
    ApplyRaisesIff(p, e);
    if Conflicts(p, e) {
      ConflictingStep(p, e);
      NothingNext(Apply(p, e).after, e.payment);
    } else if e.sequence < COMPLETED {
      MiddleStep(p, e);
      DrainRaisesIff(Apply(p, e).after, e.payment);
    } else {
      LastStep(p, e);
      NothingNext(Apply(p, e).after, e.payment);
    }
  }

  lemma BuffersOwn(p: Processor, payment: string)
    requires Buffers(p, "", 1)
    ensures OwnSlots(p.buffer) && (payment, StateOf(p, payment).last + 1) !in p.buffer
  {
    forall slot: Slot | slot in p.buffer
      ensures ValidEvent(p.buffer[slot]) && p.buffer[slot].payment == slot.0 && p.buffer[slot].sequence == slot.1
    {
      assert slot.1 > StateOf(p, slot.0).last + 1;
    }
  }

  lemma ReceiveRaisesIff(p: Processor, e: PaymentEvent, opening: seq<Entry>, refused: set<string>)
    requires Inv(p, opening, refused) && ValidEvent(e)
    ensures Receive(p, e).Raised? <==> WillBeRefused(p, e)
  {
    RevisionIsLast(p, e.payment, opening, refused);
    if e.id !in p.processedIds && e.sequence == StateOf(p, e.payment).last + 1 {
      ReceiveNext(p, e);
      BuffersOwn(p, e.payment);
      assert StateOf(Arrived(p, e), e.payment) == StateOf(p, e.payment);
      NextRaisesIff(Arrived(p, e), e);
    }
  }

  /**
   After any deliveries at all, a delivery raises if and only if it is new and
   next, its amount does not conflict, and the completion it brings to the
   ledger, its own or the one at the end of the buffered run behind it, has its
   settlement there already or arrived before the time of the last posting.
   */
  lemma RefusedExactlyWhen(opening: seq<Entry>, events: seq<PaymentEvent>, e: PaymentEvent)
    requires Sound(opening) && ValidStream(events + [e])
    ensures Receive(Exec(opening, events).p, e).Raised? <==> WillBeRefused(Exec(opening, events).p, e)
    ensures Exec(opening, events + [e]).refused ==
            Exec(opening, events).refused + (if WillBeRefused(Exec(opening, events).p, e) then {e.payment} else {})
  {
    assert (events + [e])[..|events|] == events && (events + [e])[|events|] == e;
    assert forall i :: 0 <= i < |events| ==> events[i] == (events + [e])[i];
    ExecKeeps(opening, events);
    ReceiveRaisesIff(Exec(opening, events).p, e, opening, Exec(opening, events).refused);
  }
}
