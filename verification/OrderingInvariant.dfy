/** What holds of the re-ordering processor in every state, on any ledger, whatever was delivered or refused. */
module OrderingInvariant {
  import opened Wrappers
  import opened Ledgers
  import opened Ordering

  // ----- With no assumption on identifiers or amounts -----

  /** The amount of the first event applied for a payment. */
  ghost function FirstProcessed(results: seq<Result>, payment: string): Option<nat> {
    if results == [] then None
    else
      var earlier, r := FirstProcessed(results[..|results| - 1], payment), results[|results| - 1];
      if earlier.Some? then earlier
      else if r.decision == Processed && r.event.payment == payment then Some(r.event.cents)
      else None
  }

  /** Decisions that settle the fate of a delivery: everything but buffering it. */
  ghost function Decided(results: seq<Result>): nat {
    if results == [] then 0
    else Decided(results[..|results| - 1]) + (if results[|results| - 1].decision == Buffered then 0 else 1)
  }

  /** The ledger is the opening history and one debit, of the right amount, for each completed payment that was not refused. */
  ghost predicate Settlements(p: Processor, opening: seq<Entry>, refused: set<string>) {
    && Sound(p.entries) && opening <= p.entries
    && p.created == |p.entries| - |opening|
    && (forall i :: |opening| <= i < |p.entries| ==> Settles(p, p.entries[i], refused))
    && (forall payment :: payment in refused ==> StateOf(p, payment).last == COMPLETED)
    && (forall payment :: StateOf(p, payment).last == COMPLETED && payment !in refused ==> NewlySettled(p, opening, payment))
  }

  ghost predicate Settles(p: Processor, entry: Entry, refused: set<string>) {
    && entry.id.Settlement? && entry.kind == Debit
    && entry.id.payment !in refused
    && StateOf(p, entry.id.payment).last == COMPLETED && StateOf(p, entry.id.payment).cents == Some(entry.cents)
  }

  ghost predicate NewlySettled(p: Processor, opening: seq<Entry>, payment: string) {
    Settlement(payment) in Ids(p.entries) && Settlement(payment) !in Ids(opening)
  }

  ghost predicate States(p: Processor) {
    forall payment ::
      var st := StateOf(p, payment);
      && st.last <= COMPLETED && st.revision == st.last
      && (st.cents.Some? <==> st.last > 0)
      && st.cents == FirstProcessed(p.results, payment)
  }

  /** Buffered events sit in their own slot, beyond what is applied; `slack` is 1 except while draining. */
  ghost predicate Buffers(p: Processor, draining: string, slack: nat) {
    forall slot :: slot in p.buffer ==>
      && ValidEvent(p.buffer[slot])
      && p.buffer[slot].payment == slot.0 && p.buffer[slot].sequence == slot.1
      && slot.1 > StateOf(p, slot.0).last + (if slot.0 == draining then slack else 1)
  }

  /** Every delivery is decided, waits in the buffer, or was refused. */
  ghost predicate Inv(p: Processor, opening: seq<Entry>, refused: set<string>) {
    && Settlements(p, opening, refused) && States(p) && Buffers(p, "", 1)
    && p.received == Decided(p.results) + |p.buffer| + |refused|
  }

  /** The refused payments, after an outcome for one of them. */
  ghost function RefusedBy(refused: set<string>, o: Outcome, payment: string): set<string> {
    if o.Raised? then refused + {payment} else refused
  }

  lemma NotedCounts(results: seq<Result>, r: Result)
    ensures Decided(results + [r]) == Decided(results) + (if r.decision == Buffered then 0 else 1)
    ensures forall payment :: FirstProcessed(results + [r], payment) ==
              if FirstProcessed(results, payment).Some? then FirstProcessed(results, payment)
              else if r.decision == Processed && r.event.payment == payment then Some(r.event.cents) else None
  {
    assert (results + [r])[..|results|] == results;
  }

  // ----- Applying one event -----

  lemma AdvancedStates(p: Processor, e: PaymentEvent, expected: nat)
    requires States(p) && ValidEvent(e)
    requires StateOf(p, e.payment).cents.None? || StateOf(p, e.payment).cents == Some(e.cents)
    ensures States(Noted(Advanced(p, e), e, Processed, expected))
  {
    NotedCounts(p.results, Result(e, Processed, expected));
    var p' := Noted(Advanced(p, e), e, Processed, expected);
    forall payment
      ensures var st := StateOf(p', payment);
              && st.last <= COMPLETED && st.revision == st.last
              && (st.cents.Some? <==> st.last > 0)
              && st.cents == FirstProcessed(p'.results, payment)
    {
      assert StateOf(p, payment).cents == FirstProcessed(p.results, payment);
    }
  }

  /** What is not settled is in the ledger only if it was there at the start. */
  lemma UnsettledId(p: Processor, opening: seq<Entry>, refused: set<string>, payment: string)
    requires Settlements(p, opening, refused) && (StateOf(p, payment).last < COMPLETED || payment in refused)
    ensures Settlement(payment) in Ids(p.entries) <==> Settlement(payment) in Ids(opening)
  {
    assert forall i :: 0 <= i < |opening| ==> p.entries[i] == opening[i];
    forall i | |opening| <= i < |p.entries| ensures p.entries[i].id != Settlement(payment) {
      assert Settles(p, p.entries[i], refused);
    }
  }

  /** A payment moves on without a posting; if it completes so, it is refused. */
  lemma MovedSettlements(p: Processor, p': Processor, payment: string, opening: seq<Entry>, refused: set<string>)
    requires Settlements(p, opening, refused) && StateOf(p, payment).last < COMPLETED
    requires p'.entries == p.entries && p'.created == p.created
    requires forall other :: other != payment ==> StateOf(p', other) == StateOf(p, other)
    ensures Settlements(p', opening, if StateOf(p', payment).last == COMPLETED then refused + {payment} else refused)
  {
    var refused' := if StateOf(p', payment).last == COMPLETED then refused + {payment} else refused;
    forall i | |opening| <= i < |p.entries| ensures Settles(p', p.entries[i], refused') {
      assert Settles(p, p.entries[i], refused);
    }
    forall other | StateOf(p', other).last == COMPLETED && other !in refused' ensures NewlySettled(p', opening, other) {
      assert other != payment && StateOf(p, other).last == COMPLETED;
      assert NewlySettled(p, opening, other);
    }
  }

  /** A payment completes, and the ledger takes its settlement. */
  lemma CompletedSettlements(p: Processor, p': Processor, e: PaymentEvent, opening: seq<Entry>, refused: set<string>)
    requires Settlements(p, opening, refused) && StateOf(p, e.payment).last < COMPLETED
    requires Objection(p.entries, SettlementOf(p.entries, e)).None?
    requires p'.entries == p.entries + [SettlementOf(p.entries, e)] && p'.created == p.created + 1
    requires forall other :: other != e.payment ==> StateOf(p', other) == StateOf(p, other)
    requires StateOf(p', e.payment).last == COMPLETED && StateOf(p', e.payment).cents == Some(e.cents)
    ensures Settlements(p', opening, refused)
  {
    UnsettledId(p, opening, refused, e.payment);
    AppendSound(p.entries, SettlementOf(p.entries, e));
    IdsAppend(p.entries, SettlementOf(p.entries, e));
    forall i | |opening| <= i < |p'.entries| ensures Settles(p', p'.entries[i], refused) {
      if i < |p.entries| {
        assert Settles(p, p.entries[i], refused) && p.entries[i].id in Ids(p.entries);
      }
    }
    forall other | StateOf(p', other).last == COMPLETED && other !in refused ensures NewlySettled(p', opening, other) {
      if other != e.payment {
        assert NewlySettled(p, opening, other);
      }
    }
  }

  /** What applying the next event changes, whether the ledger accepts or not. */
  ghost predicate Stepped(p: Processor, e: PaymentEvent, o: Outcome) {
    && o.after.buffer == p.buffer && o.after.received == p.received
    && Decided(o.after.results) == Decided(p.results) + (if o.Raised? then 0 else 1)
    && (forall payment :: payment != e.payment ==> StateOf(o.after, payment) == StateOf(p, payment))
    && (StateOf(o.after, e.payment) == StateOf(p, e.payment) || StateOf(o.after, e.payment).last == e.sequence)
    && (o.Raised? ==> StateOf(p, e.payment).last < COMPLETED == StateOf(o.after, e.payment).last)
  }

  lemma ApplyConflict(p: Processor, e: PaymentEvent, opening: seq<Entry>, refused: set<string>)
    requires Settlements(p, opening, refused) && States(p) && Conflicts(p, e)
    ensures var o := Apply(p, e);
            o.Returned? && Settlements(o.after, opening, refused) && States(o.after) && Stepped(p, e, o)
  {
    NotedCounts(p.results, Result(e, Rejected, StateOf(p, e.payment).last + 1));
    RejectedKeeps(p, Apply(p, e).after, opening, refused);
  }

  lemma ApplyMiddle(p: Processor, e: PaymentEvent, opening: seq<Entry>, refused: set<string>)
    requires Settlements(p, opening, refused) && States(p) && ValidEvent(e) && !Conflicts(p, e)
    requires e.sequence == StateOf(p, e.payment).last + 1 && e.sequence < COMPLETED
    ensures var o := Apply(p, e);
            o.Returned? && Settlements(o.after, opening, refused) && States(o.after) && Stepped(p, e, o)
  {
    NotedCounts(p.results, Result(e, Processed, e.sequence));
    AdvancedStates(p, e, e.sequence);
    MovedSettlements(p, Apply(p, e).after, e.payment, opening, refused);
  }

  lemma ApplyCompletion(p: Processor, e: PaymentEvent, opening: seq<Entry>, refused: set<string>)
    requires Settlements(p, opening, refused) && States(p) && ValidEvent(e) && !Conflicts(p, e)
    requires e.sequence == StateOf(p, e.payment).last + 1 && e.sequence == COMPLETED
    requires Objection(p.entries, SettlementOf(p.entries, e)).None?
    ensures var o := Apply(p, e);
            o.Returned? && Settlements(o.after, opening, refused) && States(o.after) && Stepped(p, e, o)
  {
    NotedCounts(p.results, Result(e, Processed, e.sequence));
    AdvancedStates(p, e, e.sequence);
    CompletedSettlements(p, Apply(p, e).after, e, opening, refused);
    SameStates(Noted(Advanced(p, e), e, Processed, e.sequence), Apply(p, e).after);
  }

  lemma ApplyRefused(p: Processor, e: PaymentEvent, opening: seq<Entry>, refused: set<string>)
    requires Settlements(p, opening, refused) && States(p) && ValidEvent(e) && !Conflicts(p, e)
    requires e.sequence == StateOf(p, e.payment).last + 1 && e.sequence == COMPLETED
    requires Objection(p.entries, SettlementOf(p.entries, e)).Some?
    ensures var o := Apply(p, e);
            && o.Raised? && Settlements(o.after, opening, refused + {e.payment}) && States(o.after) && Stepped(p, e, o)
  {
    MovedSettlements(p, Advanced(p, e), e.payment, opening, refused);
    RefusedStates(p, e);
  }

  /** The last step is not the first, so the amount was fixed before. */
  lemma RefusedStates(p: Processor, e: PaymentEvent)
    requires States(p) && ValidEvent(e) && !Conflicts(p, e) && e.sequence == StateOf(p, e.payment).last + 1 == COMPLETED
    ensures States(Advanced(p, e))
  {
    var p' := Advanced(p, e);
    forall payment
      ensures var st := StateOf(p', payment);
              && st.last <= COMPLETED && st.revision == st.last
              && (st.cents.Some? <==> st.last > 0)
              && st.cents == FirstProcessed(p'.results, payment)
    {
      assert StateOf(p, payment).cents == FirstProcessed(p.results, payment);
    }
  }

  lemma ApplyKeeps(p: Processor, e: PaymentEvent, opening: seq<Entry>, refused: set<string>)
    requires Settlements(p, opening, refused) && States(p) && ValidEvent(e)
    requires e.sequence == StateOf(p, e.payment).last + 1
    ensures var o := Apply(p, e);
            && Settlements(o.after, opening, RefusedBy(refused, o, e.payment)) && States(o.after) && Stepped(p, e, o)
  {
    if Conflicts(p, e) {
      ApplyConflict(p, e, opening, refused);
    } else if e.sequence < COMPLETED {
      ApplyMiddle(p, e, opening, refused);
    } else if Objection(p.entries, SettlementOf(p.entries, e)).None? {
      ApplyCompletion(p, e, opening, refused);
    } else {
      ApplyRefused(p, e, opening, refused);
    }
  }

  lemma SameStates(p: Processor, p': Processor)
    requires States(p) && p'.states == p.states && p'.results == p.results
    ensures States(p')
  {
    assert forall payment :: StateOf(p', payment) == StateOf(p, payment);
  }

  /** Noting a decision that applies nothing leaves ledger and states sound. */
  lemma RejectedKeeps(p: Processor, p': Processor, opening: seq<Entry>, refused: set<string>)
    requires Settlements(p, opening, refused) && States(p)
    requires p'.entries == p.entries && p'.created == p.created
    requires forall payment :: StateOf(p', payment) == StateOf(p, payment)
    requires forall payment :: FirstProcessed(p'.results, payment) == FirstProcessed(p.results, payment)
    ensures Settlements(p', opening, refused) && States(p')
  {
    forall i | |opening| <= i < |p.entries| ensures Settles(p', p.entries[i], refused) {
      assert Settles(p, p.entries[i], refused);
    }
    forall payment | StateOf(p', payment).last == COMPLETED && payment !in refused ensures NewlySettled(p', opening, payment) {
      assert NewlySettled(p, opening, payment);
    }
  }

  // ----- Draining -----

  /** Everything the invariant says, while the buffer of `payment` may hold its next event. */
  ghost predicate Draining(p: Processor, opening: seq<Entry>, refused: set<string>, payment: string, inFlight: nat) {
    && Settlements(p, opening, refused) && States(p) && Buffers(p, payment, 0)
    && p.received == Decided(p.results) + |p.buffer| + |refused| + inFlight
  }

  lemma AppliedDraining(p: Processor, e: PaymentEvent, o: Outcome, opening: seq<Entry>, refused: set<string>)
    requires Draining(p, opening, refused, e.payment, 1) && Stepped(p, e, o) && e.sequence == StateOf(p, e.payment).last + 1
    requires (e.payment, e.sequence) !in p.buffer
    requires Settlements(o.after, opening, RefusedBy(refused, o, e.payment)) && States(o.after)
    ensures Draining(o.after, opening, RefusedBy(refused, o, e.payment), e.payment, 0)
  {
    assert o.Raised? ==> e.payment !in refused;
    AppliedBuffers(p, e, o);
  }

  lemma AppliedBuffers(p: Processor, e: PaymentEvent, o: Outcome)
    requires Buffers(p, e.payment, 0) && Stepped(p, e, o) && e.sequence == StateOf(p, e.payment).last + 1
    requires (e.payment, e.sequence) !in p.buffer
    ensures Buffers(o.after, e.payment, 0)
  {
    forall slot | slot in o.after.buffer
      ensures slot.1 > StateOf(o.after, slot.0).last + (if slot.0 == e.payment then 0 else 1)
    {
      if slot.0 == e.payment {
        assert slot != (e.payment, e.sequence);
      }
    }
  }

  lemma DrainedIsSound(p: Processor, opening: seq<Entry>, refused: set<string>, payment: string)
    requires Draining(p, opening, refused, payment, 0)
    requires (payment, StateOf(p, payment).last + 1) !in p.buffer
    ensures Inv(p, opening, refused)
  {
    forall slot | slot in p.buffer ensures slot.1 > StateOf(p, slot.0).last + 1 {
      if slot.0 == payment {
        assert slot != (payment, StateOf(p, payment).last + 1);
      }
    }
  }

  /** Nothing is buffered behind the last step. */
  lemma NothingBeyond(p: Processor, draining: string, slack: nat, payment: string)
    requires Buffers(p, draining, slack) && StateOf(p, payment).last == COMPLETED
    ensures (payment, StateOf(p, payment).last + 1) !in p.buffer
  {
  }

  lemma PopDraining(p: Processor, opening: seq<Entry>, refused: set<string>, payment: string, slot: Slot)
    requires Draining(p, opening, refused, payment, 0) && slot in p.buffer
    ensures Draining(p.(buffer := Without(p.buffer, slot)), opening, refused, payment, 1)
  {
    SmallerWithout(p.buffer, slot);
    var p' := p.(buffer := Without(p.buffer, slot));
    assert forall other :: StateOf(p', other) == StateOf(p, other);
    RejectedKeeps(p, p', opening, refused);
  }

  lemma PopApplyKeeps(p: Processor, opening: seq<Entry>, refused: set<string>, payment: string)
    requires Draining(p, opening, refused, payment, 0) && (payment, StateOf(p, payment).last + 1) in p.buffer
    ensures var slot := (payment, StateOf(p, payment).last + 1);
            var o := Apply(p.(buffer := Without(p.buffer, slot)), p.buffer[slot]);
            Draining(o.after, opening, RefusedBy(refused, o, payment), payment, 0) && |o.after.buffer| < |p.buffer|
  {
    var slot := (payment, StateOf(p, payment).last + 1);
    var e, p1 := p.buffer[slot], p.(buffer := Without(p.buffer, slot));
    SmallerWithout(p.buffer, slot);
    PopDraining(p, opening, refused, payment, slot);
    assert StateOf(p1, payment) == StateOf(p, payment);
    ApplyDraining(p1, e, opening, refused);
  }

  lemma ApplyDraining(p: Processor, e: PaymentEvent, opening: seq<Entry>, refused: set<string>)
    requires Draining(p, opening, refused, e.payment, 1) && ValidEvent(e)
    requires e.sequence == StateOf(p, e.payment).last + 1 && (e.payment, e.sequence) !in p.buffer
    ensures Draining(Apply(p, e).after, opening, RefusedBy(refused, Apply(p, e), e.payment), e.payment, 0)
    ensures Stepped(p, e, Apply(p, e))
  {
    ApplyKeeps(p, e, opening, refused);
    AppliedDraining(p, e, Apply(p, e), opening, refused);
  }

  /** Draining takes out the next event and applies it, and goes on if that did not raise. */
  lemma DrainUnfolds(p: Processor, payment: string, slot: Slot, p1: Processor)
    requires slot == (payment, StateOf(p, payment).last + 1) && slot in p.buffer
    requires p1 == p.(buffer := Without(p.buffer, slot))
    ensures Apply(p1, p.buffer[slot]).Raised? ==> Drain(p, payment) == Apply(p1, p.buffer[slot])
    ensures Apply(p1, p.buffer[slot]).Returned? ==> Drain(p, payment) == Drain(Apply(p1, p.buffer[slot]).after, payment)
    ensures |p1.buffer| < |p.buffer|
  {
    SmallerWithout(p.buffer, slot);
  }

  /** The event in the slot is the next of its payment. */
  predicate IsNext(p: Processor, slot: Slot) {
    slot in p.buffer && slot.1 == StateOf(p, slot.0).last + 1
  }

  function Popped(p: Processor, slot: Slot): Outcome
    requires slot in p.buffer
  {
    Apply(p.(buffer := Without(p.buffer, slot)), p.buffer[slot])
  }

  ghost predicate KeptByApplying(payment: string, ok: Outcome -> bool) {
    forall p: Processor, n: nat :: IsNext(p, (payment, n)) && ok(Returned(p)) ==> ok(Popped(p, (payment, n)))
  }

  lemma PoppedDrains(p: Processor, slot: Slot)
    requires IsNext(p, slot)
    ensures var o := Popped(p, slot);
            Drain(p, slot.0) == (if o.Returned? then Drain(o.after, slot.0) else o) && |o.after.buffer| < |p.buffer|
  {
    DrainUnfolds(p, slot.0, slot, p.(buffer := Without(p.buffer, slot)));
  }

  /** What applying the next buffered event keeps, draining keeps. */
  lemma {:induction false} DrainPreserves(p: Processor, payment: string, ok: Outcome -> bool)
    requires ok(Returned(p)) && KeptByApplying(payment, ok)
    ensures ok(Drain(p, payment))
    decreases |p.buffer|
  {
    var slot: Slot := (payment, StateOf(p, payment).last + 1);
    if slot in p.buffer {
      assert IsNext(p, slot);
      PoppedDrains(p, slot);
      var o := Popped(p, slot);
      if o.Returned? {
        DrainPreserves(o.after, payment, ok);
      }
    } else {
      assert Drain(p, payment) == Returned(p);
    }
  }

  lemma {:induction false} DrainKeeps(p: Processor, opening: seq<Entry>, refused: set<string>, payment: string)
    requires Draining(p, opening, refused, payment, 0)
    ensures Inv(Drain(p, payment).after, opening, RefusedBy(refused, Drain(p, payment), payment))
    decreases |p.buffer|
  {
    var slot: Slot := (payment, StateOf(p, payment).last + 1);
    if slot !in p.buffer {
      DrainedIsSound(p, opening, refused, payment);
    } else {
      var p1 := p.(buffer := Without(p.buffer, slot));
      DrainUnfolds(p, payment, slot, p1);
      PopApplyKeeps(p, opening, refused, payment);
      if Apply(p1, p.buffer[slot]).Raised? {
        RaisedIsSound(p, opening, refused, payment, Apply(p1, p.buffer[slot]).after);
      } else {
        DrainKeeps(Apply(p1, p.buffer[slot]).after, opening, refused, payment);
      }
    }
  }

  /** The step refused is the last, so nothing is left to drain. */
  lemma RaisedIsSound(p: Processor, opening: seq<Entry>, refused: set<string>, payment: string, after: Processor)
    requires var slot := (payment, StateOf(p, payment).last + 1);
             slot in p.buffer && p.buffer[slot].payment == payment
             && Apply(p.(buffer := Without(p.buffer, slot)), p.buffer[slot]) == Raised(after)
    requires Draining(after, opening, refused + {payment}, payment, 0)
    ensures Inv(after, opening, refused + {payment})
  {
    assert StateOf(after, payment).last == COMPLETED;
    NothingBeyond(after, payment, 0, payment);
    DrainedIsSound(after, opening, refused + {payment}, payment);
  }

  // ----- Receiving -----

  lemma ArrivedDraining(p: Processor, e: PaymentEvent, opening: seq<Entry>, refused: set<string>)
    requires Inv(p, opening, refused)
    ensures Draining(Arrived(p, e), opening, refused, e.payment, 1)
    ensures forall payment :: StateOf(Arrived(p, e), payment) == StateOf(p, payment)
  {
    var p' := Arrived(p, e);
    assert forall payment :: StateOf(p', payment) == StateOf(p, payment);
    RejectedKeeps(p, p', opening, refused);
  }

  lemma DecidedKeeps(p: Processor, e: PaymentEvent, d: Decision, expected: nat, opening: seq<Entry>, refused: set<string>)
    requires Inv(p, opening, refused) && d != Processed && d != Buffered
    ensures Inv(Noted(Arrived(p, e), e, d, expected), opening, refused)
  {
    var p' := Noted(Arrived(p, e), e, d, expected);
    NotedCounts(p.results, Result(e, d, expected));
    assert forall payment :: StateOf(p', payment) == StateOf(p, payment);
    RejectedKeeps(p, p', opening, refused);
  }

  lemma HoldBuffers(p: Processor, e: PaymentEvent, p': Processor)
    requires Buffers(p, "", 1) && ValidEvent(e) && e.sequence > StateOf(p, e.payment).last + 1
    requires p'.buffer == p.buffer[(e.payment, e.sequence) := e]
    requires forall payment :: StateOf(p', payment) == StateOf(p, payment)
    ensures Buffers(p', "", 1)
    ensures (e.payment, e.sequence) !in p.buffer ==> |p'.buffer| == |p.buffer| + 1
  {
    assert p'.buffer.Keys == p.buffer.Keys + {(e.payment, e.sequence)};
  }

  lemma BufferedKeeps(p: Processor, e: PaymentEvent, expected: nat, opening: seq<Entry>, refused: set<string>)
    requires Inv(p, opening, refused) && ValidEvent(e)
    requires e.sequence > StateOf(p, e.payment).last + 1 && (e.payment, e.sequence) !in p.buffer
    ensures Inv(Noted(Hold(Arrived(p, e), e), e, Buffered, expected), opening, refused)
  {
    var p' := Noted(Hold(Arrived(p, e), e), e, Buffered, expected);
    NotedCounts(p.results, Result(e, Buffered, expected));
    assert forall payment :: StateOf(p', payment) == StateOf(p, payment);
    RejectedKeeps(p, p', opening, refused);
    HoldBuffers(p, e, p');
  }

  lemma NextFacts(p: Processor, e: PaymentEvent, opening: seq<Entry>, refused: set<string>)
    requires Inv(p, opening, refused) && e.sequence == StateOf(p, e.payment).last + 1
    ensures Draining(Arrived(p, e), opening, refused, e.payment, 1)
    ensures e.sequence == StateOf(Arrived(p, e), e.payment).last + 1
    ensures (e.payment, e.sequence) !in Arrived(p, e).buffer
  {
    ArrivedDraining(p, e, opening, refused);
    assert forall slot :: slot in p.buffer ==> slot.1 > StateOf(p, slot.0).last + 1;
  }

  lemma NextKeeps(p: Processor, e: PaymentEvent, opening: seq<Entry>, refused: set<string>)
    requires Inv(p, opening, refused) && ValidEvent(e) && e.sequence == StateOf(p, e.payment).last + 1
    ensures var o := ApplyAndDrain(Arrived(p, e), e); Inv(o.after, opening, RefusedBy(refused, o, e.payment))
  {
    NextFacts(p, e, opening, refused);
    var p1 := Arrived(p, e);
    ApplyDraining(p1, e, opening, refused);
    if Apply(p1, e).Returned? {
      DrainKeeps(Apply(p1, e).after, opening, refused, e.payment);
    } else {
      NothingBeyond(Apply(p1, e).after, e.payment, 0, e.payment);
      DrainedIsSound(Apply(p1, e).after, opening, refused + {e.payment}, e.payment);
    }
  }

  lemma RevisionIsLast(p: Processor, payment: string, opening: seq<Entry>, refused: set<string>)
    requires Inv(p, opening, refused)
    ensures StateOf(p, payment).revision == StateOf(p, payment).last
  {
  }

  /** An event that is known or behind is only noted. */
  lemma ReceiveSeen(p: Processor, e: PaymentEvent, opening: seq<Entry>, refused: set<string>)
    requires Inv(p, opening, refused) && ValidEvent(e) && (e.id in p.processedIds || e.sequence <= StateOf(p, e.payment).last)
    ensures Receive(p, e).Returned? && Inv(Receive(p, e).after, opening, refused)
  {
    var d := if e.id in p.processedIds then Duplicate else Stale;
    ReceiveSeenIs(p, e, d);
    DecidedKeeps(p, e, d, StateOf(p, e.payment).last + 1, opening, refused);
  }

  lemma ReceiveSeenIs(p: Processor, e: PaymentEvent, d: Decision)
    requires e.id in p.processedIds || e.sequence <= StateOf(p, e.payment).last
    requires d == if e.id in p.processedIds then Duplicate else Stale
    ensures Receive(p, e) == Returned(Noted(Arrived(p, e), e, d, StateOf(p, e.payment).last + 1))
  {
  }

  lemma ReceiveTakenIs(p: Processor, e: PaymentEvent)
    requires e.id !in p.processedIds && e.sequence > StateOf(p, e.payment).last + 1
    requires e.revision > StateOf(p, e.payment).revision && (e.payment, e.sequence) in p.buffer
    ensures Receive(p, e) == Returned(Noted(Arrived(p, e), e, Rejected, StateOf(p, e.payment).last + 1))
  {
  }

  lemma ReceiveEarlyIs(p: Processor, e: PaymentEvent)
    requires e.id !in p.processedIds && e.sequence > StateOf(p, e.payment).last + 1
    requires e.revision > StateOf(p, e.payment).revision && (e.payment, e.sequence) !in p.buffer
    ensures Receive(p, e) == Returned(Noted(Hold(Arrived(p, e), e), e, Buffered, StateOf(p, e.payment).last + 1))
  {
  }

  /** An event that is early is buffered, or rejected if its place is taken. */
  lemma ReceiveEarly(p: Processor, e: PaymentEvent, opening: seq<Entry>, refused: set<string>)
    requires Inv(p, opening, refused) && ValidEvent(e) && e.id !in p.processedIds && e.sequence > StateOf(p, e.payment).last + 1
    ensures Receive(p, e).Returned? && Inv(Receive(p, e).after, opening, refused)
  {
    if (e.payment, e.sequence) in p.buffer {
      ReceiveTaken(p, e, opening, refused);
    } else {
      ReceiveKept(p, e, opening, refused);
    }
  }

  lemma ReceiveTaken(p: Processor, e: PaymentEvent, opening: seq<Entry>, refused: set<string>)
    requires Inv(p, opening, refused) && ValidEvent(e) && e.id !in p.processedIds && e.sequence > StateOf(p, e.payment).last + 1
    requires (e.payment, e.sequence) in p.buffer
    ensures Receive(p, e).Returned? && Inv(Receive(p, e).after, opening, refused)
  {
    RevisionIsLast(p, e.payment, opening, refused);
    ReceiveTakenIs(p, e);
    DecidedKeeps(p, e, Rejected, StateOf(p, e.payment).last + 1, opening, refused);
  }

  lemma ReceiveKept(p: Processor, e: PaymentEvent, opening: seq<Entry>, refused: set<string>)
    requires Inv(p, opening, refused) && ValidEvent(e) && e.id !in p.processedIds && e.sequence > StateOf(p, e.payment).last + 1
    requires (e.payment, e.sequence) !in p.buffer
    ensures Receive(p, e).Returned? && Inv(Receive(p, e).after, opening, refused)
  {
    RevisionIsLast(p, e.payment, opening, refused);
    ReceiveEarlyIs(p, e);
    BufferedKeeps(p, e, StateOf(p, e.payment).last + 1, opening, refused);
  }

  lemma ReceiveNext(p: Processor, e: PaymentEvent)
    requires e.id !in p.processedIds && e.sequence == e.revision == StateOf(p, e.payment).last + 1
    requires StateOf(p, e.payment).revision == StateOf(p, e.payment).last
    ensures Receive(p, e) == ApplyAndDrain(Arrived(p, e), e)
  {
  }

  lemma ReceiveKeeps(p: Processor, e: PaymentEvent, opening: seq<Entry>, refused: set<string>)
    requires Inv(p, opening, refused) && ValidEvent(e)
    ensures Inv(Receive(p, e).after, opening, RefusedBy(refused, Receive(p, e), e.payment))
  {
    if e.id in p.processedIds || e.sequence <= StateOf(p, e.payment).last {
      ReceiveSeen(p, e, opening, refused);
    } else if e.sequence > StateOf(p, e.payment).last + 1 {
      ReceiveEarly(p, e, opening, refused);
    } else {
      RevisionIsLast(p, e.payment, opening, refused);
      ReceiveNext(p, e);
      NextKeeps(p, e, opening, refused);
    }
  }

  ghost predicate ValidStream(events: seq<PaymentEvent>) {
    forall i :: 0 <= i < |events| ==> ValidEvent(events[i])
  }

  lemma {:induction false} ExecKeeps(opening: seq<Entry>, events: seq<PaymentEvent>)
    requires Sound(opening) && ValidStream(events)
    ensures var run := Exec(opening, events); Inv(run.p, opening, run.refused)
    decreases |events|
  {
    if events != [] {
      var before := Exec(opening, events[..|events| - 1]);
      ExecKeeps(opening, events[..|events| - 1]);
      ReceiveKeeps(before.p, events[|events| - 1], opening, before.refused);
    }
  }

  // ----- Results -----

  /**
   Whatever is delivered and refused, identifiers and amounts included, and
   whatever the ledger held before: buffered events lie beyond the next
   expected one; what is added to the ledger is one settlement debit each, of
   the amount of the first applied event, for the payments that have come to
   their last step and were not refused, none of which was settled before; and
   every delivery received is decided, still in the buffer, or was refused.
   */
  lemma ReachableIsSound(opening: seq<Entry>, events: seq<PaymentEvent>)
    requires Sound(opening) && ValidStream(events)
    ensures var Run(p, refused) := Exec(opening, events);
            && (forall slot :: slot in p.buffer ==> slot.1 > StateOf(p, slot.0).last + 1)
            && Sound(p.entries) && opening <= p.entries
            && (forall i :: |opening| <= i < |p.entries| ==>
                  && p.entries[i].id.Settlement? && p.entries[i].kind == Debit
                  && FirstProcessed(p.results, p.entries[i].id.payment) == Some(p.entries[i].cents))
            && (forall payment :: payment in refused ==> StateOf(p, payment).last == COMPLETED)
            && (forall payment :: SettledExactly(p, opening, refused, payment))
            && |events| == Decided(p.results) + |p.buffer| + |refused|
  {
    ExecKeeps(opening, events);
    ExecReceives(opening, events);
    var Run(p, refused) := Exec(opening, events);
    assert forall i :: |opening| <= i < |p.entries| ==> Settles(p, p.entries[i], refused);
    forall payment ensures SettledExactly(p, opening, refused, payment) {
      SettledIff(p, opening, refused, payment);
    }
  }

  /** The settlement of a payment is in the ledger exactly if it was there, or the payment came to its end and was not refused; never both. */
  ghost predicate SettledExactly(p: Processor, opening: seq<Entry>, refused: set<string>, payment: string) {
    var settled := StateOf(p, payment).last == COMPLETED && payment !in refused;
    && (Settlement(payment) in Ids(p.entries) <==> settled || Settlement(payment) in Ids(opening))
    && !(settled && Settlement(payment) in Ids(opening))
  }

  lemma SettledIff(p: Processor, opening: seq<Entry>, refused: set<string>, payment: string)
    requires Settlements(p, opening, refused) && States(p)
    ensures SettledExactly(p, opening, refused, payment)
  {
    assert StateOf(p, payment).last <= COMPLETED;
    if StateOf(p, payment).last == COMPLETED && payment !in refused {
      assert NewlySettled(p, opening, payment);
    } else {
      UnsettledId(p, opening, refused, payment);
    }
  }

  lemma {:induction false} DrainReceives(p: Processor, payment: string)
    ensures Drain(p, payment).after.received == p.received
    decreases |p.buffer|
  {
    var slot := (payment, StateOf(p, payment).last + 1);
    if slot in p.buffer {
      SmallerWithout(p.buffer, slot);
      var p1 := p.(buffer := Without(p.buffer, slot));
      if Apply(p1, p.buffer[slot]).Returned? {
        DrainReceives(Apply(p1, p.buffer[slot]).after, payment);
      }
    }
  }

  lemma {:induction false} ExecReceives(opening: seq<Entry>, events: seq<PaymentEvent>)
    ensures Exec(opening, events).p.received == |events|
    decreases |events|
  {
    if events != [] {
      var p, e := Exec(opening, events[..|events| - 1]).p, events[|events| - 1];
      ExecReceives(opening, events[..|events| - 1]);
      if Apply(Arrived(p, e), e).Returned? {
        DrainReceives(Apply(Arrived(p, e), e).after, e.payment);
      }
    }
  }
}
