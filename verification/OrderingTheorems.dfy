/**
 Arrival order does not matter: on a stream in which identifiers and amounts
 are consistent, the order of the applied and the buffered is a function of the
 set of delivered (payment, sequence) pairs, and so is the ledger but for the
 settlements it refuses.
 */
module OrderingTheorems {
  import opened Ledgers
  import opened Ordering
  import opened OrderingInvariant

  /** Each event identifier names one (payment, sequence), and each payment has one amount. */
  ghost predicate Consistent(events: seq<PaymentEvent>, owner: string -> Slot, amount: string -> nat) {
    forall i :: 0 <= i < |events| ==>
      && ValidEvent(events[i])
      && owner(events[i].id) == (events[i].payment, events[i].sequence)
      && amount(events[i].payment) == events[i].cents
  }

  ghost predicate Fits(e: PaymentEvent, owner: string -> Slot, amount: string -> nat) {
    owner(e.id) == (e.payment, e.sequence) && amount(e.payment) == e.cents
  }

  /** Applied, or waiting in the buffer. */
  ghost predicate Held(p: Processor, payment: string, k: nat) {
    1 <= k <= StateOf(p, payment).last || (payment, k) in p.buffer
  }

  ghost function Slots(events: seq<PaymentEvent>): set<Slot> {
    set i | 0 <= i < |events| :: (events[i].payment, events[i].sequence)
  }

  /** Only consistent events have been applied or buffered. */
  ghost predicate Tidy(p: Processor, owner: string -> Slot, amount: string -> nat) {
    && (forall id :: id in p.processedIds ==> 1 <= owner(id).1 <= StateOf(p, owner(id).0).last)
    && (forall payment :: StateOf(p, payment).cents.Some? ==> StateOf(p, payment).cents.value == amount(payment))
    && (forall slot :: slot in p.buffer ==>
          && p.buffer[slot].payment == slot.0 && p.buffer[slot].sequence == slot.1
          && Fits(p.buffer[slot], owner, amount))
  }

  /** `p2` holds what `p` holds and the event `e`. */
  ghost predicate Gained(p: Processor, e: PaymentEvent, p2: Processor) {
    forall payment, k :: Held(p2, payment, k) <==> Held(p, payment, k) || (payment == e.payment && k == e.sequence)
  }

  lemma ApplyGains(p: Processor, e: PaymentEvent, owner: string -> Slot, amount: string -> nat)
    requires Tidy(p, owner, amount) && Fits(e, owner, amount) && e.sequence == StateOf(p, e.payment).last + 1
    ensures var p' := Apply(p, e).after;
            && Tidy(p', owner, amount) && Gained(p, e, p') && p'.buffer == p.buffer
            && StateOf(p', e.payment).last == e.sequence
            && (forall other :: other != e.payment ==> StateOf(p', other) == StateOf(p, other))
  {
  }

  lemma {:induction false} DrainGains(p: Processor, payment: string, owner: string -> Slot, amount: string -> nat)
    requires Tidy(p, owner, amount)
    ensures var p' := Drain(p, payment).after;
            Tidy(p', owner, amount) && HoldsSame(p, p')
    decreases |p.buffer|
  {
    var slot := (payment, StateOf(p, payment).last + 1);
    if slot in p.buffer {
      var o := Apply(p.(buffer := Without(p.buffer, slot)), p.buffer[slot]);
      PopGains(p, slot, owner, amount);
      if o.Returned? {
        DrainGains(o.after, payment, owner, amount);
        SameHeld(Drain(o.after, payment).after, o.after, p);
      }
    }
  }

  ghost predicate HoldsSame(p: Processor, r: Processor) {
    forall payment, k :: Held(r, payment, k) <==> Held(p, payment, k)
  }

  lemma SameHeld(p: Processor, q: Processor, r: Processor)
    requires HoldsSame(p, q) && HoldsSame(q, r)
    ensures HoldsSame(r, p)
  {
  }

  lemma PopGains(p: Processor, slot: Slot, owner: string -> Slot, amount: string -> nat)
    requires Tidy(p, owner, amount) && slot in p.buffer && slot.1 == StateOf(p, slot.0).last + 1
    ensures var o := Apply(p.(buffer := Without(p.buffer, slot)), p.buffer[slot]);
            Tidy(o.after, owner, amount) && HoldsSame(p, o.after) && |o.after.buffer| < |p.buffer|
  {
    var e, p1 := p.buffer[slot], p.(buffer := Without(p.buffer, slot));
    SmallerWithout(p.buffer, slot);
    PopTidy(p, slot, owner, amount);
    ApplyGains(p1, e, owner, amount);
    PopThenApply(p, slot, p1, Apply(p1, e).after);
  }

  lemma PopTidy(p: Processor, slot: Slot, owner: string -> Slot, amount: string -> nat)
    requires Tidy(p, owner, amount) && slot in p.buffer
    ensures Tidy(p.(buffer := Without(p.buffer, slot)), owner, amount)
  {
    var p' := p.(buffer := Without(p.buffer, slot));
    assert forall payment :: StateOf(p', payment) == StateOf(p, payment);
  }

  /** Moving an event from the buffer into the applied prefix loses nothing. */
  lemma PopThenApply(p: Processor, slot: Slot, p1: Processor, p2: Processor)
    requires slot in p.buffer && slot.1 == StateOf(p, slot.0).last + 1 && p.buffer[slot].payment == slot.0
    requires p.buffer[slot].sequence == slot.1
    requires p1 == p.(buffer := Without(p.buffer, slot)) && Gained(p1, p.buffer[slot], p2)
    ensures forall other, k :: Held(p2, other, k) <==> Held(p, other, k)
  {
    forall other, k: nat ensures Held(p2, other, k) <==> Held(p, other, k) {
      assert StateOf(p1, other) == StateOf(p, other);
      assert (other, k) in p1.buffer <==> (other, k) in p.buffer && (other, k) != slot;
    }
  }

  lemma ArrivedTidy(p: Processor, e: PaymentEvent, p': Processor, owner: string -> Slot, amount: string -> nat)
    requires Tidy(p, owner, amount) && p'.processedIds == p.processedIds && p'.buffer == p.buffer
    requires p'.states == p.states[e.payment := StateOf(p, e.payment)]
    ensures Tidy(p', owner, amount)
    ensures forall payment, k :: Held(p', payment, k) <==> Held(p, payment, k)
  {
    assert forall payment :: StateOf(p', payment) == StateOf(p, payment);
  }

  lemma HoldTidy(p: Processor, e: PaymentEvent, p': Processor, owner: string -> Slot, amount: string -> nat)
    requires Tidy(p, owner, amount) && Fits(e, owner, amount)
    requires p'.processedIds == p.processedIds && p'.buffer == p.buffer[(e.payment, e.sequence) := e]
    requires p'.states == p.states
    ensures Tidy(p', owner, amount) && Gained(p, e, p')
  {
    assert forall payment :: StateOf(p', payment) == StateOf(p, payment);
  }

  lemma ApplyAndDrainGains(p: Processor, e: PaymentEvent, owner: string -> Slot, amount: string -> nat)
    requires Tidy(p, owner, amount) && Fits(e, owner, amount) && e.sequence == StateOf(p, e.payment).last + 1
    ensures var p' := ApplyAndDrain(p, e).after; Tidy(p', owner, amount) && Gained(p, e, p')
  {
    ApplyGains(p, e, owner, amount);
    if Apply(p, e).Returned? {
      DrainGains(Apply(p, e).after, e.payment, owner, amount);
    }
  }

  lemma ReceiveGains(p: Processor, e: PaymentEvent, owner: string -> Slot, amount: string -> nat)
    requires Tidy(p, owner, amount) && ValidEvent(e) && Fits(e, owner, amount)
    requires forall payment :: StateOf(p, payment).revision == StateOf(p, payment).last
    ensures var p' := Receive(p, e).after; Tidy(p', owner, amount) && Gained(p, e, p')
  {
    var p1, st := Arrived(p, e), StateOf(p, e.payment);
    ArrivedTidy(p, e, p1, owner, amount);
    if e.id in p.processedIds || e.sequence <= st.last || ((e.payment, e.sequence) in p.buffer && e.sequence > st.last + 1) {
      ArrivedTidy(p, e, Receive(p, e).after, owner, amount);
    } else if e.sequence > st.last + 1 {
      HoldTidy(p1, e, Receive(p, e).after, owner, amount);
    } else {
      ApplyAndDrainGains(p1, e, owner, amount);
    }
  }

  /** Exactly the delivered pairs are held. */
  ghost predicate HoldsExactly(p: Processor, slots: set<Slot>) {
    forall payment, k: nat :: Held(p, payment, k) <==> (payment, k) in slots
  }

  lemma SlotsAppend(events: seq<PaymentEvent>, e: PaymentEvent)
    ensures Slots(events + [e]) == Slots(events) + {(e.payment, e.sequence)}
  {
    assert (events + [e])[|events|] == e;
    assert forall i :: 0 <= i < |events| ==> (events + [e])[i] == events[i];
  }

  lemma ReceiveHoldsExactly(p: Processor, e: PaymentEvent, slots: set<Slot>, owner: string -> Slot, amount: string -> nat)
    requires Tidy(p, owner, amount) && HoldsExactly(p, slots) && ValidEvent(e) && Fits(e, owner, amount)
    requires States(p)
    ensures var p' := Receive(p, e).after;
            Tidy(p', owner, amount) && HoldsExactly(p', slots + {(e.payment, e.sequence)})
  {
    assert forall payment :: StateOf(p, payment).revision == StateOf(p, payment).last;
    ReceiveGains(p, e, owner, amount);
  }

  lemma ConsistentParts(events: seq<PaymentEvent>, owner: string -> Slot, amount: string -> nat)
    requires Consistent(events, owner, amount) && events != []
    ensures var init, e := events[..|events| - 1], events[|events| - 1];
            && Consistent(init, owner, amount) && ValidEvent(e) && Fits(e, owner, amount)
            && Slots(events) == Slots(init) + {(e.payment, e.sequence)}
    ensures ValidStream(events) && ValidStream(events[..|events| - 1])
  {
    SlotsAppend(events[..|events| - 1], events[|events| - 1]);
    assert events == events[..|events| - 1] + [events[|events| - 1]];
  }

  lemma {:induction false} ExecGains(opening: seq<Entry>, events: seq<PaymentEvent>,
                                     owner: string -> Slot, amount: string -> nat)
    requires Sound(opening) && Consistent(events, owner, amount)
    ensures Tidy(Exec(opening, events).p, owner, amount)
    ensures HoldsExactly(Exec(opening, events).p, Slots(events))
    decreases |events|
  {
    if events != [] {
      var init := events[..|events| - 1];
      ConsistentParts(events, owner, amount);
      ExecGains(opening, init, owner, amount);
      ExecKeeps(opening, init);
      ReceiveHoldsExactly(Exec(opening, init).p, events[|events| - 1], Slots(init), owner, amount);
    }
  }

  // ----- Arrival order does not matter -----

  /** The state is a function of what was delivered: the longest delivered prefix is applied, the rest is buffered. */
  ghost predicate DeterminedBy(p: Processor, opening: seq<Entry>, refused: set<string>, slots: set<Slot>, amount: string -> nat) {
    && (forall payment ::
          var last := StateOf(p, payment).last;
          && (forall k: nat :: 1 <= k <= last ==> (payment, k) in slots)
          && (payment, last + 1) !in slots
          && (forall k: nat :: (payment, k) in p.buffer <==> k > last && (payment, k) in slots))
    && (forall payment :: SettledExactly(p, opening, refused, payment))
    && Sound(p.entries) && opening <= p.entries
    && (forall i :: |opening| <= i < |p.entries| ==>
          && p.entries[i].id.Settlement? && p.entries[i].kind == Debit
          && p.entries[i].cents == amount(p.entries[i].id.payment))
  }

  /**
   After any stream of consistent deliveries, on any ledger, in any order and
   with any repetitions and refusals: the last sequence of a payment is the
   largest k with 1..k all delivered, its buffer holds exactly the other
   delivered sequences, and it has been settled, once and now, if and only if
   k is 4 and the ledger did not refuse it.
   */
  lemma DeliveriesDetermineState(opening: seq<Entry>, events: seq<PaymentEvent>, owner: string -> Slot, amount: string -> nat)
    requires Sound(opening) && Consistent(events, owner, amount)
    ensures var run := Exec(opening, events); DeterminedBy(run.p, opening, run.refused, Slots(events), amount)
  {
    assert ValidStream(events);
    ExecGains(opening, events, owner, amount);
    ExecKeeps(opening, events);
    ReachableIsSound(opening, events);
    Determined(Exec(opening, events).p, opening, Exec(opening, events).refused, Slots(events), owner, amount);
  }

  lemma Determined(p: Processor, opening: seq<Entry>, refused: set<string>, slots: set<Slot>,
                   owner: string -> Slot, amount: string -> nat)
    requires Inv(p, opening, refused) && Tidy(p, owner, amount) && HoldsExactly(p, slots)
    requires forall payment :: SettledExactly(p, opening, refused, payment)
    ensures DeterminedBy(p, opening, refused, slots, amount)
  {
    forall payment
      ensures var last := StateOf(p, payment).last;
              && (forall k: nat :: 1 <= k <= last ==> (payment, k) in slots)
              && (payment, last + 1) !in slots
              && (forall k: nat :: (payment, k) in p.buffer <==> k > last && (payment, k) in slots)
    {
      var last := StateOf(p, payment).last;
      forall k: nat
        ensures 1 <= k <= last ==> (payment, k) in slots
        ensures k == last + 1 ==> (payment, k) !in slots
        ensures (payment, k) in p.buffer <==> k > last && (payment, k) in slots
      {
        assert Held(p, payment, k) <==> (payment, k) in slots;
        assert (payment, k) in p.buffer ==> (payment, k).1 > last + 1;
      }
    }
    SettledAmounts(p, opening, refused, owner, amount);
  }

  lemma SettledAmounts(p: Processor, opening: seq<Entry>, refused: set<string>, owner: string -> Slot, amount: string -> nat)
    requires Settlements(p, opening, refused) && Tidy(p, owner, amount)
    ensures forall i :: |opening| <= i < |p.entries| ==>
              && p.entries[i].id.Settlement? && p.entries[i].kind == Debit
              && p.entries[i].cents == amount(p.entries[i].id.payment)
  {
    assert forall i :: |opening| <= i < |p.entries| ==> Settles(p, p.entries[i], refused);
  }

  // ----- Two streams of the same deliveries -----

  ghost function Paid(entries: seq<Entry>): seq<EntryId> {
    seq(|entries|, i requires 0 <= i < |entries| => entries[i].id)
  }

  ghost function AmountSum(ids: seq<EntryId>, amount: string -> nat): int {
    if ids == [] then 0
    else AmountSum(ids[..|ids| - 1], amount) + (if ids[|ids| - 1].Settlement? then amount(ids[|ids| - 1].payment) else 0)
  }

  lemma {:induction false} AmountSumSplit(x: seq<EntryId>, y: seq<EntryId>, amount: string -> nat)
    ensures AmountSum(x + y, amount) == AmountSum(x, amount) + AmountSum(y, amount)
    decreases |y|
  {
    if y == [] {
      assert x + y == x;
    } else {
      assert (x + y)[..|x + y| - 1] == x + y[..|y| - 1];
      AmountSumSplit(x, y[..|y| - 1], amount);
    }
  }

  lemma AmountSumOne(id: EntryId, amount: string -> nat)
    ensures AmountSum([id], amount) == if id.Settlement? then amount(id.payment) else 0
  {
    assert [id][..0] == [];
  }

  ghost predicate DistinctIds(ids: seq<EntryId>) {
    forall i, j :: 0 <= i < j < |ids| ==> ids[i] != ids[j]
  }

  lemma WithoutOne(ids: seq<EntryId>, j: nat, amount: string -> nat) returns (rest: seq<EntryId>)
    requires DistinctIds(ids) && j < |ids|
    ensures rest == ids[..j] + ids[j + 1..] && DistinctIds(rest)
    ensures forall id :: id in rest <==> id in ids && id != ids[j]
    ensures AmountSum(ids, amount) == AmountSum(rest, amount) + AmountSum([ids[j]], amount)
  {
    rest := ids[..j] + ids[j + 1..];
    assert ids == ids[..j] + [ids[j]] + ids[j + 1..];
    AmountSumSplit(ids[..j] + [ids[j]], ids[j + 1..], amount);
    AmountSumSplit(ids[..j], [ids[j]], amount);
    AmountSumSplit(ids[..j], ids[j + 1..], amount);
  }

  lemma LastApart(xs: seq<EntryId>)
    requires DistinctIds(xs) && xs != []
    ensures var init, x := xs[..|xs| - 1], xs[|xs| - 1]; DistinctIds(init) && forall id :: id in init <==> id in xs && id != x
  {
    assert xs == xs[..|xs| - 1] + [xs[|xs| - 1]];
  }

  lemma LastSum(xs: seq<EntryId>, amount: string -> nat)
    requires xs != []
    ensures AmountSum(xs, amount) == AmountSum(xs[..|xs| - 1], amount) + AmountSum([xs[|xs| - 1]], amount)
  {
    AmountSumSplit(xs[..|xs| - 1], [xs[|xs| - 1]], amount);
    assert xs == xs[..|xs| - 1] + [xs[|xs| - 1]];
  }

  /** The same payments cost the same, in whatever order they were settled. */
  lemma {:induction false} SameIdsSameSum(xs: seq<EntryId>, ys: seq<EntryId>, amount: string -> nat)
    requires DistinctIds(xs) && DistinctIds(ys) && forall id :: id in xs <==> id in ys
    ensures |xs| == |ys| && AmountSum(xs, amount) == AmountSum(ys, amount)
    decreases |xs|
  {
    assert |ys| > 0 ==> ys[0] in ys;
    if xs != [] {
      var x := xs[|xs| - 1];
      assert x in ys;
      var j :| 0 <= j < |ys| && ys[j] == x;
      var rest := WithoutOne(ys, j, amount);
      LastApart(xs);
      SameIdsSameSum(xs[..|xs| - 1], rest, amount);
      LastSum(xs, amount);
    }
  }

  lemma {:induction false} BalanceOfSettlements(opening: seq<Entry>, entries: seq<Entry>, amount: string -> nat)
    requires opening <= entries
    requires forall i :: |opening| <= i < |entries| ==>
               entries[i].id.Settlement? && entries[i].kind == Debit && entries[i].cents == amount(entries[i].id.payment)
    ensures Balance(entries) == Balance(opening) - AmountSum(Paid(entries)[|opening|..], amount)
    decreases |entries|
  {
    if |entries| == |opening| {
      assert entries == opening;
    } else {
      var init, e := entries[..|entries| - 1], entries[|entries| - 1];
      BalanceOfSettlements(opening, init, amount);
      assert Paid(entries)[|opening|..] == Paid(init)[|opening|..] + [e.id];
      AmountSumSplit(Paid(init)[|opening|..], [e.id], amount);
      AmountSumOne(e.id, amount);
    }
  }

  /** The identifiers added since the opening are the settlements that were not there before. */
  lemma TailIds(entries: seq<Entry>, opening: seq<Entry>)
    requires opening <= entries && Sound(entries)
    requires forall i :: |opening| <= i < |entries| ==> entries[i].id.Settlement?
    ensures DistinctIds(Paid(entries)[|opening|..])
    ensures forall id: EntryId :: id in Paid(entries)[|opening|..] <==>
              id.Settlement? && id in Ids(entries) && id !in Ids(opening)
  {
    var ids := Paid(entries)[|opening|..];
    assert forall i :: 0 <= i < |ids| ==> ids[i] == entries[|opening| + i].id;
    assert forall i :: 0 <= i < |opening| ==> entries[i] == opening[i];
    forall id: EntryId | id.Settlement? && id in Ids(entries) && id !in Ids(opening) ensures id in ids {
      var i :| 0 <= i < |entries| && entries[i].id == id;
      assert ids[i - |opening|] == id;
    }
    forall id: EntryId | id in ids ensures id.Settlement? && id in Ids(entries) && id !in Ids(opening) {
      var i :| 0 <= i < |ids| && ids[i] == id;
      assert entries[|opening| + i].id == id;
    }
  }

  lemma SettledIds(p: Processor, opening: seq<Entry>, refused: set<string>, slots: set<Slot>, amount: string -> nat)
    requires DeterminedBy(p, opening, refused, slots, amount)
    ensures DistinctIds(Paid(p.entries)[|opening|..])
    ensures forall id :: id in Paid(p.entries)[|opening|..] <==>
              id.Settlement? && StateOf(p, id.payment).last == COMPLETED && id.payment !in refused
  {
    TailIds(p.entries, opening);
    forall id: EntryId | id.Settlement?
      ensures id in Ids(p.entries) && id !in Ids(opening) <==>
                StateOf(p, id.payment).last == COMPLETED && id.payment !in refused
    {
      assert id == Settlement(id.payment) && SettledExactly(p, opening, refused, id.payment);
    }
  }

  lemma SameLast(p: Processor, r: Processor, opening: seq<Entry>, x: set<string>, y: set<string>,
                 slots: set<Slot>, amount: string -> nat, payment: string)
    requires DeterminedBy(p, opening, x, slots, amount) && DeterminedBy(r, opening, y, slots, amount)
    ensures StateOf(p, payment).last == StateOf(r, payment).last
  {
    var i, j := StateOf(p, payment).last, StateOf(r, payment).last;
    assert (payment, i + 1) !in slots && (payment, j + 1) !in slots;
  }

  /**
   Order independence: two streams that deliver the same pairs, in any order,
   with any repetitions and whatever is refused, leave every payment at the
   same sequence with the same buffer; and if the same payments are refused, as
   when none is, the ledger at the same balance.
   */
  lemma ArrivalOrderDoesNotMatter(opening: seq<Entry>, es: seq<PaymentEvent>, fs: seq<PaymentEvent>,
                                  owner: string -> Slot, amount: string -> nat)
    requires Sound(opening)
    requires Consistent(es, owner, amount) && Consistent(fs, owner, amount) && Slots(es) == Slots(fs)
    ensures var p, r := Exec(opening, es).p, Exec(opening, fs).p;
            && (forall payment :: StateOf(p, payment).last == StateOf(r, payment).last)
            && p.buffer.Keys == r.buffer.Keys
            && (Exec(opening, es).refused == Exec(opening, fs).refused ==>
                  |p.entries| == |r.entries| && Balance(p.entries) == Balance(r.entries))
  {
    var x, y := Exec(opening, es), Exec(opening, fs);
    DeliveriesDetermineState(opening, es, owner, amount);
    DeliveriesDetermineState(opening, fs, owner, amount);
    SameOutcome(x.p, y.p, opening, x.refused, y.refused, Slots(es), amount);
    if x.refused == y.refused {
      SameBalance(x.p, y.p, opening, x.refused, Slots(es), amount);
    }
  }

  lemma SameOutcome(p: Processor, r: Processor, opening: seq<Entry>, x: set<string>, y: set<string>,
                    slots: set<Slot>, amount: string -> nat)
    requires DeterminedBy(p, opening, x, slots, amount) && DeterminedBy(r, opening, y, slots, amount)
    ensures forall payment :: StateOf(p, payment).last == StateOf(r, payment).last
    ensures p.buffer.Keys == r.buffer.Keys
  {
    forall payment ensures StateOf(p, payment).last == StateOf(r, payment).last {
      SameLast(p, r, opening, x, y, slots, amount, payment);
    }
    forall slot ensures slot in p.buffer <==> slot in r.buffer {
      assert slot == (slot.0, slot.1);
      assert (slot.0, slot.1) in p.buffer <==> slot.1 > StateOf(p, slot.0).last && (slot.0, slot.1) in slots;
    }
  }

  lemma SameBalance(p: Processor, r: Processor, opening: seq<Entry>, refused: set<string>, slots: set<Slot>, amount: string -> nat)
    requires DeterminedBy(p, opening, refused, slots, amount) && DeterminedBy(r, opening, refused, slots, amount)
    requires forall payment :: StateOf(p, payment).last == StateOf(r, payment).last
    ensures |p.entries| == |r.entries| && Balance(p.entries) == Balance(r.entries)
  {
    SettledIds(p, opening, refused, slots, amount);
    SettledIds(r, opening, refused, slots, amount);
    SameIdsSameSum(Paid(p.entries)[|opening|..], Paid(r.entries)[|opening|..], amount);
    BalanceOfSettlements(opening, p.entries, amount);
    BalanceOfSettlements(opening, r.entries, amount);
  }
}
