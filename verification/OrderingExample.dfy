/** Two streams that meet every assumption on identifiers and amounts and are refused all the same. */
module OrderingExample {
  import opened Ledgers
  import opened Ordering
  import opened OrderingInvariant
  import opened OrderingSequence
  import opened OrderingRefusals
  import opened OrderingTheorems

  lemma {:induction false} RunHasAll(buffer: map<Slot, PaymentEvent>, payment: string, next: nat, cents: nat, k: nat)
    requires EndOfRun(buffer, payment, next, cents).Some? && next <= k <= COMPLETED
    ensures (payment, k) in buffer
    decreases k - next
  {
    if next < k {
      RunHasAll(buffer, payment, next + 1, cents, k);
    }
  }

  /** As long as a later step is missing, nothing is brought to the ledger, so nothing is refused. */
  lemma MissingStepMeansAccepted(opening: seq<Entry>, events: seq<PaymentEvent>, e: PaymentEvent, k: nat,
                                 owner: string -> Slot, amount: string -> nat)
    requires Sound(opening) && Consistent(events + [e], owner, amount)
    requires e.sequence < k <= COMPLETED && (e.payment, k) !in Slots(events)
    ensures Exec(opening, events + [e]).refused == Exec(opening, events).refused
  {
    assert (events + [e])[..|events|] == events;
    ConsistentParts(events + [e], owner, amount);
    DeliveriesDetermineState(opening, events, owner, amount);
    NotBuffered(Exec(opening, events).p, opening, Exec(opening, events).refused, Slots(events), amount, e.payment, k);
    NothingBrought(Exec(opening, events).p, e, k);
    RefusedExactlyWhen(opening, events, e);
  }

  lemma NotBuffered(p: Processor, opening: seq<Entry>, refused: set<string>, slots: set<Slot>, amount: string -> nat,
                    payment: string, k: nat)
    requires DeterminedBy(p, opening, refused, slots, amount) && (payment, k) !in slots
    ensures (payment, k) !in p.buffer
  {
    assert (payment, StateOf(p, payment).last + 1) !in slots;
  }

  lemma NothingBrought(p: Processor, e: PaymentEvent, k: nat)
    requires e.sequence < k <= COMPLETED && (e.payment, k) !in p.buffer
    ensures !WillBeRefused(p, e)
  {
    if Brings(p, e).Some? {
      RunHasAll(p.buffer, e.payment, e.sequence + 1, e.cents, k);
    }
  }

  /** The next missing step, seen from the state that the delivered pairs determine. */
  lemma NextStep(p: Processor, e: PaymentEvent, opening: seq<Entry>, refused: set<string>, slots: set<Slot>,
                 owner: string -> Slot, amount: string -> nat)
    requires DeterminedBy(p, opening, refused, slots, amount) && Tidy(p, owner, amount) && Fits(e, owner, amount)
    requires e.sequence > 0 && (e.payment, e.sequence) !in slots
    requires forall k: nat :: 1 <= k < e.sequence ==> (e.payment, k) in slots
    ensures e.id !in p.processedIds && e.sequence == StateOf(p, e.payment).last + 1 && !Conflicts(p, e)
  {
    var last := StateOf(p, e.payment).last;
    assert (e.payment, last + 1) !in slots;
    assert last >= e.sequence ==> (e.payment, e.sequence) in slots;
  }

  /** The last missing step of a payment whose completion is buffered from before the last posting. */
  lemma LateStepIsRefused(opening: seq<Entry>, events: seq<PaymentEvent>, e: PaymentEvent,
                          owner: string -> Slot, amount: string -> nat)
    requires Sound(opening) && opening != [] && Consistent(events + [e], owner, amount)
    requires e.sequence == 3 && (e.payment, 1) in Slots(events) && (e.payment, 2) in Slots(events)
    requires (e.payment, 3) !in Slots(events) && (e.payment, 4) in Slots(events)
    requires forall x :: x in events && x.sequence == 4 ==> x.arrival < LastPosted(opening)
    ensures e.payment in Exec(opening, events + [e]).refused
  {
    var run := Exec(opening, events);
    assert (events + [e])[..|events|] == events;
    ConsistentParts(events + [e], owner, amount);
    DeliveriesDetermineState(opening, events, owner, amount);
    ExecGains(opening, events, owner, amount);
    ExecFromStream(opening, events);
    LateStep(run.p, e, opening, run.refused, events, owner, amount);
    RefusedExactlyWhen(opening, events, e);
  }

  lemma LateStep(p: Processor, e: PaymentEvent, opening: seq<Entry>, refused: set<string>, events: seq<PaymentEvent>,
                 owner: string -> Slot, amount: string -> nat)
    requires DeterminedBy(p, opening, refused, Slots(events), amount) && Tidy(p, owner, amount) && FromStream(p, events)
    requires opening != [] && Fits(e, owner, amount)
    requires e.sequence == 3 && (e.payment, 1) in Slots(events) && (e.payment, 2) in Slots(events)
    requires (e.payment, 3) !in Slots(events) && (e.payment, 4) in Slots(events)
    requires forall x :: x in events && x.sequence == 4 ==> x.arrival < LastPosted(opening)
    ensures WillBeRefused(p, e)
  {
    NextStep(p, e, opening, refused, Slots(events), owner, amount);
    assert (e.payment, 4) in p.buffer;
    BufferedIsBrought(p, e, events, owner, amount);
    PostedAfterOpening(p.entries, opening);
  }

  lemma BufferedIsBrought(p: Processor, e: PaymentEvent, events: seq<PaymentEvent>, owner: string -> Slot, amount: string -> nat)
    requires Tidy(p, owner, amount) && Fits(e, owner, amount) && FromStream(p, events)
    requires e.sequence == 3 && (e.payment, 4) in p.buffer
    ensures Brings(p, e).Some? && Brings(p, e).value in events && Brings(p, e).value.sequence == 4
  {
    assert EndOfRun(p.buffer, e.payment, 4, e.cents).Some?;
  }

  lemma PostedAfterOpening(entries: seq<Entry>, opening: seq<Entry>)
    requires Sound(entries) && opening <= entries && opening != []
    ensures LastPosted(entries) >= LastPosted(opening)
  {
    assert entries[|opening| - 1] == opening[|opening| - 1];
  }

  /** The last step of a payment that the ledger has settled before. */
  lemma SettledStepIsRefused(opening: seq<Entry>, events: seq<PaymentEvent>, e: PaymentEvent,
                             owner: string -> Slot, amount: string -> nat)
    requires Sound(opening) && Settlement(e.payment) in Ids(opening) && Consistent(events + [e], owner, amount)
    requires e.sequence == 4 && (e.payment, 4) !in Slots(events)
    requires forall k: nat :: 1 <= k < 4 ==> (e.payment, k) in Slots(events)
    ensures e.payment in Exec(opening, events + [e]).refused
  {
    var run := Exec(opening, events);
    assert (events + [e])[..|events|] == events;
    ConsistentParts(events + [e], owner, amount);
    DeliveriesDetermineState(opening, events, owner, amount);
    ExecGains(opening, events, owner, amount);
    SettledStep(run.p, e, opening, run.refused, Slots(events), owner, amount);
    RefusedExactlyWhen(opening, events, e);
  }

  lemma SettledStep(p: Processor, e: PaymentEvent, opening: seq<Entry>, refused: set<string>, slots: set<Slot>,
                    owner: string -> Slot, amount: string -> nat)
    requires DeterminedBy(p, opening, refused, slots, amount) && Tidy(p, owner, amount) && Fits(e, owner, amount)
    requires Settlement(e.payment) in Ids(opening) && e.sequence == 4 && (e.payment, 4) !in slots
    requires forall k: nat :: 1 <= k < 4 ==> (e.payment, k) in slots
    ensures WillBeRefused(p, e)
  {
    NextStep(p, e, opening, refused, slots, owner, amount);
    assert SettledExactly(p, opening, refused, e.payment);
  }

  lemma Parts(a: PaymentEvent, b: PaymentEvent, c: PaymentEvent, d: PaymentEvent, owner: string -> Slot, amount: string -> nat)
    requires Consistent([a, b, c, d], owner, amount)
    ensures [] + [a] == [a] && [a] + [b] == [a, b] && [a, b] + [c] == [a, b, c] && [a, b, c] + [d] == [a, b, c, d]
    ensures Consistent([a], owner, amount) && Consistent([a, b], owner, amount) && Consistent([a, b, c], owner, amount)
  {
    var all := [a, b, c, d];
    assert all[0] == a && all[1] == b && all[2] == c && all[3] == d;
  }

  lemma SlotsOfThree(a: PaymentEvent, b: PaymentEvent, c: PaymentEvent)
    ensures Slots([]) == {} && Slots([a]) == {(a.payment, a.sequence)}
    ensures Slots([a, b]) == {(a.payment, a.sequence), (b.payment, b.sequence)}
    ensures Slots([a, b, c]) == {(a.payment, a.sequence), (b.payment, b.sequence), (c.payment, c.sequence)}
  {
    SlotsAppend([], a);
    SlotsAppend([a], b);
    SlotsAppend([a, b], c);
    assert [] + [a] == [a] && [a] + [b] == [a, b] && [a, b] + [c] == [a, b, c];
  }

  /** Delivered as 4, 1, 2, 3, with the completion older than what the ledger already holds. */
  lemma CompletionFirstIsRefused(opening: seq<Entry>, a4: PaymentEvent, a1: PaymentEvent, a2: PaymentEvent, a3: PaymentEvent,
                                 owner: string -> Slot, amount: string -> nat)
    requires Sound(opening) && opening != [] && Consistent([a4, a1, a2, a3], owner, amount)
    requires a4.sequence == 4 && a1.sequence == 1 && a2.sequence == 2 && a3.sequence == 3
    requires a4.payment == a1.payment == a2.payment == a3.payment
    requires a4.arrival < LastPosted(opening)
    ensures a3.payment in Exec(opening, [a4, a1, a2, a3]).refused
  {
    Parts(a4, a1, a2, a3, owner, amount);
    SlotsOfThree(a4, a1, a2);
    LateStepIsRefused(opening, [a4, a1, a2], a3, owner, amount);
  }

  /** Delivered in order, for a payment that the ledger has settled before. */
  lemma SettledAgainIsRefused(opening: seq<Entry>, a1: PaymentEvent, a2: PaymentEvent, a3: PaymentEvent, a4: PaymentEvent,
                              owner: string -> Slot, amount: string -> nat)
    requires Sound(opening) && Settlement(a4.payment) in Ids(opening) && Consistent([a1, a2, a3, a4], owner, amount)
    requires a4.sequence == 4 && a1.sequence == 1 && a2.sequence == 2 && a3.sequence == 3
    requires a4.payment == a1.payment == a2.payment == a3.payment
    ensures a4.payment in Exec(opening, [a1, a2, a3, a4]).refused
    ensures Exec(opening, [a1, a2, a3]).refused == {}
  {
    Parts(a1, a2, a3, a4, owner, amount);
    SlotsOfThree(a1, a2, a3);
    assert Exec(opening, []).refused == {};
    MissingStepMeansAccepted(opening, [], a1, 2, owner, amount);
    MissingStepMeansAccepted(opening, [a1], a2, 3, owner, amount);
    MissingStepMeansAccepted(opening, [a1, a2], a3, 4, owner, amount);
    SettledStepIsRefused(opening, [a1, a2, a3], a4, owner, amount);
  }

  function Step(sequence: nat, id: string, arrival: nat): PaymentEvent {
    PaymentEvent("PAY-A", id, sequence, sequence, arrival, 10000)
  }

  /** Which step each of the four identifiers names. */
  function Owner(id: string): Slot {
    ("PAY-A", if id == "A1" then 1 else if id == "A2" then 2 else if id == "A3" then 3 else 4)
  }

  function LedgerWith(second: Entry): seq<Entry> {
    [Entry(Opening, ACCOUNT, 100000, Credit, 1, 0), second]
  }

  /**
   The completion of PAY-A arrives first and waits; something else is posted at
   time 5; when the last missing step arrives, the completion is too old and
   the ledger refuses it, although the ordering state has already advanced.
   */
  lemma RefusalExample()
    ensures var opening := LedgerWith(Entry(PaymentDebit("PAY-B"), ACCOUNT, 5000, Debit, 2, 5));
            var events := [Step(4, "A4", 1), Step(1, "A1", 6), Step(2, "A2", 7), Step(3, "A3", 8)];
            Sound(opening) && ValidStream(events) && Exec(opening, events).refused == {"PAY-A"}
  {
    var opening := LedgerWith(Entry(PaymentDebit("PAY-B"), ACCOUNT, 5000, Debit, 2, 5));
    SoundWith(Entry(PaymentDebit("PAY-B"), ACCOUNT, 5000, Debit, 2, 5));
    ConsistentSteps(6, 7, 8, 1);
    CompletionFirstIsRefused(opening, Step(4, "A4", 1), Step(1, "A1", 6), Step(2, "A2", 7), Step(3, "A3", 8), Owner, _ => 10000);
    OnlyDelivered(opening, [Step(4, "A4", 1), Step(1, "A1", 6), Step(2, "A2", 7), Step(3, "A3", 8)], "PAY-A");
  }

  lemma SoundWith(second: Entry)
    requires second.sequence == 2 && second.id != Opening
    ensures Sound(LedgerWith(second)) && second.id in Ids(LedgerWith(second)) && LedgerWith(second) != []
    ensures LastPosted(LedgerWith(second)) == second.postedAt
  {
    assert LedgerWith(second)[1].id == second.id;
  }

  lemma ConsistentSteps(a: nat, b: nat, c: nat, d: nat)
    requires a >= 1 && b >= 1 && c >= 1 && d >= 1
    ensures Consistent([Step(1, "A1", a), Step(2, "A2", b), Step(3, "A3", c), Step(4, "A4", d)], Owner, _ => 10000)
    ensures Consistent([Step(4, "A4", d), Step(1, "A1", a), Step(2, "A2", b), Step(3, "A3", c)], Owner, _ => 10000)
  {
  }

  /**
   The ledger holds a settlement of PAY-A from before, as when a second
   processor is put in front of it: the four events come in order and on time,
   and the last is refused.
   */
  lemma SettledBeforeExample()
    ensures var opening := LedgerWith(Entry(Settlement("PAY-A"), ACCOUNT, 10000, Debit, 2, 0));
            var events := [Step(1, "A1", 1), Step(2, "A2", 2), Step(3, "A3", 3), Step(4, "A4", 4)];
            && Sound(opening) && ValidStream(events) && Exec(opening, events[..3]).refused == {}
            && Exec(opening, events).refused == {"PAY-A"}
  {
    var opening := LedgerWith(Entry(Settlement("PAY-A"), ACCOUNT, 10000, Debit, 2, 0));
    var events := [Step(1, "A1", 1), Step(2, "A2", 2), Step(3, "A3", 3), Step(4, "A4", 4)];
    SoundWith(Entry(Settlement("PAY-A"), ACCOUNT, 10000, Debit, 2, 0));
    ConsistentSteps(1, 2, 3, 4);
    assert events[..3] == [Step(1, "A1", 1), Step(2, "A2", 2), Step(3, "A3", 3)];
    SettledAgainIsRefused(opening, Step(1, "A1", 1), Step(2, "A2", 2), Step(3, "A3", 3), Step(4, "A4", 4), Owner, _ => 10000);
    OnlyDelivered(opening, events, "PAY-A");
  }

  lemma {:induction false} OnlyDelivered(opening: seq<Entry>, events: seq<PaymentEvent>, payment: string)
    requires forall i :: 0 <= i < |events| ==> events[i].payment == payment
    ensures Exec(opening, events).refused <= {payment}
    decreases |events|
  {
    if events != [] {
      OnlyDelivered(opening, events[..|events| - 1], payment);
    }
  }
}
