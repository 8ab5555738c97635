/**
 The event re-ordering buffer as values: what one delivery does to the
 processor.  The per-payment buffers are one map from (payment, sequence).
 */
module Ordering {
  import opened Wrappers
  import opened Ledgers

  /** The event type is determined by the sequence: received, validated, queued, completed. */
  datatype PaymentEvent = PaymentEvent(payment: string, id: string, sequence: nat, revision: nat, arrival: nat, cents: nat)

  const COMPLETED := 4

  const ACCOUNT := "HCCU-DEMO-001"

  predicate ValidEvent(e: PaymentEvent) {
    1 <= e.sequence <= COMPLETED && e.revision == e.sequence && e.arrival >= 1 && e.cents > 0
  }

  datatype Decision = Processed | Buffered | Stale | Duplicate | Rejected

  datatype Result = Result(event: PaymentEvent, decision: Decision, expected: nat)

  datatype PaymentState = PaymentState(last: nat, revision: nat, cents: Option<nat>)

  type Slot = (string, nat)

  datatype Processor = Processor(
    entries: seq<Entry>,
    states: map<string, PaymentState>,
    buffer: map<Slot, PaymentEvent>,
    processedIds: set<string>,
    results: seq<Result>,
    received: nat,
    outOfOrder: nat,
    buffered: nat,
    created: nat)

  /** A delivery either returns or raises because the ledger refused the settlement. */
  datatype Outcome = Returned(after: Processor) | Raised(after: Processor)

  const FRESH := PaymentState(0, 0, None)

  function Create(entries: seq<Entry>): Processor {
    Processor(entries, map[], map[], {}, [], 0, 0, 0, 0)
  }

  function StateOf(p: Processor, payment: string): PaymentState {
    if payment in p.states then p.states[payment] else FRESH
  }

  function Noted(p: Processor, e: PaymentEvent, d: Decision, expected: nat): Processor {
    p.(results := p.results + [Result(e, d, expected)])
  }

  function SettlementOf(entries: seq<Entry>, e: PaymentEvent): Entry {
    Entry(Settlement(e.payment), ACCOUNT, e.cents, Debit, |entries| + 1, e.arrival)
  }

  function Advanced(p: Processor, e: PaymentEvent): Processor {
    p.(states := p.states[e.payment := PaymentState(e.sequence, e.revision, Some(e.cents))],
       processedIds := p.processedIds + {e.id})
  }

  /** Another amount than the payment's first applied event. */
  predicate Conflicts(p: Processor, e: PaymentEvent) {
    StateOf(p, e.payment).cents.Some? && StateOf(p, e.payment).cents.value != e.cents
  }

  /** Apply one event; the ordering state has already advanced when the ledger refuses. */
  function Apply(p: Processor, e: PaymentEvent): Outcome {
    var st := StateOf(p, e.payment);
    var expected := st.last + 1;
    if Conflicts(p, e) then Returned(Noted(p, e, Rejected, expected))
    else
      var p1 := Advanced(p, e);
      if e.sequence != COMPLETED then Returned(Noted(p1, e, Processed, expected))
      else
        var entry := SettlementOf(p.entries, e);
        if Objection(p.entries, entry).Some? then Raised(p1)
        else Returned(Noted(p1.(entries := p.entries + [entry], created := p.created + 1), e, Processed, expected))
  }

  function Without(buffer: map<Slot, PaymentEvent>, slot: Slot): map<Slot, PaymentEvent> {
    buffer - {slot}
  }

  /** Apply buffered events as long as the next one is there. */
  function Drain(p: Processor, payment: string): Outcome
    decreases |p.buffer|
  {
    var slot := (payment, StateOf(p, payment).last + 1);
    if slot !in p.buffer then Returned(p)
    else
      var p1 := p.(buffer := Without(p.buffer, slot));
      match Apply(p1, p.buffer[slot])
      case Raised(p2) => Raised(p2)
      case Returned(p2) =>
        SmallerWithout(p.buffer, slot);
        Drain(p2, payment)
  }

  lemma SmallerWithout(buffer: map<Slot, PaymentEvent>, slot: Slot)
    requires slot in buffer
    ensures |Without(buffer, slot)| == |buffer| - 1
  {
    assert buffer.Keys == Without(buffer, slot).Keys + {slot};
  }

  /** A new delivery is under way; its payment now has a state. */
  function Arrived(p: Processor, e: PaymentEvent): Processor {
    p.(received := p.received + 1, states := p.states[e.payment := StateOf(p, e.payment)])
  }

  function Hold(p: Processor, e: PaymentEvent): Processor {
    p.(buffer := p.buffer[(e.payment, e.sequence) := e], outOfOrder := p.outOfOrder + 1, buffered := p.buffered + 1)
  }

  function ApplyAndDrain(p: Processor, e: PaymentEvent): Outcome {
    match Apply(p, e)
    case Raised(p2) => Raised(p2)
    case Returned(p2) => Drain(p2, e.payment)
  }

  /** One delivery. */
  function Receive(p: Processor, e: PaymentEvent): Outcome {
    var st := StateOf(p, e.payment);
    var expected := st.last + 1;
    var p1 := Arrived(p, e);
    if e.id in p.processedIds then Returned(Noted(p1, e, Duplicate, expected))
    else if e.sequence <= st.last || e.revision <= st.revision then Returned(Noted(p1, e, Stale, expected))
    else if e.sequence > expected then
      if (e.payment, e.sequence) in p.buffer then Returned(Noted(p1, e, Rejected, expected))
      else Returned(Noted(Hold(p1, e), e, Buffered, expected))
    else ApplyAndDrain(p1, e)
  }

  /** A stream of deliveries; the caller survives refusals, and `refused` remembers the payments concerned. */
  datatype Run = Run(p: Processor, refused: set<string>)

  function Exec(entries: seq<Entry>, events: seq<PaymentEvent>): Run
    decreases |events|
  {
    if events == [] then Run(Create(entries), {})
    else
      var before := Exec(entries, events[..|events| - 1]);
      match Receive(before.p, events[|events| - 1])
      case Returned(p) => before.(p := p)
      case Raised(p) => Run(p, before.refused + {events[|events| - 1].payment})
  }
}
