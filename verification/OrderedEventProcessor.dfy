/** The re-ordering processor as a mutable object in front of a ledger. */
module OrderingObjects {
  import opened Wrappers
  import opened Ledgers
  import O = Ordering

  class OrderedEventProcessor {
    const ledger: Ledger
    var states: map<string, O.PaymentState>
    var buffer: map<O.Slot, O.PaymentEvent>
    var processedIds: set<string>
    var results: seq<O.Result>
    var received: nat
    var outOfOrder: nat
    var buffered: nat
    var created: nat

    function Model(): O.Processor
      reads this, ledger
    {
      O.Processor(ledger.entries, states, buffer, processedIds, results, received, outOfOrder, buffered, created)
    }

    constructor (ledger: Ledger)
      ensures this.ledger == ledger && Model() == O.Create(ledger.entries)
    {
      this.ledger := ledger;
      states, buffer, processedIds, results := map[], map[], {}, [];
      received, outOfOrder, buffered, created := 0, 0, 0, 0;
    }

    method Note(e: O.PaymentEvent, d: O.Decision, expected: nat)
      modifies this
      ensures Model() == O.Noted(old(Model()), e, d, expected)
    {
      results := results + [O.Result(e, d, expected)];
    }

    /** Apply one event; true if the ledger raised. */
    method Apply(e: O.PaymentEvent) returns (raised: bool)
      requires ledger.Valid()
      modifies this, ledger
      ensures ledger.Valid()
      ensures raised <==> O.Apply(old(Model()), e).Raised?
      ensures Model() == O.Apply(old(Model()), e).after
    {
      var st := O.StateOf(Model(), e.payment);
      var expected := st.last + 1;
      if st.cents.Some? && st.cents.value != e.cents {
        Note(e, O.Rejected, expected);
        return false;
      }
      states := states[e.payment := O.PaymentState(e.sequence, e.revision, Some(e.cents))];
      processedIds := processedIds + {e.id};
      if e.sequence == O.COMPLETED {
        var error := ledger.Append(O.SettlementOf(ledger.entries, e));
        if error.Some? {
          return true;
        }
        created := created + 1;
      }
      Note(e, O.Processed, expected);
      raised := false;
    }

    /** Apply buffered events as long as the next one is there. */
    method Drain(payment: string) returns (raised: bool)
      requires ledger.Valid()
      modifies this, ledger
      ensures ledger.Valid()
      ensures raised <==> O.Drain(old(Model()), payment).Raised?
      ensures Model() == O.Drain(old(Model()), payment).after
    {
      raised := false;
      while (payment, O.StateOf(Model(), payment).last + 1) in buffer
        invariant ledger.Valid()
        invariant O.Drain(Model(), payment) == O.Drain(old(Model()), payment)
        decreases |buffer|
      {
        var slot := (payment, O.StateOf(Model(), payment).last + 1);
        var e := buffer[slot];
        O.SmallerWithout(buffer, slot);
        ghost var before := Model();
        buffer := O.Without(buffer, slot);
        raised := Apply(e);
        if raised {
          return;
        }
      }
    }

    method ApplyAndDrain(e: O.PaymentEvent) returns (raised: bool)
      requires ledger.Valid()
      modifies this, ledger
      ensures ledger.Valid()
      ensures raised <==> O.ApplyAndDrain(old(Model()), e).Raised?
      ensures Model() == O.ApplyAndDrain(old(Model()), e).after
    {
      raised := Apply(e);
      if !raised {
        raised := Drain(e.payment);
      }
    }

    /** Keep an early event for later. */
    method Hold(e: O.PaymentEvent)
      modifies this
      ensures Model() == O.Hold(old(Model()), e)
    {
      buffer := buffer[(e.payment, e.sequence) := e];
      outOfOrder := outOfOrder + 1;
      buffered := buffered + 1;
    }

    /** Receive one delivery; true if the ledger raised. */
    method Receive(e: O.PaymentEvent) returns (raised: bool)
      requires ledger.Valid()
      modifies this, ledger
      ensures ledger.Valid()
      ensures raised <==> O.Receive(old(Model()), e).Raised?
      ensures Model() == O.Receive(old(Model()), e).after
    {
      received := received + 1;
      var st := O.StateOf(Model(), e.payment);
      states := states[e.payment := st];
      var expected := st.last + 1;
      raised := false;
      if e.id in processedIds {
        Note(e, O.Duplicate, expected);
      } else if e.sequence <= st.last || e.revision <= st.revision {
        Note(e, O.Stale, expected);
      } else if e.sequence > expected {
        if (e.payment, e.sequence) in buffer {
          Note(e, O.Rejected, expected);
        } else {
          Hold(e);
          Note(e, O.Buffered, expected);
        }
      } else {
        raised := ApplyAndDrain(e);
      }
    }
  }
}
