/** The store and the processor as mutable objects, and the protected run of a script. */
module IdempotencyObjects {
  import opened Ledgers
  import opened Duplicates
  import I = Idempotency
  import T = IdempotencyTheorems

  class IdempotencyStore {
    var keys: seq<string>
    var records: map<string, I.Record>

    constructor ()
      ensures keys == [] && records == map[]
    {
      keys, records := [], map[];
    }

    /** Remember a newly completed operation; an operation already known is refused. */
    method Remember(record: I.Record) returns (accepted: bool)
      modifies this
      ensures accepted <==> record.key !in old(records)
      ensures keys == if accepted then old(keys) + [record.key] else old(keys)
      ensures records == if accepted then old(records)[record.key := record] else old(records)
    {
      accepted := record.key !in records;
      if accepted {
        keys, records := keys + [record.key], records[record.key := record];
      }
    }

    method CountDuplicate(key: string)
      requires key in records
      modifies this`records
      ensures records == old(records)[key := old(records)[key].(duplicates := old(records)[key].duplicates + 1)]
    {
      var record := records[key];
      records := records[key := record.(duplicates := record.duplicates + 1)];
    }
  }

  class IdempotentPaymentProcessor {
    const ledger: Ledger
    const store: IdempotencyStore
    var acks: seq<I.Acknowledgement>
    var created: nat

    function Model(): I.Processor
      reads this, ledger, store
    {
      I.Processor(ledger.entries, store.keys, store.records, acks, created)
    }

    constructor (ledger: Ledger, store: IdempotencyStore)
      ensures this.ledger == ledger && this.store == store
      ensures Model() == I.Processor(ledger.entries, store.keys, store.records, [], 0)
    {
      this.ledger, this.store := ledger, store;
      acks, created := [], 0;
    }

    method Acknowledge(d: Delivery, key: string, result: I.PaymentResult, duplicate: bool)
      modifies this`acks
      ensures acks == old(acks) + [I.Acknowledgement(d, key, result, duplicate)]
    {
      acks := acks + [I.Acknowledgement(d, key, result, duplicate)];
    }

    /** Return the stored result, or apply and remember one new debit; false if the call raised. */
    method Process(d: Delivery, key: string) returns (acknowledged: bool)
      requires ledger.Valid()
      modifies this, ledger, store
      ensures ledger.Valid()
      ensures acknowledged <==> I.Process(old(Model()), d, key).Acknowledged?
      ensures Model() == I.After(old(Model()), I.Process(old(Model()), d, key))
    {
      if key in store.records {
        var result := store.records[key].result;
        if result.request != d.request || result.cents != d.cents {
          return false;
        }
        store.CountDuplicate(key);
        Acknowledge(d, key, result, true);
        return true;
      }
      var error := ledger.Append(DebitFor(d, PaymentDebit(d.request), |ledger.entries| + 1));
      if error.Some? {
        return false;
      }
      var result := I.ResultFor(d);
      var accepted := store.Remember(I.Record(key, d.request, d.arrivedAt + 1, result, 0));
      created := created + 1;
      Acknowledge(d, key, result, false);
      acknowledged := true;
    }
  }

  /** Run a delivery script through the protection, up to the first call that raises; an opening balance must be positive. */
  method ProcessIdempotently(ds: seq<Delivery>, initial: int) returns (p: IdempotentPaymentProcessor?, finished: bool)
    ensures finished <==> initial > 0 && T.Protected(initial, ds).Acknowledged?
    ensures finished ==> p != null && p.Model() == T.Protected(initial, ds).after
  {
    if initial <= 0 {
      return null, false;
    }
    var ledger := new Ledger();
    var error := ledger.Append(OpeningEntry(initial));
    var store := new IdempotencyStore();
    p := new IdempotentPaymentProcessor(ledger, store);
    var i := 0;
    while i < |ds|
      invariant 0 <= i <= |ds| && p != null && fresh(p) && fresh(p.ledger) && fresh(p.store) && p.ledger.Valid()
      invariant T.Protected(initial, ds[..i]) == I.Acknowledged(p.Model())
    {
      assert ds[..i + 1][..i] == ds[..i];
      finished := p.Process(ds[i], T.KeyFor(ds[i]));
      if !finished {
        Stays(initial, ds, i);
        return;
      }
      i := i + 1;
    }
    assert ds[..i] == ds;
    finished := true;
  }

  /** A run that has raised stays raised. */
  lemma {:induction false} Stays(initial: nat, ds: seq<Delivery>, i: nat)
    requires i < |ds| && !T.Protected(initial, ds[..i + 1]).Acknowledged?
    ensures !T.Protected(initial, ds).Acknowledged?
    decreases |ds|
  {
    if i + 1 < |ds| {
      var init := ds[..|ds| - 1];
      assert init[..i + 1] == ds[..i + 1];
      Stays(initial, init, i);
    } else {
      assert ds[..i + 1] == ds;
    }
  }
}
