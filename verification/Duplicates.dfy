/** Scripted deliveries and the naive run that debits every one of them. */
module Duplicates {
  import opened Wrappers
  import opened Ledgers

  const ACCOUNT := "HCCU-DEMO-001"

  datatype Delivery = Delivery(request: string, cents: nat, number: nat, arrivedAt: nat, order: nat)

  datatype Attempt = Attempt(delivery: Delivery, processedAt: nat, entryId: EntryId)

  datatype Statistics = Statistics(
    received: nat, unique: nat, duplicates: nat, operations: nat, duplicateOperations: nat, percentageHundredths: nat)

  datatype NaiveRun =
    | Completed(entries: seq<Entry>, attempts: seq<Attempt>, statistics: Statistics)
    | Raised(error: Error)
    | Unopened

  /** What the delivery script insists on. */
  ghost predicate ValidSequence(ds: seq<Delivery>) {
    && (forall i :: 0 <= i < |ds| ==> ds[i].order == i + 1)
    && InTime(ds)
  }

  ghost predicate InTime(ds: seq<Delivery>) {
    forall i, j :: 0 <= i < j < |ds| ==> ds[i].arrivedAt <= ds[j].arrivedAt
  }

  /** No two deliveries of one request carry the same number. */
  ghost predicate DistinctNumbers(ds: seq<Delivery>) {
    forall i, j :: 0 <= i < j < |ds| ==> ds[i].request != ds[j].request || ds[i].number != ds[j].number
  }

  function OpeningEntry(cents: nat): Entry {
    Entry(Opening, ACCOUNT, cents, Credit, 1, 0)
  }

  function DebitFor(d: Delivery, id: EntryId, sequence: nat): Entry {
    Entry(id, ACCOUNT, d.cents, Debit, sequence, d.arrivedAt + 1)
  }

  /** The opening credit and then one debit for each delivery, under the identifiers `name` gives them. */
  function Debited(initial: nat, ds: seq<Delivery>, name: Delivery -> EntryId): (r: seq<Entry>)
    ensures |r| == |ds| + 1 && r[0] == OpeningEntry(initial)
    ensures forall i :: 0 <= i < |ds| ==> r[i + 1] == DebitFor(ds[i], name(ds[i]), i + 2)
  {
    if ds == [] then [OpeningEntry(initial)]
    else
      var last := ds[|ds| - 1];
      Debited(initial, ds[..|ds| - 1], name) + [DebitFor(last, name(last), |ds| + 1)]
  }

  function Numbered(d: Delivery): EntryId {
    DeliveryDebit(d.request, d.number)
  }

  function Cents(ds: seq<Delivery>): nat {
    if ds == [] then 0 else Cents(ds[..|ds| - 1]) + ds[|ds| - 1].cents
  }

  lemma {:induction false} DebitedBalance(initial: nat, ds: seq<Delivery>, name: Delivery -> EntryId)
    ensures Balance(Debited(initial, ds, name)) == initial - Cents(ds)
    decreases |ds|
  {
    if ds == [] {
      BalanceAppend([], OpeningEntry(initial));
      assert [] + [OpeningEntry(initial)] == [OpeningEntry(initial)];
    } else {
      var init, last := ds[..|ds| - 1], ds[|ds| - 1];
      DebitedBalance(initial, init, name);
      BalanceAppend(Debited(initial, init, name), DebitFor(last, name(last), |ds| + 1));
    }
  }

  /** A further debit is accepted exactly when its identifier is new, as long as time has not moved backward. */
  lemma DebitAccepted(initial: nat, ds: seq<Delivery>, name: Delivery -> EntryId, d: Delivery)
    requires name(d) != Opening
    requires forall i :: 0 <= i < |ds| ==> ds[i].arrivedAt <= d.arrivedAt
    ensures Objection(Debited(initial, ds, name), DebitFor(d, name(d), |ds| + 2)) ==
            if exists i :: 0 <= i < |ds| && name(ds[i]) == name(d) then Some(DuplicateId) else None
  {
    var entries := Debited(initial, ds, name);
    if i :| 0 <= i < |ds| && name(ds[i]) == name(d) {
      assert entries[i + 1].id == name(d);
    } else {
      forall k | 0 <= k < |entries| ensures entries[k].id != name(d) {
        if k > 0 {
          assert entries[k] == DebitFor(ds[k - 1], name(ds[k - 1]), k + 1);
        }
      }
    }
    if ds != [] {
      assert entries[|ds|] == DebitFor(ds[|ds| - 1], name(ds[|ds| - 1]), |ds| + 1);
    }
  }

  // ----- The naive run -----

  function Requests(ds: seq<Delivery>): set<string> {
    set i | 0 <= i < |ds| :: ds[i].request
  }

  ghost predicate Attempted(attempts: seq<Attempt>, ds: seq<Delivery>) {
    && |attempts| == |ds|
    && forall i :: 0 <= i < |ds| ==> attempts[i] == Attempt(ds[i], ds[i].arrivedAt + 1, Numbered(ds[i]))
  }

  function Measured(ds: seq<Delivery>): Statistics
    requires |Requests(ds)| <= |ds|
  {
    var n, unique := |ds|, |Requests(ds)|;
    Statistics(n, unique, n - unique, n, n - unique, if n == 0 then 0 else (n - unique) * 10000 / n)
  }

  lemma {:induction false} RequestsBounded(ds: seq<Delivery>)
    ensures |Requests(ds)| <= |ds|
    decreases |ds|
  {
    if ds != [] {
      var init, last := ds[..|ds| - 1], ds[|ds| - 1];
      RequestsBounded(init);
      assert Requests(ds) == Requests(init) + {last.request};
    }
  }

  lemma NumberedIsInjective(d: Delivery, e: Delivery)
    ensures Numbered(d) == Numbered(e) <==> d.request == e.request && d.number == e.number
  {
  }

  lemma NumbersAppend(ds: seq<Delivery>, i: nat)
    requires i < |ds|
    ensures DistinctNumbers(ds[..i + 1]) <==>
            DistinctNumbers(ds[..i]) && !exists j :: 0 <= j < i && Numbered(ds[..i][j]) == Numbered(ds[i])
    ensures !DistinctNumbers(ds[..i + 1]) ==> !DistinctNumbers(ds)
  {
    forall j | 0 <= j < i
      ensures Numbered(ds[..i][j]) == Numbered(ds[i]) <==> ds[j].request == ds[i].request && ds[j].number == ds[i].number
    {
      NumberedIsInjective(ds[j], ds[i]);
    }
    assert forall j :: 0 <= j < i ==> ds[..i][j] == ds[j] == ds[..i + 1][j];
    assert ds[..i + 1][i] == ds[i];
  }

  /** The next delivery is debited exactly when it repeats no delivery number. */
  lemma DebitNext(initial: nat, ds: seq<Delivery>, i: nat)
    requires i < |ds| && InTime(ds) && DistinctNumbers(ds[..i])
    ensures var debit := DebitFor(ds[i], Numbered(ds[i]), |Debited(initial, ds[..i], Numbered)| + 1);
            && Debited(initial, ds[..i + 1], Numbered) == Debited(initial, ds[..i], Numbered) + [debit]
            && Objection(Debited(initial, ds[..i], Numbered), debit) ==
               if DistinctNumbers(ds[..i + 1]) then None else Some(DuplicateId)
    ensures !DistinctNumbers(ds[..i + 1]) ==> !DistinctNumbers(ds)
  {
    DebitAccepted(initial, ds[..i], Numbered, ds[i]);
    NumbersAppend(ds, i);
    assert ds[..i + 1][..i] == ds[..i];
  }

  lemma AttemptNext(attempts: seq<Attempt>, ds: seq<Delivery>, i: nat)
    requires i < |ds| && Attempted(attempts, ds[..i])
    ensures Attempted(attempts + [Attempt(ds[i], ds[i].arrivedAt + 1, Numbered(ds[i]))], ds[..i + 1])
  {
  }

  /** Debit the deliveries one after the other, up to the first that the ledger refuses. */
  method DebitEach(ledger: Ledger, ds: seq<Delivery>, ghost initial: nat) returns (error: Option<Error>, attempts: seq<Attempt>)
    requires InTime(ds) && ledger.Valid() && ledger.entries == [OpeningEntry(initial)]
    modifies ledger
    ensures error == if DistinctNumbers(ds) then None else Some(DuplicateId)
    ensures error.None? ==> ledger.Valid() && ledger.entries == Debited(initial, ds, Numbered) && Attempted(attempts, ds)
  {
    attempts := [];
    var i := 0;
    assert ds[..0] == [];
    while i < |ds|
      invariant 0 <= i <= |ds|
      invariant ledger.Valid() && ledger.entries == Debited(initial, ds[..i], Numbered)
      invariant DistinctNumbers(ds[..i]) && Attempted(attempts, ds[..i])
    {
      var d := ds[i];
      DebitNext(initial, ds, i);
      error := ledger.Append(DebitFor(d, Numbered(d), |ledger.entries| + 1));
      if error.Some? {
        return;
      }
      AttemptNext(attempts, ds, i);
      attempts := attempts + [Attempt(d, d.arrivedAt + 1, Numbered(d))];
      i := i + 1;
    }
    assert ds[..i] == ds;
    error := None;
  }

  /**
   Debit every delivery; the run raises exactly when the opening balance is not
   positive or a request repeats a delivery number.
   */
  method ProcessNaively(ds: seq<Delivery>, initial: int) returns (run: NaiveRun)
    requires ValidSequence(ds)
    ensures run.Unopened? <==> initial <= 0
    ensures run.Completed? <==> initial > 0 && DistinctNumbers(ds)
    ensures run.Raised? ==> run.error == DuplicateId
    ensures run.Completed? ==>
              && run.entries == Debited(initial, ds, Numbered) && Sound(run.entries)
              && Attempted(run.attempts, ds)
              && |Requests(ds)| <= |ds| && run.statistics == Measured(ds)
  {
    if initial <= 0 {
      return Unopened;
    }
    var ledger := new Ledger();
    var error := ledger.Append(OpeningEntry(initial));
    var attempts;
    error, attempts := DebitEach(ledger, ds, initial);
    if error.Some? {
      return Raised(error.value);
    }
    RequestsBounded(ds);
    run := Completed(ledger.entries, attempts, Measured(ds));
  }
}
