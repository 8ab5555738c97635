/** What the naive run of a delivery script posts and measures, in figures of the script. */
module DuplicateFigures {
  import opened Ledgers
  import opened Duplicates

  // ----- The ledger -----

  /** The opening credit at time 0, and then one debit of the one account for each delivery, a minute after it arrived. */
  ghost predicate EntriesAre(entries: seq<Entry>, initial: nat, ds: seq<Delivery>) {
    && |entries| == |ds| + 1
    && entries[0] == Entry(Opening, "HCCU-DEMO-001", initial, Credit, 1, 0)
    && forall i :: 0 <= i < |ds| ==>
         && entries[i + 1].id == DeliveryDebit(ds[i].request, ds[i].number)
         && entries[i + 1].account == "HCCU-DEMO-001" && entries[i + 1].cents == ds[i].cents
         && entries[i + 1].kind == Debit && entries[i + 1].sequence == i + 2
         && entries[i + 1].postedAt == ds[i].arrivedAt + 1
  }

  /** The naive run debits the one account with every delivery, and no other account. */
  lemma NaiveEntries(initial: nat, ds: seq<Delivery>)
    ensures EntriesAre(Debited(initial, ds, Numbered), initial, ds)
    ensures AccountBalance(Debited(initial, ds, Numbered), "HCCU-DEMO-001") == initial - Cents(ds)
    ensures forall account :: account != "HCCU-DEMO-001" ==> AccountBalance(Debited(initial, ds, Numbered), account) == 0
  {
    var entries := Debited(initial, ds, Numbered);
    forall i | 0 <= i < |ds| ensures entries[i + 1] == DebitFor(ds[i], Numbered(ds[i]), i + 2) {
    }
    forall account ensures AccountBalance(entries, account) == if account == "HCCU-DEMO-001" then initial - Cents(ds) else 0 {
      BalanceOf(initial, ds, account);
    }
  }

  lemma {:induction false} BalanceOf(initial: nat, ds: seq<Delivery>, account: string)
    ensures AccountBalance(Debited(initial, ds, Numbered), account) ==
            if account == "HCCU-DEMO-001" then initial - Cents(ds) else 0
    decreases |ds|
  {
    if ds == [] {
      BalanceAppend([], OpeningEntry(initial));
      assert [] + [OpeningEntry(initial)] == [OpeningEntry(initial)];
    } else {
      var init, last := ds[..|ds| - 1], ds[|ds| - 1];
      BalanceOf(initial, init, account);
      BalanceAppend(Debited(initial, init, Numbered), DebitFor(last, Numbered(last), |ds| + 1));
    }
  }

  // ----- The statistics -----

  /** Delivery `i` is of a request that was delivered before. */
  ghost predicate Again(ds: seq<Delivery>, i: nat)
    requires i < |ds|
  {
    exists j :: 0 <= j < i && ds[j].request == ds[i].request
  }

  /** How many of the first `n` deliveries repeat a request. */
  ghost function Repeated(ds: seq<Delivery>, n: nat): (r: nat)
    requires n <= |ds|
    ensures r <= n
  {
    if n == 0 then 0 else Repeated(ds, n - 1) + (if Again(ds, n - 1) then 1 else 0)
  }

  lemma RequestsMore(ds: seq<Delivery>, n: nat)
    requires n < |ds|
    ensures Requests(ds[..n + 1]) == Requests(ds[..n]) + {ds[n].request}
    ensures ds[n].request in Requests(ds[..n]) <==> Again(ds, n)
  {
    var init, all := ds[..n], ds[..n + 1];
    assert all == init + [ds[n]];
    assert all[n] == ds[n];
    forall i | 0 <= i < n ensures all[i].request in Requests(all) && init[i].request in Requests(init) {
    }
    if Again(ds, n) {
      var j :| 0 <= j < n && ds[j].request == ds[n].request;
      assert init[j].request in Requests(init);
    }
  }

  lemma {:induction false} RequestsAreFirsts(ds: seq<Delivery>, n: nat)
    requires n <= |ds|
    ensures |Requests(ds[..n])| == n - Repeated(ds, n)
    decreases n
  {
    if n == 0 {
      assert ds[..0] == [];
    } else {
      RequestsAreFirsts(ds, n - 1);
      RequestsMore(ds, n - 1);
    }
  }

  /** `p` is the share `part / whole` in hundredths of a percent, rounded down; nothing has a share of nothing. */
  ghost predicate IsShare(p: nat, part: nat, whole: nat) {
    if whole == 0 then p == 0 else p * whole <= part * 10000 < (p + 1) * whole
  }

  lemma ShareIs(part: nat, whole: nat)
    requires whole > 0
    ensures IsShare(part * 10000 / whole, part, whole)
  {
    var p := part * 10000 / whole;
    assert part * 10000 == whole * p + part * 10000 % whole;
    assert (p + 1) * whole == p * whole + whole;
  }

  /**
   The statistics: every delivery is received and performed, those of a request
   that was delivered before are the duplicates, the others the unique ones, and
   the share of the duplicates is given in hundredths of a percent, rounded down.
   */
  lemma StatisticsAreTrue(ds: seq<Delivery>)
    ensures |Requests(ds)| <= |ds|
    ensures var s, repeated := Measured(ds), Repeated(ds, |ds|);
            && s.received == s.operations == |ds|
            && s.duplicates == s.duplicateOperations == repeated && s.unique == |ds| - repeated
            && IsShare(s.percentageHundredths, repeated, |ds|)
  {
    RequestsAreFirsts(ds, |ds|);
    assert ds[..|ds|] == ds;
    if ds != [] {
      ShareIs(Repeated(ds, |ds|), |ds|);
    }
  }
}
