/** The protected run of a delivery script against the naive run of its first deliveries. */
module IdempotencyTheorems {
  import opened Wrappers
  import opened Ledgers
  import opened Duplicates
  import opened Idempotency

  /** The key every delivery of a request carries. */
  function KeyFor(d: Delivery): string {
    "IDEMPOTENCY-" + d.request
  }

  lemma KeyForIsInjective(d: Delivery, e: Delivery)
    ensures KeyFor(d) == KeyFor(e) <==> d.request == e.request
  {
    assert KeyFor(d)[12..] == d.request && KeyFor(e)[12..] == e.request;
  }

  /** Run the script; the first call that raises ends the run. */
  function Protected(initial: nat, ds: seq<Delivery>): Outcome {
    if ds == [] then Acknowledged(Create([OpeningEntry(initial)]))
    else
      var last := ds[|ds| - 1];
      match Protected(initial, ds[..|ds| - 1])
      case Acknowledged(p) => Process(p, last, KeyFor(last))
      case Conflict => Conflict
      case Refused(error) => Refused(error)
  }

  /** All deliveries of a request have one amount. */
  ghost predicate OneAmount(ds: seq<Delivery>) {
    forall i, j :: 0 <= i < j < |ds| && ds[i].request == ds[j].request ==> ds[i].cents == ds[j].cents
  }

  ghost predicate Seen(ds: seq<Delivery>, request: string) {
    exists i :: 0 <= i < |ds| && ds[i].request == request
  }

  /** The first delivery of each request, in order of arrival. */
  ghost function First(ds: seq<Delivery>): seq<Delivery> {
    if ds == [] then []
    else
      var init, last := ds[..|ds| - 1], ds[|ds| - 1];
      if Seen(init, last.request) then First(init) else First(init) + [last]
  }

  /** The deliveries that are not first. */
  ghost function Later(ds: seq<Delivery>): seq<Delivery> {
    if ds == [] then []
    else
      var init, last := ds[..|ds| - 1], ds[|ds| - 1];
      if Seen(init, last.request) then Later(init) + [last] else Later(init)
  }

  function Requested(d: Delivery): EntryId {
    PaymentDebit(d.request)
  }

  ghost predicate InScript(ds: seq<Delivery>, d: Delivery) {
    exists i :: 0 <= i < |ds| && ds[i] == d
  }

  lemma {:induction false} FirstIsDistinct(ds: seq<Delivery>)
    ensures forall i, j :: 0 <= i < j < |First(ds)| ==> First(ds)[i].request != First(ds)[j].request
    ensures forall i :: 0 <= i < |First(ds)| ==> InScript(ds, First(ds)[i])
    decreases |ds|
  {
    if ds != [] {
      var init, last := ds[..|ds| - 1], ds[|ds| - 1];
      FirstIsDistinct(init);
      forall i | 0 <= i < |First(ds)| ensures InScript(ds, First(ds)[i]) {
        if i < |First(init)| {
          var k :| 0 <= k < |init| && init[k] == First(init)[i];
          assert ds[k] == First(ds)[i];
        }
      }
      forall i | 0 <= i < |First(init)| ensures Seen(init, First(init)[i].request) {
        var k :| 0 <= k < |init| && init[k] == First(init)[i];
      }
    }
  }

  lemma {:induction false} FirstCovers(ds: seq<Delivery>, request: string)
    requires Seen(ds, request)
    ensures Seen(First(ds), request)
    decreases |ds|
  {
    var init, last := ds[..|ds| - 1], ds[|ds| - 1];
    if Seen(init, request) {
      FirstCovers(init, request);
      var k :| 0 <= k < |First(init)| && First(init)[k].request == request;
      assert First(ds)[k].request == request;
    } else {
      var k :| 0 <= k < |ds| && ds[k].request == request;
      assert forall i :: 0 <= i < |init| ==> init[i].request != request;
      assert k == |init|;
      assert First(ds)[|First(ds)| - 1] == last;
    }
  }

  lemma {:induction false} FirstInTime(ds: seq<Delivery>)
    requires InTime(ds)
    ensures InTime(First(ds))
    decreases |ds|
  {
    if ds != [] {
      var init := ds[..|ds| - 1];
      FirstInTime(init);
      FirstIsDistinct(init);
      forall i | 0 <= i < |First(init)| ensures First(init)[i].arrivedAt <= ds[|ds| - 1].arrivedAt {
        var k :| 0 <= k < |init| && init[k] == First(init)[i];
        assert ds[k] == First(init)[i];
      }
    }
  }

  lemma {:induction false} FirstAndLater(ds: seq<Delivery>)
    ensures Cents(ds) == Cents(First(ds)) + Cents(Later(ds)) && |ds| == |First(ds)| + |Later(ds)|
    decreases |ds|
  {
    if ds != [] {
      var init, last := ds[..|ds| - 1], ds[|ds| - 1];
      FirstAndLater(init);
      assert (First(init) + [last])[..|First(init)|] == First(init);
      assert (Later(init) + [last])[..|Later(init)|] == Later(init);
    }
  }

  // ----- What the protected run does -----

  /** The store knows the requests seen, each with the amount all its deliveries have. */
  ghost predicate Remembers(p: Processor, ds: seq<Delivery>) {
    && (forall i :: 0 <= i < |ds| ==> KeyFor(ds[i]) in p.records && Holds(p.records[KeyFor(ds[i])], ds[i]))
    && (forall key :: key in p.records ==> exists i :: 0 <= i < |ds| && KeyFor(ds[i]) == key)
  }

  ghost predicate Holds(r: Record, d: Delivery) {
    r.result.request == d.request && r.result.cents == d.cents
  }

  ghost predicate Follows(p: Processor, initial: nat, ds: seq<Delivery>) {
    p.entries == Debited(initial, First(ds), Requested) && Remembers(p, ds)
  }

  lemma RepeatFollows(p: Processor, initial: nat, ds: seq<Delivery>, d: Delivery)
    requires Follows(p, initial, ds) && Seen(ds, d.request) && KeyFor(d) in p.records && Holds(p.records[KeyFor(d)], d)
    ensures Follows(Repeated(p, d, KeyFor(d)), initial, ds + [d])
  {
    var q := Repeated(p, d, KeyFor(d));
    assert (ds + [d])[..|ds|] == ds;
    forall key | key in q.records ensures exists i :: 0 <= i < |ds + [d]| && KeyFor((ds + [d])[i]) == key {
      var i :| 0 <= i < |ds| && KeyFor(ds[i]) == key;
      assert KeyFor((ds + [d])[i]) == key;
    }
  }

  lemma PerformRemembers(p: Processor, ds: seq<Delivery>, d: Delivery)
    requires Remembers(p, ds) && KeyFor(d) !in p.records
    ensures Remembers(Performed(p, d, KeyFor(d)), ds + [d])
  {
    var q := Performed(p, d, KeyFor(d));
    forall key | key in q.records ensures exists i :: 0 <= i < |ds + [d]| && KeyFor((ds + [d])[i]) == key {
      if key == KeyFor(d) {
        assert KeyFor((ds + [d])[|ds|]) == key;
      } else {
        var i :| 0 <= i < |ds| && KeyFor(ds[i]) == key;
        assert KeyFor((ds + [d])[i]) == key;
      }
    }
  }

  lemma KnownIffSeen(p: Processor, ds: seq<Delivery>, d: Delivery)
    requires Remembers(p, ds)
    ensures KeyFor(d) in p.records <==> Seen(ds, d.request)
  {
    if KeyFor(d) in p.records {
      var i :| 0 <= i < |ds| && KeyFor(ds[i]) == KeyFor(d);
      KeyForIsInjective(ds[i], d);
    }
    if Seen(ds, d.request) {
      var i :| 0 <= i < |ds| && ds[i].request == d.request;
      KeyForIsInjective(ds[i], d);
    }
  }

  /** A first delivery is never refused. */
  lemma FirstAccepted(initial: nat, ds: seq<Delivery>, d: Delivery)
    requires InTime(ds + [d]) && !Seen(ds, d.request)
    ensures Objection(Debited(initial, First(ds), Requested), DebitFor(d, Requested(d), |First(ds)| + 2)) == None
  {
    FirstIsDistinct(ds);
    forall i | 0 <= i < |First(ds)| ensures First(ds)[i].arrivedAt <= d.arrivedAt && Requested(First(ds)[i]) != Requested(d) {
      var k :| 0 <= k < |ds| && ds[k] == First(ds)[i];
      assert (ds + [d])[k] == ds[k] && (ds + [d])[|ds|] == d;
    }
    DebitAccepted(initial, First(ds), Requested, d);
  }

  lemma PerformFollows(p: Processor, initial: nat, ds: seq<Delivery>, d: Delivery)
    requires Follows(p, initial, ds) && KeyFor(d) !in p.records && !Seen(ds, d.request)
    ensures Follows(Performed(p, d, KeyFor(d)), initial, ds + [d])
  {
    PerformRemembers(p, ds, d);
    assert (ds + [d])[..|ds|] == ds;
    assert First(ds + [d]) == First(ds) + [d];
    assert (First(ds) + [d])[..|First(ds)|] == First(ds);
  }

  lemma SameAmount(p: Processor, ds: seq<Delivery>, d: Delivery)
    requires Remembers(p, ds) && OneAmount(ds + [d]) && Seen(ds, d.request)
    ensures KeyFor(d) in p.records && Holds(p.records[KeyFor(d)], d)
  {
    var i :| 0 <= i < |ds| && ds[i].request == d.request;
    KeyForIsInjective(ds[i], d);
    assert (ds + [d])[i] == ds[i] && (ds + [d])[|ds|] == d;
  }

  lemma ProcessFollows(p: Processor, initial: nat, ds: seq<Delivery>, d: Delivery)
    requires Follows(p, initial, ds) && InTime(ds + [d]) && OneAmount(ds + [d])
    ensures Process(p, d, KeyFor(d)).Acknowledged? && Follows(Process(p, d, KeyFor(d)).after, initial, ds + [d])
  {
    KnownIffSeen(p, ds, d);
    if Seen(ds, d.request) {
      SameAmount(p, ds, d);
      RepeatFollows(p, initial, ds, d);
    } else {
      FirstAccepted(initial, ds, d);
      PerformFollows(p, initial, ds, d);
    }
  }

  lemma PrefixKeeps(ds: seq<Delivery>, i: nat)
    requires i <= |ds|
    ensures InTime(ds) ==> InTime(ds[..i])
    ensures OneAmount(ds) ==> OneAmount(ds[..i])
  {
  }

  lemma {:induction false} ProtectedFollows(initial: nat, ds: seq<Delivery>)
    requires InTime(ds) && OneAmount(ds)
    ensures Protected(initial, ds).Acknowledged? && Follows(Protected(initial, ds).after, initial, ds)
    decreases |ds|
  {
    if ds != [] {
      var init, last := ds[..|ds| - 1], ds[|ds| - 1];
      PrefixKeeps(ds, |ds| - 1);
      ProtectedFollows(initial, init);
      assert ds == init + [last];
      ProcessFollows(Protected(initial, init).after, initial, init, last);
    } else {
      NothingFollows(initial);
    }
  }

  lemma NothingFollows(initial: nat)
    ensures Protected(initial, []).Acknowledged? && Follows(Protected(initial, []).after, initial, [])
  {
  }

  /** A delivery with another amount than an earlier one of its request is met with a conflict. */
  lemma OtherAmountConflicts(p: Processor, ds: seq<Delivery>, d: Delivery)
    requires Remembers(p, ds) && OneAmount(ds) && !OneAmount(ds + [d])
    ensures Process(p, d, KeyFor(d)) == Conflict
  {
    var all := ds + [d];
    assert forall i :: 0 <= i < |ds| ==> all[i] == ds[i];
    var i, j :| 0 <= i < j < |all| && all[i].request == all[j].request && all[i].cents != all[j].cents;
    assert j == |ds|;
    KeyForIsInjective(ds[i], d);
    assert Holds(p.records[KeyFor(ds[i])], ds[i]);
  }

  lemma {:induction false} ProtectedConflicts(initial: nat, ds: seq<Delivery>)
    requires InTime(ds) && !OneAmount(ds)
    ensures Protected(initial, ds) == Conflict
    decreases |ds|
  {
    var init, last := ds[..|ds| - 1], ds[|ds| - 1];
    PrefixKeeps(ds, |ds| - 1);
    assert ds == init + [last];
    if OneAmount(init) {
      ProtectedFollows(initial, init);
      OtherAmountConflicts(Protected(initial, init).after, init, last);
    } else {
      ProtectedConflicts(initial, init);
    }
  }

  /** The protected run of a valid script never meets a refusal, and finishes exactly when each request has one amount. */
  lemma ProtectedFinishesIff(initial: nat, ds: seq<Delivery>)
    requires ValidSequence(ds)
    ensures !Protected(initial, ds).Refused?
    ensures Protected(initial, ds).Acknowledged? <==> OneAmount(ds)
  {
    if OneAmount(ds) {
      ProtectedFollows(initial, ds);
    } else {
      ProtectedConflicts(initial, ds);
    }
  }

  // ----- Against the naive run -----

  /** The first deliveries as a script of their own. */
  ghost function Renumbered(ds: seq<Delivery>): (r: seq<Delivery>)
    ensures |r| == |ds| && forall i :: 0 <= i < |ds| ==> r[i] == ds[i].(order := i + 1)
  {
    seq(|ds|, i requires 0 <= i < |ds| => ds[i].(order := i + 1))
  }

  lemma RenumberedIsValid(ds: seq<Delivery>)
    requires InTime(ds)
    ensures ValidSequence(Renumbered(First(ds))) && DistinctNumbers(Renumbered(First(ds)))
  {
    FirstInTime(ds);
    FirstIsDistinct(ds);
  }

  ghost predicate SameButIds(xs: seq<Entry>, ys: seq<Entry>) {
    |xs| == |ys| && forall i :: 0 <= i < |xs| ==> xs[i].(id := Opening) == ys[i].(id := Opening)
  }

  lemma {:induction false} SameBalance(xs: seq<Entry>, ys: seq<Entry>)
    requires SameButIds(xs, ys)
    ensures Balance(xs) == Balance(ys)
    decreases |xs|
  {
    if xs != [] {
      var x, y := xs[|xs| - 1], ys[|ys| - 1];
      assert x.(id := Opening) == y.(id := Opening);
      assert Signed(x) == Signed(x.(id := Opening)) && Signed(y) == Signed(y.(id := Opening));
      SameBalance(xs[..|xs| - 1], ys[..|ys| - 1]);
    }
  }

  lemma SameDebits(initial: nat, ds: seq<Delivery>)
    ensures SameButIds(Debited(initial, ds, Requested), Debited(initial, Renumbered(ds), Numbered))
  {
    var xs, ys := Debited(initial, ds, Requested), Debited(initial, Renumbered(ds), Numbered);
    forall i | 0 <= i < |xs| ensures xs[i].(id := Opening) == ys[i].(id := Opening) {
      if i > 0 {
        var d, e := ds[i - 1], Renumbered(ds)[i - 1];
        assert xs[i - 1 + 1] == DebitFor(d, Requested(d), i + 1);
        assert ys[i - 1 + 1] == DebitFor(e, Numbered(e), i + 1);
      }
    }
  }

  /**
   Duplicates have no financial effect: the protected run of a script leaves the
   entries, and so the balance, that the naive run leaves when every request is
   delivered once.
   */
  lemma DuplicatesChangeNothing(initial: nat, ds: seq<Delivery>)
    requires ValidSequence(ds) && OneAmount(ds)
    ensures Protected(initial, ds).Acknowledged?
    ensures ValidSequence(Renumbered(First(ds))) && DistinctNumbers(Renumbered(First(ds)))
    ensures var protected, naive := Protected(initial, ds).after.entries, Debited(initial, Renumbered(First(ds)), Numbered);
            SameButIds(protected, naive) && Balance(protected) == Balance(naive)
  {
    ProtectedFollows(initial, ds);
    RenumberedIsValid(ds);
    SameDebits(initial, First(ds));
    SameBalance(Debited(initial, First(ds), Requested), Debited(initial, Renumbered(First(ds)), Numbered));
  }

  /** What the naive run of the whole script takes too much is the amount of the later deliveries. */
  lemma NaiveOvercharge(initial: nat, ds: seq<Delivery>)
    requires ValidSequence(ds) && OneAmount(ds)
    ensures Protected(initial, ds).Acknowledged?
    ensures Balance(Protected(initial, ds).after.entries) == Balance(Debited(initial, ds, Numbered)) + Cents(Later(ds))
  {
    ProtectedFollows(initial, ds);
    DebitedBalance(initial, ds, Numbered);
    DebitedBalance(initial, First(ds), Requested);
    FirstAndLater(ds);
  }

  /** The run as calls, which the invariant of the processor covers. */
  ghost function AsCalls(ds: seq<Delivery>): seq<(Delivery, string)> {
    if ds == [] then [] else AsCalls(ds[..|ds| - 1]) + [(ds[|ds| - 1], KeyFor(ds[|ds| - 1]))]
  }

  lemma {:induction false} ProtectedIsCalls(initial: nat, ds: seq<Delivery>)
    requires Protected(initial, ds).Acknowledged?
    ensures Protected(initial, ds).after == Calls(Create([OpeningEntry(initial)]), AsCalls(ds))
    decreases |ds|
  {
    if ds != [] {
      var init, last := ds[..|ds| - 1], ds[|ds| - 1];
      ProtectedIsCalls(initial, init);
      var calls := AsCalls(init) + [(last, KeyFor(last))];
      assert calls[..|calls| - 1] == AsCalls(init);
    }
  }

  /** One record and one debit for each request; the acknowledgements are the records and the counted duplicates. */
  lemma OneRecordPerRequest(initial: nat, ds: seq<Delivery>)
    requires ValidSequence(ds) && OneAmount(ds)
    ensures Protected(initial, ds).Acknowledged?
    ensures var p := Protected(initial, ds).after;
            && |p.entries| == |First(ds)| + 1 && |p.keys| == |First(ds)| == p.created
            && |p.acks| == |p.keys| + DuplicateTotal(p, p.keys) == |ds|
  {
    ProtectedFollows(initial, ds);
    ProtectedIsCalls(initial, ds);
    var base := [OpeningEntry(initial)];
    CallsKeep(base, AsCalls(ds));
    AcknowledgementsAddUp(base, AsCalls(ds));
    ProtectedAcknowledgesAll(initial, ds);
  }

  lemma {:induction false} ProtectedAcknowledgesAll(initial: nat, ds: seq<Delivery>)
    requires Protected(initial, ds).Acknowledged?
    ensures |Protected(initial, ds).after.acks| == |ds|
    decreases |ds|
  {
    if ds != [] {
      ProtectedAcknowledgesAll(initial, ds[..|ds| - 1]);
    }
  }
}
