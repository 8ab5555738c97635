/** What the protected run answers to each delivery, and what it remembers of each request. */
module IdempotencyAnswers {
  import opened Ledgers
  import opened Duplicates
  import opened Idempotency
  import opened IdempotencyTheorems

  /** The first delivery of the request of delivery `i`. */
  ghost predicate IsFirst(ds: seq<Delivery>, f: nat, i: nat) {
    && f <= i < |ds| && ds[f].request == ds[i].request
    && forall j :: 0 <= j < f ==> ds[j].request != ds[i].request
  }

  /** The answer is for that delivery and repeats the result of the first of its request, marked unless it is that itself. */
  ghost predicate AnswerTold(a: Acknowledgement, ds: seq<Delivery>, i: nat, f: nat)
    requires f < |ds| && i < |ds|
  {
    && a.delivery == ds[i] && a.key == "IDEMPOTENCY-" + ds[i].request && (a.duplicate <==> f < i)
    && a.result == PaymentResult(ds[i].request, PaymentDebit(ds[i].request), ds[i].cents, ds[f].arrivedAt + 1)
  }

  ghost predicate AnswersTold(acks: seq<Acknowledgement>, ds: seq<Delivery>) {
    |acks| == |ds| && forall f: nat, i: nat :: IsFirst(ds, f, i) ==> AnswerTold(acks[i], ds, i, f)
  }

  /** How often a request is delivered. */
  ghost function Times(ds: seq<Delivery>, request: string): nat {
    if ds == [] then 0
    else Times(ds[..|ds| - 1], request) + (if ds[|ds| - 1].request == request then 1 else 0)
  }

  /** The record remembers the first delivery of the request, its result and how many others there were. */
  ghost predicate RecordTold(r: Record, d: Delivery, times: nat) {
    && r.key == "IDEMPOTENCY-" + d.request && r.request == d.request && r.firstProcessedAt == d.arrivedAt + 1
    && r.result == PaymentResult(d.request, PaymentDebit(d.request), d.cents, d.arrivedAt + 1)
    && r.duplicates == times - 1
  }

  ghost predicate RecordsTold(keys: seq<string>, records: map<string, Record>, ds: seq<Delivery>) {
    var first := First(ds);
    && |keys| == |first|
    && forall k :: 0 <= k < |first| ==>
         && keys[k] == "IDEMPOTENCY-" + first[k].request && keys[k] in records
         && RecordTold(records[keys[k]], first[k], Times(ds, first[k].request))
  }

  ghost predicate Told(p: Processor, ds: seq<Delivery>) {
    AnswersTold(p.acks, ds) && RecordsTold(p.keys, p.records, ds)
  }

  // ----- Who comes first -----

  lemma {:induction false} FirstExists(ds: seq<Delivery>, f: nat, i: nat)
    requires f <= i < |ds| && forall j :: 0 <= j < f ==> ds[j].request != ds[i].request
    ensures exists f: nat :: IsFirst(ds, f, i)
    decreases i - f
  {
    if ds[f].request == ds[i].request {
      assert IsFirst(ds, f, i);
    } else {
      FirstExists(ds, f + 1, i);
    }
  }

  lemma FirstBefore(ds: seq<Delivery>, d: Delivery, f: nat, i: nat)
    requires IsFirst(ds + [d], f, i) && f < |ds|
    ensures IsFirst(ds, f, f) && (i < |ds| ==> IsFirst(ds, f, i))
  {
    assert forall j :: 0 <= j < |ds| ==> (ds + [d])[j] == ds[j];
  }

  lemma {:induction false} FirstIsListed(ds: seq<Delivery>, f: nat, i: nat)
    requires IsFirst(ds, f, i)
    ensures exists k :: 0 <= k < |First(ds)| && First(ds)[k] == ds[f]
    decreases |ds|
  {
    var init, last := ds[..|ds| - 1], ds[|ds| - 1];
    if f < |init| {
      assert IsFirst(init, f, f);
      FirstIsListed(init, f, f);
      var k :| 0 <= k < |First(init)| && First(init)[k] == init[f];
      assert First(ds)[k] == ds[f];
    } else {
      assert !Seen(init, last.request);
      assert First(ds)[|First(init)|] == last;
    }
  }

  lemma {:induction false} SeenTimes(ds: seq<Delivery>, request: string)
    ensures Seen(ds, request) <==> Times(ds, request) > 0
    decreases |ds|
  {
    if ds != [] {
      var init := ds[..|ds| - 1];
      SeenTimes(init, request);
      if Seen(init, request) {
        var i :| 0 <= i < |init| && init[i].request == request;
        assert ds[i].request == request;
      }
      if Seen(ds, request) && ds[|ds| - 1].request != request {
        var i :| 0 <= i < |ds| && ds[i].request == request;
        assert init[i].request == request;
      }
    }
  }

  lemma TimesMore(ds: seq<Delivery>, d: Delivery, request: string)
    ensures Times(ds + [d], request) == Times(ds, request) + (if d.request == request then 1 else 0)
  {
    assert (ds + [d])[..|ds|] == ds;
  }

  lemma FirstMore(ds: seq<Delivery>, d: Delivery)
    ensures First(ds + [d]) == if Seen(ds, d.request) then First(ds) else First(ds) + [d]
  {
    assert (ds + [d])[..|ds|] == ds;
  }

  // ----- One delivery more -----

  lemma AnswersGrow(acks: seq<Acknowledgement>, ds: seq<Delivery>, d: Delivery, a: Acknowledgement)
    requires AnswersTold(acks, ds)
    requires forall f: nat :: IsFirst(ds + [d], f, |ds|) ==> AnswerTold(a, ds + [d], |ds|, f)
    ensures AnswersTold(acks + [a], ds + [d])
  {
    var ds', acks' := ds + [d], acks + [a];
    forall f: nat, i: nat | IsFirst(ds', f, i) ensures AnswerTold(acks'[i], ds', i, f) {
      if i < |ds| {
        FirstBefore(ds, d, f, i);
        assert AnswerTold(acks[i], ds, i, f);
      }
    }
  }

  /** The stored result is that of the first delivery. */
  lemma StoredIsFirst(p: Processor, ds: seq<Delivery>, d: Delivery, f: nat)
    requires RecordsTold(p.keys, p.records, ds) && IsFirst(ds + [d], f, |ds|) && f < |ds|
    requires KeyFor(d) in p.records && Holds(p.records[KeyFor(d)], d)
    ensures p.records[KeyFor(d)].result == PaymentResult(d.request, PaymentDebit(d.request), d.cents, ds[f].arrivedAt + 1)
  {
    FirstBefore(ds, d, f, |ds|);
    FirstIsListed(ds, f, f);
    var k :| 0 <= k < |First(ds)| && First(ds)[k] == ds[f];
    assert p.keys[k] == KeyFor(d);
  }

  lemma RecordsRepeat(p: Processor, ds: seq<Delivery>, d: Delivery)
    requires RecordsTold(p.keys, p.records, ds) && Seen(ds, d.request) && KeyFor(d) in p.records
    ensures var q := Repeated(p, d, KeyFor(d)); RecordsTold(q.keys, q.records, ds + [d])
  {
    var q, first := Repeated(p, d, KeyFor(d)), First(ds);
    FirstMore(ds, d);
    forall k | 0 <= k < |first|
      ensures RecordTold(q.records[q.keys[k]], first[k], Times(ds + [d], first[k].request))
    {
      TimesMore(ds, d, first[k].request);
      KeyForIsInjective(first[k], d);
      assert RecordTold(p.records[p.keys[k]], first[k], Times(ds, first[k].request));
      FirstIsSeen(ds, k);
      SeenTimes(ds, first[k].request);
    }
  }

  lemma FirstIsSeen(ds: seq<Delivery>, k: nat)
    requires k < |First(ds)|
    ensures Seen(ds, First(ds)[k].request)
  {
    FirstIsDistinct(ds);
    var i :| 0 <= i < |ds| && ds[i] == First(ds)[k];
  }

  lemma RecordsPerform(p: Processor, ds: seq<Delivery>, d: Delivery)
    requires RecordsTold(p.keys, p.records, ds) && !Seen(ds, d.request) && KeyFor(d) !in p.records
    ensures var q := Performed(p, d, KeyFor(d)); RecordsTold(q.keys, q.records, ds + [d])
  {
    var q, first := Performed(p, d, KeyFor(d)), First(ds);
    FirstMore(ds, d);
    forall k | 0 <= k < |first|
      ensures q.keys[k] == p.keys[k] && RecordTold(q.records[q.keys[k]], first[k], Times(ds + [d], first[k].request))
    {
      TimesMore(ds, d, first[k].request);
      assert RecordTold(p.records[p.keys[k]], first[k], Times(ds, first[k].request));
      FirstIsSeen(ds, k);
    }
    NewRecordTold(p, ds, d);
  }

  lemma NewRecordTold(p: Processor, ds: seq<Delivery>, d: Delivery)
    requires !Seen(ds, d.request)
    ensures RecordTold(Performed(p, d, KeyFor(d)).records[KeyFor(d)], d, Times(ds + [d], d.request))
  {
    SeenTimes(ds, d.request);
    TimesMore(ds, d, d.request);
  }

  lemma RepeatTold(p: Processor, ds: seq<Delivery>, d: Delivery)
    requires Told(p, ds) && Seen(ds, d.request) && KeyFor(d) in p.records && Holds(p.records[KeyFor(d)], d)
    ensures Told(Repeated(p, d, KeyFor(d)), ds + [d])
  {
    var ds', a := ds + [d], Acknowledgement(d, KeyFor(d), p.records[KeyFor(d)].result, true);
    forall f: nat | IsFirst(ds', f, |ds|) ensures AnswerTold(a, ds', |ds|, f) {
      var i :| 0 <= i < |ds| && ds[i].request == d.request;
      assert ds'[i].request == d.request;
      StoredIsFirst(p, ds, d, f);
    }
    AnswersGrow(p.acks, ds, d, a);
    RecordsRepeat(p, ds, d);
  }

  lemma FirstOfNew(ds: seq<Delivery>, d: Delivery, f: nat)
    requires IsFirst(ds + [d], f, |ds|) && !Seen(ds, d.request)
    ensures f == |ds|
  {
    assert forall i :: 0 <= i < |ds| ==> (ds + [d])[i] == ds[i] && ds[i].request != d.request;
  }

  lemma PerformTold(p: Processor, ds: seq<Delivery>, d: Delivery)
    requires Told(p, ds) && !Seen(ds, d.request) && KeyFor(d) !in p.records
    ensures Told(Performed(p, d, KeyFor(d)), ds + [d])
  {
    var ds', a := ds + [d], Acknowledgement(d, KeyFor(d), ResultFor(d), false);
    forall f: nat | IsFirst(ds', f, |ds|) ensures AnswerTold(a, ds', |ds|, f) {
      FirstOfNew(ds, d, f);
    }
    AnswersGrow(p.acks, ds, d, a);
    RecordsPerform(p, ds, d);
  }

  lemma ProcessTold(p: Processor, ds: seq<Delivery>, d: Delivery)
    requires Told(p, ds) && Remembers(p, ds) && Process(p, d, KeyFor(d)).Acknowledged?
    ensures Told(Process(p, d, KeyFor(d)).after, ds + [d])
  {
    KnownIffSeen(p, ds, d);
    if KeyFor(d) in p.records {
      RepeatTold(p, ds, d);
    } else {
      PerformTold(p, ds, d);
    }
  }

  lemma ProtectedMore(initial: nat, ds: seq<Delivery>, d: Delivery)
    requires Protected(initial, ds).Acknowledged?
    ensures Protected(initial, ds + [d]) == Process(Protected(initial, ds).after, d, KeyFor(d))
  {
    assert (ds + [d])[..|ds|] == ds;
  }

  lemma NothingTold(initial: nat)
    ensures Protected(initial, []).Acknowledged? && Told(Protected(initial, []).after, [])
  {
  }

  lemma MoreTold(initial: nat, ds: seq<Delivery>, d: Delivery)
    requires InTime(ds + [d]) && OneAmount(ds + [d])
    requires Protected(initial, ds).Acknowledged? && Told(Protected(initial, ds).after, ds) && Remembers(Protected(initial, ds).after, ds)
    ensures Protected(initial, ds + [d]).Acknowledged? ==> Told(Protected(initial, ds + [d]).after, ds + [d])
  {
    ProtectedMore(initial, ds, d);
    if Protected(initial, ds + [d]).Acknowledged? {
      ProcessTold(Protected(initial, ds).after, ds, d);
    }
  }

  lemma {:induction false} ProtectedTold(initial: nat, ds: seq<Delivery>)
    requires InTime(ds) && OneAmount(ds)
    ensures Protected(initial, ds).Acknowledged? && Told(Protected(initial, ds).after, ds)
    decreases |ds|
  {
    if ds == [] {
      NothingTold(initial);
    } else {
      var init, last := ds[..|ds| - 1], ds[|ds| - 1];
      assert ds == init + [last];
      PrefixKeeps(ds, |ds| - 1);
      ProtectedFollows(initial, init);
      ProtectedFollows(initial, ds);
      ProtectedTold(initial, init);
      MoreTold(initial, init, last);
    }
  }

  /**
   The protected run answers the deliveries in order, each with the result of
   the first of its request and marked as a duplicate unless it is the first;
   and it remembers the requests in the order in which they first came, with
   that result and the number of the other deliveries.
   */
  lemma AnswersAreTrue(initial: nat, ds: seq<Delivery>)
    requires ValidSequence(ds) && OneAmount(ds)
    ensures Protected(initial, ds).Acknowledged?
    ensures AnswersTold(Protected(initial, ds).after.acks, ds)
    ensures RecordsTold(Protected(initial, ds).after.keys, Protected(initial, ds).after.records, ds)
  {
    ProtectedTold(initial, ds);
  }

  /** Every delivery has a first of its request, so that the answers tell of all. */
  lemma EveryRequestHasAFirst(ds: seq<Delivery>, i: nat)
    requires i < |ds|
    ensures exists f: nat :: IsFirst(ds, f, i)
  {
    FirstExists(ds, 0, i);
  }
}
