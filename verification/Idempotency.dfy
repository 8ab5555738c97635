/** Idempotent payment processing: a store of completed operations in front of a ledger, as values. */
module Idempotency {
  import opened Ledgers
  import opened D = Duplicates

  datatype PaymentResult = PaymentResult(request: string, entryId: EntryId, cents: nat, processedAt: nat)

  datatype Record = Record(key: string, request: string, firstProcessedAt: nat, result: PaymentResult, duplicates: nat)

  datatype Acknowledgement = Acknowledgement(delivery: Delivery, key: string, result: PaymentResult, duplicate: bool)

  /** The store is a dictionary that remembers the order of insertion. */
  datatype Processor = Processor(
    entries: seq<Entry>,
    keys: seq<string>,
    records: map<string, Record>,
    acks: seq<Acknowledgement>,
    created: nat)

  /** A call acknowledges, or raises and leaves everything as it was. */
  datatype Outcome = Acknowledged(after: Processor) | Conflict | Refused(error: Error)

  function Create(entries: seq<Entry>): Processor {
    Processor(entries, [], map[], [], 0)
  }

  function ResultFor(d: Delivery): PaymentResult {
    PaymentResult(d.request, PaymentDebit(d.request), d.cents, d.arrivedAt + 1)
  }

  /** A duplicate is counted and answered with the stored result. */
  function Repeated(p: Processor, d: Delivery, key: string): Processor
    requires key in p.records
  {
    var record := p.records[key];
    p.(records := p.records[key := record.(duplicates := record.duplicates + 1)],
       acks := p.acks + [Acknowledgement(d, key, record.result, true)])
  }

  /** A first delivery is debited, remembered and answered. */
  function Performed(p: Processor, d: Delivery, key: string): Processor {
    Processor(
      p.entries + [DebitFor(d, PaymentDebit(d.request), |p.entries| + 1)],
      p.keys + [key],
      p.records[key := Record(key, d.request, d.arrivedAt + 1, ResultFor(d), 0)],
      p.acks + [Acknowledgement(d, key, ResultFor(d), false)],
      p.created + 1)
  }

  function Process(p: Processor, d: Delivery, key: string): Outcome {
    if key in p.records then
      var record := p.records[key];
      if record.result.request != d.request || record.result.cents != d.cents then Conflict
      else Acknowledged(Repeated(p, d, key))
    else
      var error := Objection(p.entries, DebitFor(d, PaymentDebit(d.request), |p.entries| + 1));
      if error.Some? then Refused(error.value) else Acknowledged(Performed(p, d, key))
  }

  function After(p: Processor, o: Outcome): Processor {
    if o.Acknowledged? then o.after else p
  }

  /** Any number of calls, with any deliveries under any keys; one that raises is passed over. */
  function Calls(p: Processor, calls: seq<(Delivery, string)>): Processor {
    if calls == [] then p
    else
      var before, call := Calls(p, calls[..|calls| - 1]), calls[|calls| - 1];
      After(before, Process(before, call.0, call.1))
  }

  // ----- What holds in every reachable state -----

  ghost predicate Indexed(p: Processor) {
    && (forall i :: 0 <= i < |p.keys| ==> p.keys[i] in p.records)
    && (forall i, j :: 0 <= i < j < |p.keys| ==> p.keys[i] != p.keys[j])
    && (forall k :: k in p.records ==> k in p.keys && p.records[k].key == k)
  }

  /** The i-th record is the i-th debit after the ledger's first `base` entries. */
  ghost predicate OneDebitEach(p: Processor, base: seq<Entry>) {
    && |p.entries| == |base| + |p.keys| && p.entries[..|base|] == base
    && forall i :: 0 <= i < |p.keys| ==> p.keys[i] in p.records && Debits(p.entries[|base| + i], p.records[p.keys[i]])
  }

  ghost predicate Debits(e: Entry, r: Record) {
    && e.id == PaymentDebit(r.request) == r.result.entryId
    && e.account == ACCOUNT && e.kind == Debit && e.cents == r.result.cents
    && e.postedAt == r.firstProcessedAt == r.result.processedAt
    && r.request == r.result.request
  }

  function Answers(acks: seq<Acknowledgement>, key: string): nat {
    if acks == [] then 0
    else Answers(acks[..|acks| - 1], key) + (if acks[|acks| - 1].key == key then 1 else 0)
  }

  ghost predicate Answered(p: Processor) {
    forall key :: Answers(p.acks, key) == if key in p.records then p.records[key].duplicates + 1 else 0
  }

  /** Every answer given under a key is the stored result, for a delivery of the same request and amount. */
  ghost predicate SameAnswer(p: Processor) {
    forall i :: 0 <= i < |p.acks| ==>
      var a := p.acks[i];
      && a.key in p.records
      && a.result == p.records[a.key].result
      && a.delivery.request == a.result.request
      && a.delivery.cents == a.result.cents
  }

  function Repeats(acks: seq<Acknowledgement>): nat {
    if acks == [] then 0
    else Repeats(acks[..|acks| - 1]) + (if acks[|acks| - 1].duplicate then 1 else 0)
  }

  ghost predicate Counted(p: Processor) {
    p.created == |p.keys| == |p.acks| - Repeats(p.acks)
  }

  ghost predicate Inv(p: Processor, base: seq<Entry>) {
    && Sound(p.entries)
    && Indexed(p)
    && OneDebitEach(p, base)
    && Answered(p)
    && SameAnswer(p)
    && Counted(p)
  }

  lemma AnswersAppend(acks: seq<Acknowledgement>, a: Acknowledgement)
    ensures Repeats(acks + [a]) == Repeats(acks) + (if a.duplicate then 1 else 0)
    ensures forall key :: Answers(acks + [a], key) == Answers(acks, key) + (if a.key == key then 1 else 0)
  {
    assert (acks + [a])[..|acks|] == acks;
  }

  // ----- Acknowledging a duplicate -----

  lemma RepeatIndexed(p: Processor, d: Delivery, key: string)
    requires Indexed(p) && key in p.records
    ensures Indexed(Repeated(p, d, key))
  {
  }

  lemma RepeatDebits(p: Processor, base: seq<Entry>, d: Delivery, key: string)
    requires OneDebitEach(p, base) && key in p.records
    ensures OneDebitEach(Repeated(p, d, key), base)
  {
  }

  lemma RepeatAnswers(p: Processor, d: Delivery, key: string)
    requires Answered(p) && SameAnswer(p) && Counted(p) && key in p.records
    requires p.records[key].result.request == d.request && p.records[key].result.cents == d.cents
    ensures Answered(Repeated(p, d, key)) && SameAnswer(Repeated(p, d, key)) && Counted(Repeated(p, d, key))
  {
    AnswersAppend(p.acks, Acknowledgement(d, key, p.records[key].result, true));
  }

  // ----- Performing a payment -----

  lemma PerformIndexed(p: Processor, d: Delivery, key: string)
    requires Indexed(p) && key !in p.records
    ensures Indexed(Performed(p, d, key))
  {
  }

  lemma PerformDebits(p: Processor, base: seq<Entry>, d: Delivery, key: string)
    requires OneDebitEach(p, base) && key !in p.records
    ensures OneDebitEach(Performed(p, d, key), base)
  {
    var q := Performed(p, d, key);
    assert q.entries[..|base|] == p.entries[..|base|];
  }

  lemma PerformAnswers(p: Processor, d: Delivery, key: string)
    requires Answered(p) && SameAnswer(p) && Counted(p) && key !in p.records
    ensures Answered(Performed(p, d, key)) && SameAnswer(Performed(p, d, key)) && Counted(Performed(p, d, key))
  {
    AnswersAppend(p.acks, Acknowledgement(d, key, ResultFor(d), false));
  }

  lemma RepeatKeeps(p: Processor, base: seq<Entry>, d: Delivery, key: string)
    requires Inv(p, base) && key in p.records
    requires p.records[key].result.request == d.request && p.records[key].result.cents == d.cents
    ensures Inv(Repeated(p, d, key), base)
  {
    RepeatIndexed(p, d, key);
    RepeatDebits(p, base, d, key);
    RepeatAnswers(p, d, key);
  }

  lemma PerformSound(p: Processor, d: Delivery, key: string)
    requires Sound(p.entries)
    requires Objection(p.entries, DebitFor(d, PaymentDebit(d.request), |p.entries| + 1)).None?
    ensures Sound(Performed(p, d, key).entries)
  {
    AppendSound(p.entries, DebitFor(d, PaymentDebit(d.request), |p.entries| + 1));
  }

  lemma PerformKeeps(p: Processor, base: seq<Entry>, d: Delivery, key: string)
    requires Inv(p, base) && key !in p.records && Sound(Performed(p, d, key).entries)
    ensures Inv(Performed(p, d, key), base)
  {
    PerformIndexed(p, d, key);
    PerformDebits(p, base, d, key);
    PerformAnswers(p, d, key);
  }

  lemma ProcessKeeps(p: Processor, base: seq<Entry>, d: Delivery, key: string)
    requires Inv(p, base)
    ensures Inv(After(p, Process(p, d, key)), base)
  {
    if Process(p, d, key).Acknowledged? {
      if key in p.records {
        RepeatKeeps(p, base, d, key);
      } else {
        PerformSound(p, d, key);
        PerformKeeps(p, base, d, key);
      }
    }
  }

  /**
   Whatever is delivered under whatever keys: each key has one debit and one
   result, every delivery under it was acknowledged with that result and
   counted, and nothing else was added to the ledger.
   */
  lemma {:induction false} CallsKeep(base: seq<Entry>, calls: seq<(Delivery, string)>)
    requires Sound(base)
    ensures Inv(Calls(Create(base), calls), base)
    decreases |calls|
  {
    if calls == [] {
      assert base[..|base|] == base;
    } else {
      var init, call := calls[..|calls| - 1], calls[|calls| - 1];
      CallsKeep(base, init);
      ProcessKeeps(Calls(Create(base), init), base, call.0, call.1);
    }
  }

  // ----- What the invariant says -----

  /** No request is debited twice, even under different keys. */
  lemma OneDebitPerRequest(base: seq<Entry>, calls: seq<(Delivery, string)>, k: string, l: string)
    requires Sound(base)
    requires var p := Calls(Create(base), calls); k in p.records && l in p.records && k != l
    ensures var p := Calls(Create(base), calls); p.records[k].request != p.records[l].request
  {
    var p := Calls(Create(base), calls);
    CallsKeep(base, calls);
    var i :| 0 <= i < |p.keys| && p.keys[i] == k;
    var j :| 0 <= j < |p.keys| && p.keys[j] == l;
    assert Debits(p.entries[|base| + i], p.records[p.keys[i]]);
    assert Debits(p.entries[|base| + j], p.records[p.keys[j]]);
    assert p.entries[|base| + i].id != p.entries[|base| + j].id;
  }

  function DuplicateTotal(p: Processor, keys: seq<string>): nat {
    if keys == [] then 0
    else
      var last := keys[|keys| - 1];
      DuplicateTotal(p, keys[..|keys| - 1]) + (if last in p.records then p.records[last].duplicates else 0)
  }

  function AnswerTotal(acks: seq<Acknowledgement>, keys: seq<string>): nat {
    if keys == [] then 0 else AnswerTotal(acks, keys[..|keys| - 1]) + Answers(acks, keys[|keys| - 1])
  }

  lemma {:induction false} AnswerTotalAppend(acks: seq<Acknowledgement>, a: Acknowledgement, keys: seq<string>)
    requires forall i, j :: 0 <= i < j < |keys| ==> keys[i] != keys[j]
    ensures AnswerTotal(acks + [a], keys) == AnswerTotal(acks, keys) + (if a.key in keys then 1 else 0)
    decreases |keys|
  {
    if keys != [] {
      var init, last := keys[..|keys| - 1], keys[|keys| - 1];
      AnswerTotalAppend(acks, a, init);
      AnswersAppend(acks, a);
      assert keys == init + [last];
    }
  }

  lemma {:induction false} EveryAnswerHasAKey(acks: seq<Acknowledgement>, keys: seq<string>)
    requires forall i, j :: 0 <= i < j < |keys| ==> keys[i] != keys[j]
    requires forall i :: 0 <= i < |acks| ==> acks[i].key in keys
    ensures AnswerTotal(acks, keys) == |acks|
    decreases |acks|
  {
    if acks == [] {
      NoAnswers(keys);
    } else {
      var init, last := acks[..|acks| - 1], acks[|acks| - 1];
      assert acks == init + [last];
      EveryAnswerHasAKey(init, keys);
      AnswerTotalAppend(init, last, keys);
    }
  }

  lemma {:induction false} NoAnswers(keys: seq<string>)
    ensures AnswerTotal([], keys) == 0
    decreases |keys|
  {
    if keys != [] {
      NoAnswers(keys[..|keys| - 1]);
    }
  }

  lemma {:induction false} AnswersPerKey(p: Processor, keys: seq<string>)
    requires Answered(p) && forall i :: 0 <= i < |keys| ==> keys[i] in p.records
    ensures AnswerTotal(p.acks, keys) == |keys| + DuplicateTotal(p, keys)
    decreases |keys|
  {
    if keys != [] {
      AnswersPerKey(p, keys[..|keys| - 1]);
    }
  }

  /** Acknowledgements = records + the duplicates counted in the records. */
  lemma AcknowledgementsAddUp(base: seq<Entry>, calls: seq<(Delivery, string)>)
    requires Sound(base)
    ensures var p := Calls(Create(base), calls);
            |p.acks| == |p.keys| + DuplicateTotal(p, p.keys) && DuplicateTotal(p, p.keys) == Repeats(p.acks)
  {
    var p := Calls(Create(base), calls);
    CallsKeep(base, calls);
    EveryAnswerHasAKey(p.acks, p.keys);
    AnswersPerKey(p, p.keys);
  }
}
