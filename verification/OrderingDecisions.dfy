/** What is decided about each delivery, told from the decisions before it and from what is buffered. */
module OrderingDecisions {
  import opened Ledgers
  import opened Ordering
  import opened OrderingInvariant
  import opened OrderingSequence

  // ----- The expected sequence -----

  /** Each result names the step that was expected: one more than its payment had applied. */
  ghost predicate Expected(results: seq<Result>, refused: set<string>) {
    results != [] ==>
      var init, last := results[..|results| - 1], results[|results| - 1];
      && Expected(init, refused)
      && (last.event.payment !in refused ==> last.expected == |Applied(init, last.event.payment)| + 1)
  }

  lemma {:induction false} ExpectedAt(results: seq<Result>, refused: set<string>, i: nat)
    requires Expected(results, refused) && i < |results| && results[i].event.payment !in refused
    ensures results[i].expected == |Applied(results[..i], results[i].event.payment)| + 1
    decreases |results|
  {
    var init := results[..|results| - 1];
    if i < |init| {
      ExpectedAt(init, refused, i);
      assert init[..i] == results[..i];
    }
  }

  /** Who knows how far a payment is knows how much of it has been applied. */
  lemma ReachedIsApplied(p: Processor, payment: string, refused: set<string>)
    requires InSequence(p, refused) && payment !in refused
    ensures |Applied(p.results, payment)| == StateOf(p, payment).last
  {
    assert Sequenced(Applied(p.results, payment), StateOf(p, payment).last, false);
  }

  lemma OneExpectedMore(results: seq<Result>, refused: set<string>, r: Result)
    requires Expected(results, refused)
    requires r.event.payment !in refused ==> r.expected == |Applied(results, r.event.payment)| + 1
    ensures Expected(results + [r], refused)
  {
    assert (results + [r])[..|results|] == results;
  }

  /** A decision added by one who knows how far its payment is. */
  lemma ExpectedMore(p: Processor, q: Processor, refused: set<string>, r: Result)
    requires InSequence(p, refused) && Expected(p.results, refused) && q.results == p.results + [r]
    requires r.expected == StateOf(p, r.event.payment).last + 1
    ensures Expected(q.results, refused)
  {
    if r.event.payment !in refused {
      ReachedIsApplied(p, r.event.payment, refused);
    }
    OneExpectedMore(p.results, refused, r);
  }

  lemma {:induction false} ExpectedFewer(results: seq<Result>, refused: set<string>, more: set<string>)
    requires Expected(results, refused) && refused <= more
    ensures Expected(results, more)
    decreases |results|
  {
    if results != [] {
      ExpectedFewer(results[..|results| - 1], refused, more);
    }
  }

  lemma ApplyExpects(p: Processor, e: PaymentEvent, refused: set<string>)
    requires InSequence(p, refused) && Expected(p.results, refused)
    ensures Expected(Apply(p, e).after.results, RefusedBy(refused, Apply(p, e), e.payment))
  {
    ApplyIs(p, e);
    var q := Apply(p, e).after;
    if Apply(p, e).Raised? {
      ExpectedFewer(p.results, refused, refused + {e.payment});
    } else {
      ExpectedMore(p, q, refused, q.results[|p.results|]);
    }
  }

  ghost predicate OutcomeExpected(o: Outcome, refused: set<string>, payment: string) {
    OutcomeInSequence(o, refused, payment) && Expected(o.after.results, RefusedBy(refused, o, payment))
  }

  lemma PopExpects(p: Processor, slot: Slot, refused: set<string>)
    requires InSequence(p, refused) && Slotted(p) && Expected(p.results, refused) && IsNext(p, slot)
    ensures OutcomeExpected(Popped(p, slot), refused, slot.0)
  {
    PopInSequence(p, slot, refused);
    PopApplyInSequence(p, slot, refused);
    ApplyExpects(p.(buffer := Without(p.buffer, slot)), p.buffer[slot], refused);
  }

  lemma DrainExpects(p: Processor, payment: string, refused: set<string>)
    requires InSequence(p, refused) && Slotted(p) && Expected(p.results, refused)
    ensures Expected(Drain(p, payment).after.results, RefusedBy(refused, Drain(p, payment), payment))
  {
    var ok := (o: Outcome) => OutcomeExpected(o, refused, payment);
    forall q: Processor, n: nat | IsNext(q, (payment, n)) && ok(Returned(q)) ensures ok(Popped(q, (payment, n))) {
      PopExpects(q, (payment, n), refused);
    }
    DrainPreserves(p, payment, ok);
    assert OutcomeExpected(Drain(p, payment), refused, payment);
  }

  lemma NextExpects(p: Processor, e: PaymentEvent, refused: set<string>)
    requires InSequence(p, refused) && Slotted(p) && Expected(p.results, refused) && e.sequence == StateOf(p, e.payment).last + 1
    ensures var o := ApplyAndDrain(p, e); Expected(o.after.results, RefusedBy(refused, o, e.payment))
  {
    ApplyExpects(p, e, refused);
    ApplyInSequence(p, e, refused);
    if Apply(p, e).Returned? {
      DrainExpects(Apply(p, e).after, e.payment, refused);
    }
  }

  lemma ReceiveExpects(p: Processor, e: PaymentEvent, refused: set<string>)
    requires InSequence(p, refused) && Slotted(p) && Expected(p.results, refused)
    ensures var o := Receive(p, e); Expected(o.after.results, RefusedBy(refused, o, e.payment))
  {
    var st := StateOf(p, e.payment);
    if e.id in p.processedIds || e.sequence <= st.last || e.revision <= st.revision {
      var d := if e.id in p.processedIds then Duplicate else Stale;
      SeenIs(p, e, d);
      OneMoreExpected(p, Receive(p, e).after, e, d, refused);
    } else if e.sequence == st.last + 1 {
      ArrivedInSequence(p, e, refused);
      NextExpects(Arrived(p, e), e, refused);
    } else {
      EarlyExpects(p, e, refused);
    }
  }

  lemma OneMoreExpected(p: Processor, q: Processor, e: PaymentEvent, d: Decision, refused: set<string>)
    requires InSequence(p, refused) && Expected(p.results, refused)
    requires q.results == p.results + [Result(e, d, StateOf(p, e.payment).last + 1)]
    ensures Expected(q.results, refused)
  {
    ExpectedMore(p, q, refused, Result(e, d, StateOf(p, e.payment).last + 1));
  }

  lemma EarlyExpects(p: Processor, e: PaymentEvent, refused: set<string>)
    requires InSequence(p, refused) && Expected(p.results, refused) && e.id !in p.processedIds
    requires e.sequence > StateOf(p, e.payment).last + 1 && e.revision > StateOf(p, e.payment).revision
    ensures Receive(p, e).Returned? && Expected(Receive(p, e).after.results, refused)
  {
    if (e.payment, e.sequence) in p.buffer {
      ReceiveTakenIs(p, e);
      OneMoreExpected(p, Receive(p, e).after, e, Rejected, refused);
    } else {
      ReceiveEarlyIs(p, e);
      OneMoreExpected(p, Receive(p, e).after, e, Buffered, refused);
    }
  }

  lemma {:induction false} ExecExpects(opening: seq<Entry>, events: seq<PaymentEvent>)
    ensures var run := Exec(opening, events); Expected(run.p.results, run.refused)
    decreases |events|
  {
    if events != [] {
      var before := Exec(opening, events[..|events| - 1]);
      ExecExpects(opening, events[..|events| - 1]);
      ExecInSequence(opening, events[..|events| - 1]);
      ReceiveExpects(before.p, events[|events| - 1], before.refused);
    }
  }

  // ----- The counters -----

  ghost function Held(results: seq<Result>): nat {
    if results == [] then 0
    else Held(results[..|results| - 1]) + (if results[|results| - 1].decision == Buffered then 1 else 0)
  }

  /** Early deliveries are counted once each, under both names. */
  ghost predicate Counted(p: Processor) {
    p.outOfOrder == p.buffered == Held(p.results)
  }

  lemma HeldAppend(results: seq<Result>, r: Result)
    ensures Held(results + [r]) == Held(results) + (if r.decision == Buffered then 1 else 0)
  {
    assert (results + [r])[..|results|] == results;
  }

  /** Applying counts nothing and adds at most one result, which does not say buffered. */
  lemma ApplyAdds(p: Processor, e: PaymentEvent)
    ensures var q := Apply(p, e).after;
            && q.outOfOrder == p.outOfOrder && q.buffered == p.buffered && q.buffer == p.buffer
            && (q.results == p.results
                || (|q.results| == |p.results| + 1 && q.results[..|p.results|] == p.results
                    && q.results[|p.results|].decision != Buffered))
  {
  }

  lemma ApplyCounts(p: Processor, e: PaymentEvent)
    requires Counted(p)
    ensures Counted(Apply(p, e).after) && Apply(p, e).after.buffer == p.buffer
  {
    ApplyAdds(p, e);
    var results := Apply(p, e).after.results;
    if results != p.results {
      HeldAppend(p.results, results[|p.results|]);
      assert results == p.results + [results[|p.results|]];
    }
  }

  lemma DrainCounts(p: Processor, payment: string)
    requires Counted(p)
    ensures Counted(Drain(p, payment).after)
  {
    var ok := (o: Outcome) => Counted(o.after);
    forall q: Processor, n: nat | IsNext(q, (payment, n)) && ok(Returned(q)) ensures ok(Popped(q, (payment, n))) {
      ApplyCounts(q.(buffer := Without(q.buffer, (payment, n))), q.buffer[(payment, n)]);
    }
    DrainPreserves(p, payment, ok);
  }

  lemma ReceiveCounts(p: Processor, e: PaymentEvent)
    requires Counted(p)
    ensures Counted(Receive(p, e).after)
  {
    var p1 := Arrived(p, e);
    if Receive(p, e) == ApplyAndDrain(p1, e) {
      ApplyCounts(p1, e);
      if Apply(p1, e).Returned? {
        DrainCounts(Apply(p1, e).after, e.payment);
      }
    } else {
      var q := Receive(p, e).after;
      HeldAppend(p.results, q.results[|p.results|]);
    }
  }

  lemma {:induction false} ExecCounts(opening: seq<Entry>, events: seq<PaymentEvent>)
    ensures Counted(Exec(opening, events).p)
    decreases |events|
  {
    if events != [] {
      ExecCounts(opening, events[..|events| - 1]);
      ReceiveCounts(Exec(opening, events[..|events| - 1]).p, events[|events| - 1]);
    }
  }

  /** In every state reached each result names the step that was expected, and the counters are those of the results. */
  lemma ResultsAreTrue(opening: seq<Entry>, events: seq<PaymentEvent>, i: nat)
    requires i < |Exec(opening, events).p.results|
    ensures var Run(p, refused) := Exec(opening, events);
            && (p.results[i].event.payment !in refused ==>
                  p.results[i].expected == |Applied(p.results[..i], p.results[i].event.payment)| + 1)
            && p.outOfOrder == p.buffered == Held(p.results)
  {
    ExecExpects(opening, events);
    ExecCounts(opening, events);
    var Run(p, refused) := Exec(opening, events);
    if p.results[i].event.payment !in refused {
      ExpectedAt(p.results, refused, i);
    }
  }

  // ----- The buffer -----

  /** What waits was buffered when it came: nothing that was rejected takes its place. */
  ghost predicate Kept(p: Processor) {
    forall slot: Slot :: slot in p.buffer ==> WasBuffered(p.results, p.buffer[slot])
  }

  ghost predicate WasBuffered(results: seq<Result>, e: PaymentEvent) {
    exists i :: 0 <= i < |results| && results[i].decision == Buffered && results[i].event == e
  }

  lemma StillKept(p: Processor, q: Processor)
    requires Kept(p) && p.results <= q.results
    requires forall slot: Slot :: slot in q.buffer ==> slot in p.buffer && q.buffer[slot] == p.buffer[slot]
    ensures Kept(q)
  {
    forall slot: Slot | slot in q.buffer ensures WasBuffered(q.results, q.buffer[slot]) {
      var i :| 0 <= i < |p.results| && p.results[i].decision == Buffered && p.results[i].event == p.buffer[slot];
      assert q.results[i] == p.results[i];
    }
  }

  lemma PopKeepsWaiting(p: Processor, slot: Slot)
    requires Kept(p) && slot in p.buffer
    ensures Kept(Popped(p, slot).after)
  {
    ApplyIs(p.(buffer := Without(p.buffer, slot)), p.buffer[slot]);
    StillKept(p, Popped(p, slot).after);
  }

  lemma DrainKeepsWaiting(p: Processor, payment: string)
    requires Kept(p)
    ensures Kept(Drain(p, payment).after)
  {
    var ok := (o: Outcome) => Kept(o.after);
    forall q: Processor, n: nat | IsNext(q, (payment, n)) && ok(Returned(q)) ensures ok(Popped(q, (payment, n))) {
      PopKeepsWaiting(q, (payment, n));
    }
    DrainPreserves(p, payment, ok);
  }

  lemma HoldKeepsWaiting(p: Processor, e: PaymentEvent, expected: nat)
    requires Kept(p)
    ensures Kept(Noted(Hold(Arrived(p, e), e), e, Buffered, expected))
  {
    var q := Noted(Hold(Arrived(p, e), e), e, Buffered, expected);
    forall slot: Slot | slot in q.buffer ensures WasBuffered(q.results, q.buffer[slot]) {
      if slot == (e.payment, e.sequence) {
        assert q.results[|p.results|] == Result(e, Buffered, expected);
      } else {
        var i :| 0 <= i < |p.results| && p.results[i].decision == Buffered && p.results[i].event == p.buffer[slot];
        assert q.results[i] == p.results[i];
      }
    }
  }

  lemma ReceiveKeepsWaiting(p: Processor, e: PaymentEvent)
    requires Kept(p)
    ensures Kept(Receive(p, e).after)
  {
    var p1, st := Arrived(p, e), StateOf(p, e.payment);
    if e.id in p.processedIds || e.sequence <= st.last || e.revision <= st.revision {
      SeenIs(p, e, if e.id in p.processedIds then Duplicate else Stale);
      StillKept(p, Receive(p, e).after);
    } else if e.sequence == st.last + 1 {
      ApplyIs(p1, e);
      StillKept(p, Apply(p1, e).after);
      if Apply(p1, e).Returned? {
        DrainKeepsWaiting(Apply(p1, e).after, e.payment);
      }
    } else if (e.payment, e.sequence) in p.buffer {
      ReceiveTakenIs(p, e);
      StillKept(p, Receive(p, e).after);
    } else {
      ReceiveEarlyIs(p, e);
      HoldKeepsWaiting(p, e, st.last + 1);
    }
  }

  /** In every state reached an event waits only under its own buffering. */
  lemma {:induction false} WaitingWasBuffered(opening: seq<Entry>, events: seq<PaymentEvent>)
    ensures Kept(Exec(opening, events).p)
    decreases |events|
  {
    if events != [] {
      WaitingWasBuffered(opening, events[..|events| - 1]);
      ReceiveKeepsWaiting(Exec(opening, events[..|events| - 1]).p, events[|events| - 1]);
    }
  }

  // ----- The decision -----

  /** What the decisions so far and the buffer say about a delivery; `n` steps of its payment have been applied. */
  ghost predicate Deserves(results: seq<Result>, buffer: map<Slot, PaymentEvent>, e: PaymentEvent, d: Decision) {
    var n := |Applied(results, e.payment)|;
    var known, first := e.id in AppliedIds(results), FirstProcessed(results, e.payment);
    match d
    case Duplicate => known
    case Stale => !known && e.sequence <= n
    case Buffered => !known && e.sequence > n + 1 && (e.payment, e.sequence) !in buffer
    case Rejected =>
      !known && if e.sequence > n + 1 then (e.payment, e.sequence) in buffer
                else e.sequence == n + 1 && first.Some? && first.value != e.cents
    case Processed => !known && e.sequence == n + 1 && (first.Some? ==> first.value == e.cents)
  }

  /** The first result that the delivery adds is about itself. */
  lemma DrainExtends(p: Processor, payment: string)
    ensures p.results <= Drain(p, payment).after.results
  {
    var ok := (o: Outcome) => p.results <= o.after.results;
    forall q: Processor, n: nat | IsNext(q, (payment, n)) && ok(Returned(q)) ensures ok(Popped(q, (payment, n))) {
      ApplyIs(q.(buffer := Without(q.buffer, (payment, n))), q.buffer[(payment, n)]);
    }
    DrainPreserves(p, payment, ok);
  }

  lemma NextDecides(p: Processor, e: PaymentEvent)
    requires Apply(p, e).Returned?
    ensures var results := ApplyAndDrain(p, e).after.results;
            && |results| > |p.results|
            && results[|p.results|] == Result(e, if Conflicts(p, e) then Rejected else Processed, StateOf(p, e.payment).last + 1)
  {
    ApplyIs(p, e);
    DrainExtends(Apply(p, e).after, e.payment);
  }

  /**
   As long as no settlement has been refused, a delivery gets the decision it
   deserves by the decisions before it, and the first result it adds says so,
   unless its own settlement is refused.
   */
  lemma DecidedAsDeserved(opening: seq<Entry>, events: seq<PaymentEvent>, e: PaymentEvent)
    requires Sound(opening) && ValidStream(events) && ValidEvent(e) && Exec(opening, events).refused == {}
    ensures var p := Exec(opening, events).p;
            var results := Receive(p, e).after.results;
            && p.results <= results
            && (|results| > |p.results| ==>
                  results[|p.results|].event == e && Deserves(p.results, p.buffer, e, results[|p.results|].decision))
            && (|results| == |p.results| ==> Receive(p, e).Raised?)
  {
    var p := Exec(opening, events).p;
    ExecInSequence(opening, events);
    ExecRemembers(opening, events);
    ExecKeeps(opening, events);
    RevisionIsLast(p, e.payment, opening, {});
    assert Sequenced(Applied(p.results, e.payment), StateOf(p, e.payment).last, false);
    DecidedFrom(p, e);
  }

  lemma DecidedFrom(p: Processor, e: PaymentEvent)
    requires ValidEvent(e) && Remembered(p) && StateOf(p, e.payment).revision == StateOf(p, e.payment).last
    requires StateOf(p, e.payment).cents == FirstProcessed(p.results, e.payment)
    requires Applied(p.results, e.payment) == UpTo(StateOf(p, e.payment).last)
    ensures var results := Receive(p, e).after.results;
            && p.results <= results
            && (|results| > |p.results| ==>
                  results[|p.results|].event == e && Deserves(p.results, p.buffer, e, results[|p.results|].decision))
            && (|results| == |p.results| ==> Receive(p, e).Raised?)
  {
    var p1 := Arrived(p, e);
    if e.id !in p.processedIds && e.sequence == StateOf(p, e.payment).last + 1 {
      assert StateOf(p1, e.payment) == StateOf(p, e.payment);
      ApplyIs(p1, e);
      if Apply(p1, e).Returned? {
        NextDecides(p1, e);
        DrainExtends(Apply(p1, e).after, e.payment);
      }
    }
  }
}
