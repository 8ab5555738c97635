/** What the re-ordering processor posts: on which account, when, and how much in all. */
module OrderingPostings {
  import opened Wrappers
  import opened Ledgers
  import opened Ordering
  import opened OrderingInvariant

  /** The entry debits the one account for a completing event that has been applied, at its arrival. */
  ghost predicate PostedFor(entry: Entry, results: seq<Result>) {
    && entry.account == "HCCU-DEMO-001" && entry.kind == Debit
    && exists i :: 0 <= i < |results| && Completes(results[i], entry)
  }

  ghost predicate Completes(r: Result, entry: Entry) {
    && r.decision == Processed && r.event.sequence == 4
    && entry.id == Settlement(r.event.payment) && entry.cents == r.event.cents && entry.postedAt == r.event.arrival
  }

  ghost predicate AllPosted(p: Processor, opening: seq<Entry>) {
    && opening <= p.entries
    && forall i :: |opening| <= i < |p.entries| ==> PostedFor(p.entries[i], p.results)
  }

  /** Further results take nothing away. */
  lemma StillPosted(p: Processor, q: Processor, opening: seq<Entry>)
    requires AllPosted(p, opening) && q.entries == p.entries && p.results <= q.results
    ensures AllPosted(q, opening)
  {
    forall i | |opening| <= i < |q.entries| ensures PostedFor(q.entries[i], q.results) {
      MoreResults(p.entries[i], p.results, q.results);
    }
  }

  lemma MoreResults(entry: Entry, results: seq<Result>, more: seq<Result>)
    requires PostedFor(entry, results) && results <= more
    ensures PostedFor(entry, more)
  {
    var i :| 0 <= i < |results| && Completes(results[i], entry);
    assert Completes(more[i], entry);
  }

  lemma NewlyPosted(p: Processor, q: Processor, opening: seq<Entry>, r: Result, entry: Entry)
    requires AllPosted(p, opening) && q.entries == p.entries + [entry] && q.results == p.results + [r]
    requires Completes(r, entry) && entry.account == "HCCU-DEMO-001" && entry.kind == Debit
    ensures AllPosted(q, opening)
  {
    forall i | |opening| <= i < |q.entries| ensures PostedFor(q.entries[i], q.results) {
      if i < |p.entries| {
        MoreResults(p.entries[i], p.results, q.results);
      } else {
        assert Completes(q.results[|p.results|], entry);
      }
    }
  }

  lemma ApplyPosts(p: Processor, e: PaymentEvent, opening: seq<Entry>)
    requires AllPosted(p, opening)
    ensures AllPosted(Apply(p, e).after, opening) && Apply(p, e).after.buffer == p.buffer
  {
    var q := Apply(p, e).after;
    if q.entries == p.entries {
      StillPosted(p, q, opening);
    } else {
      NewlyPosted(p, q, opening, q.results[|p.results|], q.entries[|p.entries|]);
    }
  }

  lemma DrainPosts(p: Processor, payment: string, opening: seq<Entry>)
    requires AllPosted(p, opening)
    ensures AllPosted(Drain(p, payment).after, opening)
  {
    var ok := (o: Outcome) => AllPosted(o.after, opening);
    forall q: Processor, n: nat | IsNext(q, (payment, n)) && ok(Returned(q)) ensures ok(Popped(q, (payment, n))) {
      ApplyPosts(q.(buffer := Without(q.buffer, (payment, n))), q.buffer[(payment, n)], opening);
    }
    DrainPreserves(p, payment, ok);
  }

  lemma ReceivePosts(p: Processor, e: PaymentEvent, opening: seq<Entry>)
    requires AllPosted(p, opening)
    ensures AllPosted(Receive(p, e).after, opening)
  {
    var p1 := Arrived(p, e);
    if Receive(p, e) == ApplyAndDrain(p1, e) {
      ApplyPosts(p1, e, opening);
      if Apply(p1, e).Returned? {
        DrainPosts(Apply(p1, e).after, e.payment, opening);
      }
    } else {
      StillPosted(p, Receive(p, e).after, opening);
    }
  }

  lemma {:induction false} ExecPosts(opening: seq<Entry>, events: seq<PaymentEvent>)
    ensures AllPosted(Exec(opening, events).p, opening)
    decreases |events|
  {
    if events != [] {
      ExecPosts(opening, events[..|events| - 1]);
      ReceivePosts(Exec(opening, events[..|events| - 1]).p, events[|events| - 1], opening);
    }
  }

  // ----- The accounts -----

  /** What the payments cost together, each by its first applied event. */
  ghost function FirstAmounts(results: seq<Result>, payments: seq<string>): int {
    if payments == [] then 0
    else
      var first := FirstProcessed(results, payments[|payments| - 1]);
      FirstAmounts(results, payments[..|payments| - 1]) + (if first.Some? then first.value else 0)
  }

  /** The payments are different, and just those that were settled now. */
  ghost predicate SettledNow(payments: seq<string>, p: Processor, refused: set<string>) {
    && (forall i, j :: 0 <= i < j < |payments| ==> payments[i] != payments[j])
    && forall payment :: payment in payments <==> StateOf(p, payment).last == 4 && payment !in refused
  }

  ghost function PaymentsOf(entries: seq<Entry>): seq<string> {
    seq(|entries|, i requires 0 <= i < |entries| => if entries[i].id.Settlement? then entries[i].id.payment else "")
  }

  lemma {:induction false} AccountFalls(entries: seq<Entry>, opening: seq<Entry>, results: seq<Result>, account: string)
    requires opening <= entries
    requires forall i :: |opening| <= i < |entries| ==>
               && entries[i].account == "HCCU-DEMO-001" && entries[i].kind == Debit && entries[i].id.Settlement?
               && FirstProcessed(results, entries[i].id.payment) == Some(entries[i].cents)
    ensures AccountBalance(entries, account) == AccountBalance(opening, account) -
              if account == "HCCU-DEMO-001" then FirstAmounts(results, PaymentsOf(entries[|opening|..])) else 0
    decreases |entries|
  {
    if |entries| == |opening| {
      assert entries == opening;
    } else {
      var init, last := entries[..|entries| - 1], entries[|entries| - 1];
      AccountFalls(init, opening, results, account);
      assert PaymentsOf(entries[|opening|..]) == PaymentsOf(init[|opening|..]) + [last.id.payment];
      var payments := PaymentsOf(entries[|opening|..]);
      assert payments[..|payments| - 1] == PaymentsOf(init[|opening|..]);
    }
  }

  lemma TailSettles(p: Processor, opening: seq<Entry>, refused: set<string>, i: nat)
    requires Settlements(p, opening, refused) && i < |p.entries| - |opening|
    ensures Settles(p, p.entries[|opening|..][i], refused)
  {
    assert p.entries[|opening|..][i] == p.entries[|opening| + i];
  }

  lemma SettledOnce(p: Processor, opening: seq<Entry>, refused: set<string>)
    requires Settlements(p, opening, refused)
    ensures var payments := PaymentsOf(p.entries[|opening|..]);
            forall i, j :: 0 <= i < j < |payments| ==> payments[i] != payments[j]
  {
    var tail := p.entries[|opening|..];
    var payments := PaymentsOf(tail);
    forall i, j | 0 <= i < j < |payments| ensures payments[i] != payments[j] {
      assert tail[i].id != tail[j].id;
      TailSettles(p, opening, refused, i);
      TailSettles(p, opening, refused, j);
    }
  }

  lemma SettledIsListed(p: Processor, opening: seq<Entry>, refused: set<string>, payment: string)
    requires Settlements(p, opening, refused) && States(p) && StateOf(p, payment).last == 4 && payment !in refused
    ensures payment in PaymentsOf(p.entries[|opening|..])
  {
    assert NewlySettled(p, opening, payment);
    assert forall k :: 0 <= k < |opening| ==> opening[k] == p.entries[k];
    var i :| 0 <= i < |p.entries| && p.entries[i].id == Settlement(payment);
    assert PaymentsOf(p.entries[|opening|..])[i - |opening|] == payment;
  }

  lemma TailIsSettledNow(p: Processor, opening: seq<Entry>, refused: set<string>)
    requires Settlements(p, opening, refused) && States(p)
    ensures SettledNow(PaymentsOf(p.entries[|opening|..]), p, refused)
  {
    var tail := p.entries[|opening|..];
    var payments := PaymentsOf(tail);
    SettledOnce(p, opening, refused);
    forall payment | StateOf(p, payment).last == 4 && payment !in refused ensures payment in payments {
      SettledIsListed(p, opening, refused, payment);
    }
    forall payment | payment in payments ensures StateOf(p, payment).last == 4 && payment !in refused {
      var i :| 0 <= i < |payments| && payments[i] == payment;
      TailSettles(p, opening, refused, i);
    }
  }

  /**
   After any stream, on any ledger: what is added debits HCCU-DEMO-001, each
   entry for a completing event that was applied, at the time it arrived; that
   account falls by the first applied amounts of the payments settled now, and
   every other account stays as it was.
   */
  lemma PostingsAre(opening: seq<Entry>, events: seq<PaymentEvent>) returns (payments: seq<string>)
    requires Sound(opening) && ValidStream(events)
    ensures var Run(p, refused) := Exec(opening, events);
            && opening <= p.entries
            && (forall i :: |opening| <= i < |p.entries| ==> PostedFor(p.entries[i], p.results))
            && SettledNow(payments, p, refused)
            && AccountBalance(p.entries, "HCCU-DEMO-001") ==
               AccountBalance(opening, "HCCU-DEMO-001") - FirstAmounts(p.results, payments)
            && forall other :: other != "HCCU-DEMO-001" ==> AccountBalance(p.entries, other) == AccountBalance(opening, other)
  {
    var Run(p, refused) := Exec(opening, events);
    ExecPosts(opening, events);
    ExecKeeps(opening, events);
    ReachableIsSound(opening, events);
    TailIsSettledNow(p, opening, refused);
    payments := PaymentsOf(p.entries[|opening|..]);
    forall account
      ensures AccountBalance(p.entries, account) == AccountBalance(opening, account) -
                if account == "HCCU-DEMO-001" then FirstAmounts(p.results, payments) else 0
    {
      AccountFalls(p.entries, opening, p.results, account);
    }
  }
}
