/**
 What every run of the dead-letter engine comes to: how many attempts each
 payment makes, whether its work runs, and when it ends up isolated.
 */
module DeadLetterTheorems {
  import opened Wrappers
  import opened Scheduling
  import opened PaymentQueues
  import opened Submissions
  import opened DeadLetters
  import opened DeadLetterInvariant
  import opened DeadLetterRuns
  import QueueLatency

  // ----- No submission is lost -----

  ghost function Submitted(payments: seq<Payment>): (r: seq<Submission>)
    ensures |r| == |payments|
  {
    seq(|payments|, i requires 0 <= i < |payments| => payments[i].submission)
  }

  /** Everything submitted so far or scheduled to be submitted, in the order of submission. */
  ghost function Roll(m: Engine): seq<Submission> {
    Submitted(m.g.payments) + Coming(m.q.agenda)
  }

  ghost predicate SameSetup(m: Engine, r: Engine) {
    r.g.limit == m.g.limit && r.g.stored == m.g.stored
  }

  lemma WorkSubmitted(g: State, p: nat, now: nat)
    ensures Submitted(Work(g, p, now).state.payments) == Submitted(g.payments)
    ensures Work(g, p, now).state.limit == g.limit && Work(g, p, now).state.stored == g.stored
    ensures OnlyRetries(Work(g, p, now).requests)
  {
  }

  lemma ServeRoll(m: Engine)
    requires WellFormed(m.q) && m.q.waiting != []
    ensures Roll(Serve(m, CLIENT)) == Roll(m) && SameSetup(m, Serve(m, CLIENT))
  {
    var p, now := m.q.jobs[m.q.waiting[0]].payment, m.q.agenda.now;
    WorkSubmitted(m.g, p, now);
    ScheduleAllComing(m.q.agenda, Work(m.g, p, now).requests);
  }

  lemma {:induction false} ServeManyRoll(m: Engine, n: nat)
    requires WellFormed(m.q) && n <= |m.q.waiting|
    ensures Roll(ServeMany(m, CLIENT, n)) == Roll(m) && SameSetup(m, ServeMany(m, CLIENT, n))
    decreases n
  {
    if n > 0 {
      ServeRoll(m);
      ServeManyRoll(Serve(m, CLIENT), n - 1);
    }
  }

  lemma TickRoll(m: Engine)
    requires WellFormed(m.q)
    ensures Roll(ProcessTick(m, CLIENT)) == Roll(m) && SameSetup(m, ProcessTick(m, CLIENT))
  {
    var m1 := m.(q := m.q.(tickScheduled := false));
    ServeManyRoll(m1, Min(m.q.capacity, |m.q.waiting|));
    WakeComing(ServeMany(m1, CLIENT, Min(m.q.capacity, |m.q.waiting|)).q);
  }

  lemma SubmitRoll(m: Engine, s: Submission)
    requires WellFormed(m.q)
    ensures Submitted(Perform(m, CLIENT, Submit(s)).g.payments) == Submitted(m.g.payments) + [s]
    ensures Coming(Perform(m, CLIENT, Submit(s)).q.agenda) == Coming(m.q.agenda)
    ensures SameSetup(m, Perform(m, CLIENT, Submit(s)))
  {
    SubmitEnqueues(m, s);
    EnqueueComing(m.q, |m.g.payments|);
  }

  lemma RetryRoll(m: Engine, p: nat, attempt: nat)
    requires WellFormed(m.q)
    ensures Roll(Perform(m, CLIENT, Retry(p, attempt))) == Roll(m)
    ensures SameSetup(m, Perform(m, CLIENT, Retry(p, attempt)))
  {
    EnqueueAllOne(m.q, p);
    EnqueueComing(m.q, p);
  }

  lemma StepTickRoll(m: Engine)
    requires WellFormed(m.q) && TakeNext(m.q.agenda).Due? && TakeNext(m.q.agenda).event.action.Tick?
    ensures Roll(Step(m, CLIENT)) == Roll(m) && SameSetup(m, Step(m, CLIENT))
  {
    TakeRetries(m.q.agenda);
    TickRoll(At(m, TakeNext(m.q.agenda).rest));
  }

  lemma StepSubmitRoll(m: Engine, s: Submission)
    requires WellFormed(m.q) && TakeNext(m.q.agenda).Due? && TakeNext(m.q.agenda).event.action == Call(Submit(s))
    ensures Roll(Step(m, CLIENT)) == Roll(m) && SameSetup(m, Step(m, CLIENT))
  {
    TakeRetries(m.q.agenda);
    SubmitRoll(At(m, TakeNext(m.q.agenda).rest), s);
  }

  lemma StepRetryRoll(m: Engine, p: nat, attempt: nat)
    requires WellFormed(m.q) && TakeNext(m.q.agenda).Due? && TakeNext(m.q.agenda).event.action == Call(Retry(p, attempt))
    ensures Roll(Step(m, CLIENT)) == Roll(m) && SameSetup(m, Step(m, CLIENT))
  {
    TakeRetries(m.q.agenda);
    RetryRoll(At(m, TakeNext(m.q.agenda).rest), p, attempt);
  }

  lemma StepRoll(m: Engine)
    requires WellFormed(m.q)
    requires m.q.agenda.queue != [] ==> TakeNext(m.q.agenda).Due?
    ensures Roll(Step(m, CLIENT)) == Roll(m) && SameSetup(m, Step(m, CLIENT))
  {
    if m.q.agenda.queue != [] {
      match m.q.agenda.queue[0].action {
        case Tick => StepTickRoll(m);
        case Call(Submit(s)) => StepSubmitRoll(m, s);
        case Call(Retry(p, attempt)) => StepRetryRoll(m, p, attempt);
      }
    }
  }

  lemma {:induction false} RunRoll(m: Engine)
    requires Inv(m)
    ensures Submitted(Run(m).g.payments) == Roll(m) && SameSetup(m, Run(m))
    decreases LoadAsNat(m)
  {
    if m.q.agenda.queue == [] {
      assert Coming(m.q.agenda) == [];
    } else {
      TakeNextValid(m.q.agenda);
      StepRoll(m);
      StepKeeps(m);
      LoadIsNat(m);
      LoadIsNat(Step(m, CLIENT));
      RunRoll(Step(m, CLIENT));
    }
  }

  // ----- Isolated payments and their identifiers -----

  lemma {:induction false} DeadIdHasOwner(payments: seq<Payment>, id: string) returns (p: nat)
    requires IsolatedIds(payments)[id] > 0
    ensures p < |payments| && payments[p].isolated && payments[p].submission.id == id
    decreases |payments|
  {
    var last := |payments| - 1;
    if payments[last].isolated && payments[last].submission.id == id {
      p := last;
    } else {
      assert OwnDeadId(payments[last])[id] == 0;
      p := DeadIdHasOwner(payments[..last], id);
    }
  }

  lemma {:induction false} OwnerCounts(payments: seq<Payment>, p: nat)
    requires p < |payments| && payments[p].isolated
    ensures IsolatedIds(payments)[payments[p].submission.id] >= 1
    decreases |payments|
  {
    if p < |payments| - 1 {
      OwnerCounts(payments[..|payments| - 1], p);
    }
  }

  lemma {:induction false} TwoOwnersCount(payments: seq<Payment>, p: nat, r: nat)
    requires p < r < |payments| && payments[p].isolated && payments[r].isolated
    requires payments[p].submission.id == payments[r].submission.id
    ensures IsolatedIds(payments)[payments[p].submission.id] >= 2
    decreases |payments|
  {
    var init := payments[..|payments| - 1];
    if r < |init| {
      TwoOwnersCount(init, p, r);
    } else {
      OwnerCounts(init, p);
    }
  }

  lemma NewIdIsOwned(g: State, id: string)
    requires Registry(g) && id in g.deadIds && id !in EntryIds(g.stored)
    ensures IsolatedIds(g.payments)[id] > 0
  {
    assert multiset(EntryIds(g.entries))[id] == 1;
  }

  /** An isolated payment's identifier counts once, and was not there before. */
  lemma IsolatedIdCounts(g: State, id: string)
    requires Registry(g)
    ensures IsolatedIds(g.payments)[id] <= 1
    ensures IsolatedIds(g.payments)[id] == 1 ==> id !in EntryIds(g.stored)
  {
    assert multiset(EntryIds(g.entries))[id] <= 1;
    assert multiset(EntryIds(g.entries))[id] == multiset(EntryIds(g.stored))[id] + IsolatedIds(g.payments)[id];
  }

  // ----- The outcome of a run -----

  /** The payment's last word: all its attempts made, its work run once or never. */
  ghost predicate Settled(x: Payment, s: Submission, limit: nat, ran: nat) {
    && x.submission == s
    && x.attempts == Final(s, limit) && x.retryCount == Final(s, limit) - 1
    && (x.completed <==> !Doomed(s, limit))
    && (x.isolated ==> Doomed(s, limit))
    && ran == if Doomed(s, limit) then 0 else 1
  }

  /** The payment's identifier was in the dead-letter queue before the processor was created. */
  ghost predicate Stored(id: string, stored: seq<Entry>) {
    id in EntryIds(stored)
  }

  /** No doomed submission carries an identifier that was stored before. */
  ghost predicate DoomedNew(roll: seq<Submission>, limit: nat, stored: seq<Entry>) {
    forall i :: 0 <= i < |roll| && Doomed(roll[i], limit) ==> !Stored(roll[i].id, stored)
  }

  /** No two doomed submissions carry the same payment identifier. */
  ghost predicate DoomedApart(roll: seq<Submission>, limit: nat) {
    forall i, j :: 0 <= i < j < |roll| && Doomed(roll[i], limit) && Doomed(roll[j], limit) ==> roll[i].id != roll[j].id
  }

  lemma IdleSettles(m: Engine, p: nat)
    requires Inv(m) && m.q.agenda.queue == [] && p < |m.g.payments|
    ensures Settled(m.g.payments[p], m.g.payments[p].submission, m.g.limit, multiset(m.g.effects)[p])
    ensures Doomed(m.g.payments[p].submission, m.g.limit) ==> m.g.payments[p].submission.id in m.g.deadIds
  {
    assert |QueueLatency.Ticks(m.q.agenda)| == 0;
    assert Lined(m.q) == [] && Retrying(m.q.agenda) == [];
    assert Fated(m.g.payments[p], m.g.limit, m.g.deadIds, Live(m.q)[p], multiset(m.g.effects)[p]);
  }

  /** A doomed payment that is not isolated lost its place in the dead-letter queue to another of the same identifier. */
  lemma OvertakenBySameId(m: Engine, p: nat) returns (r: nat)
    requires EngineInv(m) && p < |m.g.payments| && !m.g.payments[p].isolated
    requires m.g.payments[p].submission.id in m.g.deadIds && !Stored(m.g.payments[p].submission.id, m.g.stored)
    ensures r < |m.g.payments| && r != p && m.g.payments[r].isolated
    ensures m.g.payments[r].submission.id == m.g.payments[p].submission.id
    ensures Doomed(m.g.payments[r].submission, m.g.limit)
  {
    NewIdIsOwned(m.g, m.g.payments[p].submission.id);
    r := DeadIdHasOwner(m.g.payments, m.g.payments[p].submission.id);
    assert Fated(m.g.payments[r], m.g.limit, m.g.deadIds, Live(m.q)[r], multiset(m.g.effects)[r]);
  }

  lemma SameIdNeverBoth(m: Engine, p: nat, r: nat)
    requires EngineInv(m) && p < r < |m.g.payments|
    requires m.g.payments[p].isolated && m.g.payments[r].isolated
    ensures m.g.payments[p].submission.id != m.g.payments[r].submission.id
  {
    IsolatedIdCounts(m.g, m.g.payments[p].submission.id);
    if m.g.payments[p].submission.id == m.g.payments[r].submission.id {
      TwoOwnersCount(m.g.payments, p, r);
    }
  }

  lemma StoredIdNeverIsolated(m: Engine, p: nat)
    requires EngineInv(m) && p < |m.g.payments| && m.g.payments[p].isolated
    ensures !Stored(m.g.payments[p].submission.id, m.g.stored)
  {
    OwnerCounts(m.g.payments, p);
    IsolatedIdCounts(m.g, m.g.payments[p].submission.id);
  }

  /**
   Every run ends, with every submission, made or scheduled, settled in the
   order of submission: one attempt if permanently unprocessable, otherwise one
   more than the failures or the retry limit, whichever is less; its work run
   exactly once if it completed, never otherwise.
   */
  lemma EveryRunSettles(m: Engine)
    requires Inv(m)
    ensures var r := Run(m);
            && r.q.agenda.queue == [] && r.g.pending == 0
            && |r.g.payments| == |Roll(m)|
            && forall p :: 0 <= p < |Roll(m)| ==>
                 Settled(r.g.payments[p], Roll(m)[p], m.g.limit, multiset(r.g.effects)[p])
  {
    var r := Run(m);
    RunRoll(m);
    assert Retrying(r.q.agenda) == [];
    forall p | 0 <= p < |Roll(m)|
      ensures Settled(r.g.payments[p], Roll(m)[p], m.g.limit, multiset(r.g.effects)[p])
    {
      assert Submitted(r.g.payments)[p] == Roll(m)[p];
      IdleSettles(r, p);
    }
  }

  ghost predicate AllSettledSomewhere(payments: seq<Payment>) {
    forall p :: 0 <= p < |payments| ==> payments[p].completed || payments[p].isolated
  }

  /**
   Every payment ends completed or isolated, never both, if and only if no two
   doomed submissions carry the same identifier and none carries one that was
   stored before: the dead-letter queue keeps only the first entry of an
   identifier, and the other payments are left in neither state.
   */
  lemma EverybodyAccountedIff(m: Engine)
    requires Inv(m)
    ensures forall p :: 0 <= p < |Run(m).g.payments| ==> !(Run(m).g.payments[p].completed && Run(m).g.payments[p].isolated)
    ensures AllSettledSomewhere(Run(m).g.payments) <==>
            DoomedApart(Roll(m), m.g.limit) && DoomedNew(Roll(m), m.g.limit, m.g.stored)
  {
    NeverBoth(m);
    RunRoll(m);
    if DoomedApart(Roll(m), m.g.limit) && DoomedNew(Roll(m), m.g.limit, m.g.stored) {
      ApartMeansSettled(m, Run(m));
    }
    if AllSettledSomewhere(Run(m).g.payments) {
      SettledMeansApart(m);
      SettledMeansNew(m);
    }
  }

  lemma NeverBoth(m: Engine)
    requires Inv(m)
    ensures forall p :: 0 <= p < |Run(m).g.payments| ==> !(Run(m).g.payments[p].completed && Run(m).g.payments[p].isolated)
  {
    EveryRunSettles(m);
  }

  lemma DoomedIsIsolated(m: Engine, i: nat)
    requires Inv(m) && i < |Roll(m)| && Doomed(Roll(m)[i], m.g.limit) && AllSettledSomewhere(Run(m).g.payments)
    ensures i < |Run(m).g.payments| && Run(m).g.payments[i].isolated && Run(m).g.payments[i].submission == Roll(m)[i]
  {
    EveryRunSettles(m);
    assert Settled(Run(m).g.payments[i], Roll(m)[i], m.g.limit, multiset(Run(m).g.effects)[i]);
  }

  lemma SettledMeansApart(m: Engine)
    requires Inv(m) && AllSettledSomewhere(Run(m).g.payments)
    ensures DoomedApart(Roll(m), m.g.limit)
  {
    forall i, j | 0 <= i < j < |Roll(m)| && Doomed(Roll(m)[i], m.g.limit) && Doomed(Roll(m)[j], m.g.limit)
      ensures Roll(m)[i].id != Roll(m)[j].id
    {
      DoomedIsIsolated(m, i);
      DoomedIsIsolated(m, j);
      SameIdNeverBoth(Run(m), i, j);
    }
  }

  lemma SettledMeansNew(m: Engine)
    requires Inv(m) && AllSettledSomewhere(Run(m).g.payments)
    ensures DoomedNew(Roll(m), m.g.limit, m.g.stored)
  {
    RunRoll(m);
    forall i | 0 <= i < |Roll(m)| && Doomed(Roll(m)[i], m.g.limit) ensures !Stored(Roll(m)[i].id, m.g.stored) {
      DoomedIsIsolated(m, i);
      StoredIdNeverIsolated(Run(m), i);
    }
  }

  lemma LeftOverShares(r: Engine, p: nat, roll: seq<Submission>)
    requires Inv(r) && r.q.agenda.queue == [] && p < |r.g.payments| && Submitted(r.g.payments) == roll
    requires !r.g.payments[p].completed && !r.g.payments[p].isolated
    ensures !DoomedApart(roll, r.g.limit) || !DoomedNew(roll, r.g.limit, r.g.stored)
  {
    IdleSettles(r, p);
    assert roll[p] == Submitted(r.g.payments)[p];
    if !Stored(roll[p].id, r.g.stored) {
      var other := OvertakenBySameId(r, p);
      assert roll[other] == Submitted(r.g.payments)[other];
      var i, j := Min(p, other), Max(p, other);
      assert Doomed(roll[i], r.g.limit) && Doomed(roll[j], r.g.limit) && roll[i].id == roll[j].id;
    }
  }

  lemma ApartMeansSettled(m: Engine, r: Engine)
    requires Inv(r) && r.q.agenda.queue == [] && r.g.limit == m.g.limit && Submitted(r.g.payments) == Roll(m)
    requires DoomedApart(Roll(m), m.g.limit) && DoomedNew(Roll(m), m.g.limit, r.g.stored)
    ensures AllSettledSomewhere(r.g.payments)
  {
    forall p | 0 <= p < |r.g.payments| ensures r.g.payments[p].completed || r.g.payments[p].isolated {
      if !r.g.payments[p].completed && !r.g.payments[p].isolated {
        LeftOverShares(r, p, Roll(m));
      }
    }
  }

  lemma CallTwice(b: Engine, x: Callback, y: Callback)
    requires WellFormed(b.q)
    ensures Exec(b, CLIENT, [CallNow(x), CallNow(y)]) == Perform(Perform(b, CLIENT, x), CLIENT, y)
  {
    var ops := [CallNow(x), CallNow(y)];
    assert ops[..1] == [CallNow(x)] && [CallNow(x)][..0] == [];
    assert Exec(b, CLIENT, [CallNow(x)]) == Do(Exec(b, CLIENT, []), CLIENT, CallNow(x));
  }

  lemma RollTwice(b: Engine, s: Submission, t: Submission)
    requires WellFormed(b.q) && b.g.payments == [] && b.q.agenda.queue == []
    ensures Roll(Perform(Perform(b, CLIENT, Submit(s)), CLIENT, Submit(t))) == [s, t]
    ensures SameSetup(b, Perform(Perform(b, CLIENT, Submit(s)), CLIENT, Submit(t)))
  {
    SubmitRoll(b, s);
    SubmitRoll(Perform(b, CLIENT, Submit(s)), t);
    assert Submitted(b.g.payments) == [] && Coming(b.q.agenda) == [];
  }

  lemma SubmittedTwice(s: Submission, t: Submission, limit: nat) returns (m: Engine)
    ensures m == Exec(Begin(1, limit, 2, 0, []), CLIENT, [CallNow(Submit(s)), CallNow(Submit(t))])
    ensures Inv(m) && Roll(m) == [s, t] && m.g.limit == limit
  {
    var b := Begin(1, limit, 2, 0, []);
    BeginInv(1, limit, 2, 0, []);
    m := Exec(b, CLIENT, [CallNow(Submit(s)), CallNow(Submit(t))]);
    ExecKeeps(b, [CallNow(Submit(s)), CallNow(Submit(t))]);
    CallTwice(b, Submit(s), Submit(t));
    RollTwice(b, s, t);
  }

  function Invalid(id: string, request: string): Submission {
    Submission(id, request, [], Some(InvalidPayment), Validated, None)
  }

  lemma InvalidIsDoomed(id: string, request: string, limit: nat)
    ensures Doomed(Invalid(id, request), limit)
  {
  }

  lemma ShareOne(m: Engine, s: Submission, t: Submission)
    requires Inv(m) && Roll(m) == [s, t] && s.id == t.id && Doomed(s, m.g.limit) && Doomed(t, m.g.limit)
    ensures !AllSettledSomewhere(Run(m).g.payments)
  {
    assert Roll(m)[0] == s && Roll(m)[1] == t;
    EverybodyAccountedIff(m);
  }

  lemma ComeSecond(m: Engine, s: Submission)
    requires Inv(m) && Roll(m) == [s] && Doomed(s, m.g.limit) && Stored(s.id, m.g.stored)
    ensures !AllSettledSomewhere(Run(m).g.payments)
  {
    assert Roll(m)[0] == s;
    EverybodyAccountedIff(m);
  }

  /** Two permanently invalid payments under one identifier: one of them ends neither completed nor isolated. */
  lemma SharedIdentifierExample()
    ensures var m := Exec(Begin(1, 2, 2, 0, []), CLIENT,
                          [CallNow(Submit(Invalid("PAY-1", "REQ-1"))), CallNow(Submit(Invalid("PAY-1", "REQ-2")))]);
            Inv(m) && !AllSettledSomewhere(Run(m).g.payments)
  {
    var m := SubmittedTwice(Invalid("PAY-1", "REQ-1"), Invalid("PAY-1", "REQ-2"), 2);
    InvalidIsDoomed("PAY-1", "REQ-1", 2);
    InvalidIsDoomed("PAY-1", "REQ-2", 2);
    ShareOne(m, Invalid("PAY-1", "REQ-1"), Invalid("PAY-1", "REQ-2"));
  }

  lemma SubmittedOnce(s: Submission, limit: nat, stored: seq<Entry>) returns (m: Engine)
    requires OncePerId(stored)
    ensures m == Exec(Begin(1, limit, 2, 0, stored), CLIENT, [CallNow(Submit(s))])
    ensures Inv(m) && Roll(m) == [s] && m.g.limit == limit && m.g.stored == stored
  {
    var b := Begin(1, limit, 2, 0, stored);
    BeginInv(1, limit, 2, 0, stored);
    m := Exec(b, CLIENT, [CallNow(Submit(s))]);
    ExecKeeps(b, [CallNow(Submit(s))]);
    CallOnce(b, Submit(s));
    RollOnce(b, s);
  }

  lemma CallOnce(b: Engine, x: Callback)
    requires WellFormed(b.q)
    ensures Exec(b, CLIENT, [CallNow(x)]) == Perform(b, CLIENT, x)
  {
    assert [CallNow(x)][..0] == [];
    assert Exec(b, CLIENT, []) == b;
  }

  lemma RollOnce(b: Engine, s: Submission)
    requires WellFormed(b.q) && b.g.payments == [] && b.q.agenda.queue == []
    ensures Roll(Perform(b, CLIENT, Submit(s))) == [s] && SameSetup(b, Perform(b, CLIENT, Submit(s)))
  {
    SubmitRoll(b, s);
    assert Submitted(b.g.payments) == [] && Coming(b.q.agenda) == [];
  }

  function StoredEntry(): Entry {
    Entry("PAY-1", "REQ-0", InvalidPayment, 0, 0, Validated, "Invalid payment")
  }

  lemma StoredEntryIsStored()
    ensures OncePerId([StoredEntry()]) && Stored("PAY-1", [StoredEntry()])
  {
    assert EntryIds([StoredEntry()])[0] == "PAY-1";
  }

  /** A dead-letter queue that already holds the identifier: one doomed submission ends neither completed nor isolated. */
  lemma StoredIdentifierExample()
    ensures var m := Exec(Begin(1, 2, 2, 0, [StoredEntry()]), CLIENT, [CallNow(Submit(Invalid("PAY-1", "REQ-1")))]);
            Inv(m) && !AllSettledSomewhere(Run(m).g.payments)
  {
    StoredEntryIsStored();
    var m := SubmittedOnce(Invalid("PAY-1", "REQ-1"), 2, [StoredEntry()]);
    InvalidIsDoomed("PAY-1", "REQ-1", 2);
    ComeSecond(m, Invalid("PAY-1", "REQ-1"));
  }

  // ----- Conservation -----

  ghost function Count(payments: seq<Payment>, limit: nat): (nat, nat, nat)
  {
    if payments == [] then (0, 0, 0)
    else
      var x := payments[|payments| - 1];
      var (done, dead, stuck) := Count(payments[..|payments| - 1], limit);
      (done + (if x.completed then 1 else 0),
       dead + (if x.isolated then 1 else 0),
       stuck + (if !x.completed && !x.isolated && x.attempts == Final(x.submission, limit) then 1 else 0))
  }

  lemma {:induction false} CountAll(payments: seq<Payment>, limit: nat)
    requires forall p :: 0 <= p < |payments| ==>
               var x := payments[p];
               && x.attempts <= Final(x.submission, limit)
               && !(x.completed && x.isolated)
               && (x.completed || x.isolated ==> x.attempts == Final(x.submission, limit))
    ensures var (done, dead, stuck) := Count(payments, limit);
            |payments| == done + dead + stuck + Unsettled(payments, limit)
    decreases |payments|
  {
    if payments != [] {
      CountAll(payments[..|payments| - 1], limit);
    }
  }

  lemma {:induction false} CountDead(payments: seq<Payment>, limit: nat)
    ensures |IsolatedIds(payments)| == Count(payments, limit).1
    decreases |payments|
  {
    if payments != [] {
      CountDead(payments[..|payments| - 1], limit);
    }
  }

  /**
   At every event boundary each submitted payment is completed, isolated,
   queued, waiting for a retry, or left over because its identifier is taken;
   the retry counter counts the pending retry events, and the dead-letter
   queue has gained one entry for each isolated payment.
   */
  lemma Conservation(capacity: nat, limit: nat, delay: nat, now: nat, stored: seq<Entry>, ops: seq<Op<Callback>>)
    requires capacity > 0 && OncePerId(stored) && OnlySubmissions(ops)
    ensures var m := Exec(Begin(capacity, limit, delay, now, stored), CLIENT, ops);
            var (done, dead, stuck) := Count(m.g.payments, m.g.limit);
            && |m.g.payments| == done + dead + stuck + |m.q.waiting| + |Retrying(m.q.agenda)|
            && m.g.pending == |Retrying(m.q.agenda)|
            && m.g.stored <= m.g.entries && |m.g.entries| == |m.g.stored| + dead
  {
    BeginInv(capacity, limit, delay, now, stored);
    ExecKeeps(Begin(capacity, limit, delay, now, stored), ops);
    Conserved(Exec(Begin(capacity, limit, delay, now, stored), CLIENT, ops));
  }

  lemma Conserved(m: Engine)
    requires EngineInv(m)
    ensures var (done, dead, stuck) := Count(m.g.payments, m.g.limit);
            && |m.g.payments| == done + dead + stuck + |m.q.waiting| + |Retrying(m.q.agenda)|
            && m.g.pending == |Retrying(m.q.agenda)|
            && m.g.stored <= m.g.entries && |m.g.entries| == |m.g.stored| + dead
  {
    LiveCount(m);
    forall p | 0 <= p < |m.g.payments|
      ensures var x := m.g.payments[p];
              && x.attempts <= Final(x.submission, m.g.limit)
              && !(x.completed && x.isolated)
              && (x.completed || x.isolated ==> x.attempts == Final(x.submission, m.g.limit))
    {
      assert Fated(m.g.payments[p], m.g.limit, m.g.deadIds, Live(m.q)[p], multiset(m.g.effects)[p]);
    }
    CountAll(m.g.payments, m.g.limit);
    CountDead(m.g.payments, m.g.limit);
    assert |multiset(EntryIds(m.g.entries))| == |m.g.entries|;
  }

  /** A payment is left over only if its identifier was stored before, or beside an isolated payment of that identifier. */
  lemma LeftOverOnlyBySharedId(capacity: nat, limit: nat, delay: nat, now: nat, stored: seq<Entry>, ops: seq<Op<Callback>>, p: nat)
    requires capacity > 0 && OncePerId(stored) && OnlySubmissions(ops)
    requires var m := Exec(Begin(capacity, limit, delay, now, stored), CLIENT, ops);
             && p < |m.g.payments| && !m.g.payments[p].completed && !m.g.payments[p].isolated
             && m.g.payments[p].attempts == Final(m.g.payments[p].submission, m.g.limit)
    ensures var m := Exec(Begin(capacity, limit, delay, now, stored), CLIENT, ops);
            || Stored(m.g.payments[p].submission.id, m.g.stored)
            || exists r :: 0 <= r < |m.g.payments| && r != p && m.g.payments[r].isolated
                           && m.g.payments[r].submission.id == m.g.payments[p].submission.id
  {
    BeginInv(capacity, limit, delay, now, stored);
    ExecKeeps(Begin(capacity, limit, delay, now, stored), ops);
    var m := Exec(Begin(capacity, limit, delay, now, stored), CLIENT, ops);
    assert Fated(m.g.payments[p], m.g.limit, m.g.deadIds, Live(m.q)[p], multiset(m.g.effects)[p]);
    if !Stored(m.g.payments[p].submission.id, m.g.stored) {
      var r := OvertakenBySameId(m, p);
    }
  }
}
