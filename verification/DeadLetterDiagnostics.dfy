/** What a dead-letter entry says about the payment it stands for. */
module DeadLetterDiagnostics {
  import opened Wrappers
  import opened PaymentQueues
  import opened Submissions
  import opened DeadLetters
  import Scheduling

  /** The entry is a true snapshot of the isolated payment: who, why, after how many retries, with which message. */
  ghost predicate Diagnoses(e: Entry, x: Payment) {
    var s := x.submission;
    && x.isolated
    && e.id == s.id && e.requestId == s.requestId && e.state == s.state && e.retryCount == x.retryCount
    && match s.permanent
       case Some(reason) =>
         && e.reason == reason
         && e.diagnostic == if s.diagnostic.Some? && s.diagnostic.value != "" then s.diagnostic.value else ReasonText(reason)
       case None =>
         && e.reason == RetryLimitExceeded
         && 1 <= x.attempts <= |s.failures| && e.diagnostic == s.failures[x.attempts - 1]
  }

  ghost predicate Diagnosed(e: Entry, payments: seq<Payment>) {
    exists p :: 0 <= p < |payments| && Diagnoses(e, payments[p])
  }

  /** What was stored before is still there; every other entry diagnoses a payment of this processor. */
  ghost predicate AllDiagnosed(g: State) {
    && g.stored <= g.entries
    && forall i :: |g.stored| <= i < |g.entries| ==> Diagnosed(g.entries[i], g.payments)
  }

  /** A payment that is isolated stays as it is. */
  lemma UpdateKeeps(e: Entry, payments: seq<Payment>, p: nat, x: Payment)
    requires Diagnosed(e, payments) && p < |payments| && !payments[p].isolated
    ensures Diagnosed(e, payments[p := x])
  {
    var q :| 0 <= q < |payments| && Diagnoses(e, payments[q]);
    assert payments[p := x][q] == payments[q];
  }

  lemma AppendKeeps(e: Entry, payments: seq<Payment>, x: Payment)
    requires Diagnosed(e, payments)
    ensures Diagnosed(e, payments + [x])
  {
    var q :| 0 <= q < |payments| && Diagnoses(e, payments[q]);
    assert (payments + [x])[q] == payments[q];
  }

  lemma AllUpdated(g: State, g': State, p: nat, x: Payment)
    requires AllDiagnosed(g) && p < |g.payments| && !g.payments[p].isolated
    requires g'.payments == g.payments[p := x] && g'.entries == g.entries && g'.stored == g.stored
    ensures AllDiagnosed(g')
  {
    forall i | |g'.stored| <= i < |g'.entries| ensures Diagnosed(g'.entries[i], g'.payments) {
      UpdateKeeps(g.entries[i], g.payments, p, x);
    }
  }

  lemma OneMoreDiagnosed(g: State, g': State, p: nat, x: Payment, e: Entry)
    requires AllDiagnosed(g) && p < |g.payments| && !g.payments[p].isolated && Diagnoses(e, x)
    requires g'.payments == g.payments[p := x] && g'.entries == g.entries + [e] && g'.stored == g.stored
    ensures AllDiagnosed(g')
  {
    forall i | |g'.stored| <= i < |g'.entries| ensures Diagnosed(g'.entries[i], g'.payments) {
      if i < |g.entries| {
        UpdateKeeps(g.entries[i], g.payments, p, x);
      } else {
        assert g'.payments[p] == x;
      }
    }
  }

  lemma WorkDiagnosed(g: State, p: nat, now: nat)
    requires AllDiagnosed(g)
    ensures AllDiagnosed(Work(g, p, now).state)
  {
    if p < |g.payments| && !g.payments[p].isolated && !g.payments[p].completed {
      var g' := Work(g, p, now).state;
      var x := g'.payments[p];
      assert g'.payments == g.payments[p := x];
      if |g'.entries| > |g.entries| {
        OneMoreDiagnosed(g, g', p, x, g'.entries[|g.entries|]);
      } else {
        AllUpdated(g, g', p, x);
      }
    }
  }

  lemma CallDiagnosed(g: State, x: Callback, now: nat)
    requires AllDiagnosed(g)
    ensures AllDiagnosed(DeadLetters.Call(g, x, now).state)
  {
    if x.Submit? {
      var g' := DeadLetters.Call(g, x, now).state;
      forall i | |g'.stored| <= i < |g'.entries| ensures Diagnosed(g'.entries[i], g'.payments) {
        AppendKeeps(g.entries[i], g.payments, Payment(x.submission, 0, 0, false, false));
      }
    }
  }

  lemma {:induction false} ServeManyDiagnosed(m: Machine<State, Callback>, n: nat)
    requires WellFormed(m.q) && n <= |m.q.waiting| && AllDiagnosed(m.g)
    ensures AllDiagnosed(ServeMany(m, CLIENT, n).g)
    decreases n
  {
    if n > 0 {
      WorkDiagnosed(m.g, m.q.jobs[m.q.waiting[0]].payment, m.q.agenda.now);
      ServeManyDiagnosed(Serve(m, CLIENT), n - 1);
    }
  }

  lemma DoDiagnosed(m: Machine<State, Callback>, op: Op<Callback>)
    requires WellFormed(m.q) && AllDiagnosed(m.g)
    ensures AllDiagnosed(Do(m, CLIENT, op).g)
  {
    match op
    case CallNow(x) => CallDiagnosed(m.g, x, m.q.agenda.now);
    case ScheduleCall(_, _) =>
    case AdvanceClock(_) =>
    case RunNext => StepDiagnosed(m);
  }

  lemma TickDiagnosed(m: Machine<State, Callback>)
    requires WellFormed(m.q) && AllDiagnosed(m.g)
    ensures AllDiagnosed(ProcessTick(m, CLIENT).g)
  {
    ServeManyDiagnosed(m.(q := m.q.(tickScheduled := false)), Min(m.q.capacity, |m.q.waiting|));
  }

  lemma StepDiagnosed(m: Machine<State, Callback>)
    requires WellFormed(m.q) && AllDiagnosed(m.g)
    ensures AllDiagnosed(Step(m, CLIENT).g)
  {
    match Scheduling.TakeNext(m.q.agenda)
    case Empty =>
    case Late(_) =>
    case Due(e, rest) =>
      match e.action {
        case Tick => TickDiagnosed(At(m, rest));
        case Call(x) => CallDiagnosed(m.g, x, rest.now);
      }
  }

  /** In every reachable state each dead-letter entry added is a true snapshot of an isolated payment. */
  lemma {:induction false} EntriesAreTrue(capacity: nat, limit: nat, delay: nat, now: nat, stored: seq<Entry>,
                                          ops: seq<Op<Callback>>)
    ensures AllDiagnosed(Exec(Machine(PaymentQueues.Create(capacity, Scheduling.Start(now)), DeadLetters.Create(limit, delay, stored)), CLIENT, ops).g)
    decreases |ops|
  {
    var m := Machine(PaymentQueues.Create(capacity, Scheduling.Start(now)), DeadLetters.Create(limit, delay, stored));
    if ops != [] {
      EntriesAreTrue(capacity, limit, delay, now, stored, ops[..|ops| - 1]);
      DoDiagnosed(Exec(m, CLIENT, ops[..|ops| - 1]), ops[|ops| - 1]);
    }
  }
}
