/**
 The retry engine and the dead-letter engine, written independently, run in
 lock step on every workload without permanent reasons in which no doomed
 payment finds its identifier taken.
 */
module LockStep {
  import opened Wrappers
  import opened Scheduling
  import opened PaymentQueues
  import opened Submissions
  import opened DeadLetterInvariant
  import opened DeadLetterRuns
  import opened DeadLetterTheorems
  import opened RetryNaming
  import R = Retries
  import D = DeadLetters

  // ----- Corresponding states -----

  ghost predicate PaymentsMatch(x: R.Payment, y: D.Payment) {
    && y.submission.permanent.None?
    && x.id == y.submission.id && x.script == y.submission.failures && x.attempts == y.attempts
    && (x.outcome == Some(R.Succeeded) <==> y.completed)
    && (x.outcome == Some(R.PermanentlyFailed) <==> y.isolated)
  }

  /** The same attempt at the same time, with the same consequence. */
  ghost predicate AttemptsMatch(a: R.Attempt, b: D.Result) {
    && a.id == b.id && a.number == b.number && a.at == b.time
    && (a.succeeded <==> b.outcome == D.Succeeded)
    && (!a.succeeded && a.retryAt.Some? <==> b.outcome == D.RetryScheduled)
    && (!a.succeeded && a.retryAt.None? <==> b.outcome == D.MovedToDlq)
  }

  ghost predicate Match(g: R.State, h: D.State) {
    && g.limit == h.limit && g.delay == h.delay && g.pending == h.pending && g.effects == h.effects
    && |g.payments| == |h.payments| && |g.attempts| == |h.results|
    && (forall p :: 0 <= p < |g.payments| ==> PaymentsMatch(g.payments[p], h.payments[p]))
    && (forall i :: 0 <= i < |g.attempts| ==> AttemptsMatch(g.attempts[i], h.results[i]))
  }

  /** Queue, clock, pending events, jobs and logs are equal; the engines' own states match. */
  ghost predicate InStep(m: Retrier, n: Engine) {
    m.q == n.q && Match(m.g, n.g)
  }

  // ----- One attempt -----

  lemma AttemptPayment(g: R.State, h: D.State, p: nat, now: nat, ran: nat)
    requires Match(g, h) && p < |h.payments| && Fated(h.payments[p], h.limit, h.deadIds, 1, ran)
    requires Doomed(h.payments[p].submission, h.limit) ==> h.payments[p].submission.id !in h.deadIds
    ensures var a, b := R.Work(g, p, now), D.Work(h, p, now);
            && a.requests == b.requests
            && |a.state.payments| == |b.state.payments| == |g.payments|
            && a.state.limit == g.limit && b.state.limit == h.limit && a.state.delay == g.delay && b.state.delay == h.delay
            && a.state.pending == b.state.pending && a.state.effects == b.state.effects
            && PaymentsMatch(a.state.payments[p], b.state.payments[p])
            && (forall i :: 0 <= i < |g.payments| && i != p ==>
                  a.state.payments[i] == g.payments[i] && b.state.payments[i] == h.payments[i])
  {
    assert PaymentsMatch(g.payments[p], h.payments[p]);
  }

  lemma AttemptLogged(g: R.State, h: D.State, p: nat, now: nat, ran: nat)
    requires Match(g, h) && p < |h.payments| && Fated(h.payments[p], h.limit, h.deadIds, 1, ran)
    requires Doomed(h.payments[p].submission, h.limit) ==> h.payments[p].submission.id !in h.deadIds
    ensures var a, b := R.Work(g, p, now), D.Work(h, p, now);
            && |a.state.attempts| == |g.attempts| + 1 && |b.state.results| == |h.results| + 1
            && a.state.attempts[..|g.attempts|] == g.attempts && b.state.results[..|h.results|] == h.results
            && AttemptsMatch(a.state.attempts[|g.attempts|], b.state.results[|h.results|])
  {
    assert PaymentsMatch(g.payments[p], h.payments[p]);
  }

  lemma AttemptMatches(g: R.State, h: D.State, p: nat, now: nat, ran: nat)
    requires Match(g, h) && p < |h.payments| && Fated(h.payments[p], h.limit, h.deadIds, 1, ran)
    requires Doomed(h.payments[p].submission, h.limit) ==> h.payments[p].submission.id !in h.deadIds
    ensures R.Work(g, p, now).requests == D.Work(h, p, now).requests
    ensures Match(R.Work(g, p, now).state, D.Work(h, p, now).state)
  {
    AttemptPayment(g, h, p, now, ran);
    AttemptLogged(g, h, p, now, ran);
    var g', h' := R.Work(g, p, now).state, D.Work(h, p, now).state;
    MatchFrom(g, h, g', h', p);
  }

  lemma MatchFrom(g: R.State, h: D.State, g': R.State, h': D.State, p: nat)
    requires Match(g, h) && p < |g.payments| == |g'.payments| == |h'.payments|
    requires g'.limit == g.limit && h'.limit == h.limit && g'.delay == g.delay && h'.delay == h.delay
    requires g'.pending == h'.pending && g'.effects == h'.effects
    requires PaymentsMatch(g'.payments[p], h'.payments[p])
    requires forall i :: 0 <= i < |g.payments| && i != p ==>
               g'.payments[i] == g.payments[i] && h'.payments[i] == h.payments[i]
    requires |g'.attempts| == |g.attempts| + 1 && |h'.results| == |h.results| + 1
    requires g'.attempts[..|g.attempts|] == g.attempts && h'.results[..|h.results|] == h.results
    requires AttemptsMatch(g'.attempts[|g.attempts|], h'.results[|h.results|])
    ensures Match(g', h')
  {
    forall i | 0 <= i < |g'.attempts| ensures AttemptsMatch(g'.attempts[i], h'.results[i]) {
      if i < |g.attempts| {
        assert g'.attempts[..|g.attempts|][i] == g'.attempts[i] && h'.results[..|h.results|][i] == h'.results[i];
      }
    }
    forall i | 0 <= i < |g'.payments| ensures PaymentsMatch(g'.payments[i], h'.payments[i]) {
    }
  }

  // ----- Identifiers that are not taken -----

  /** No doomed payment finds its identifier taken, by another doomed one or from before. */
  ghost predicate Free(submissions: seq<Submission>, limit: nat, stored: seq<D.Entry>) {
    DoomedApart(submissions, limit) && DoomedNew(submissions, limit, stored)
  }

  ghost predicate FreeIds(n: Engine) {
    Free(Submitted(n.g.payments), n.g.limit, n.g.stored)
  }

  /** Then no unsettled payment finds it in the dead-letter queue. */
  lemma UnsettledIsFresh(m: Engine, p: nat)
    requires EngineInv(m) && p < |m.g.payments| && FreeIds(m)
    requires m.g.payments[p].attempts < Final(m.g.payments[p].submission, m.g.limit)
    requires Doomed(m.g.payments[p].submission, m.g.limit)
    ensures m.g.payments[p].submission.id !in m.g.deadIds
  {
    assert Fated(m.g.payments[p], m.g.limit, m.g.deadIds, Live(m.q)[p], multiset(m.g.effects)[p]);
    assert Submitted(m.g.payments)[p] == m.g.payments[p].submission;
    if m.g.payments[p].submission.id in m.g.deadIds {
      var r := OvertakenBySameId(m, p);
      SharedMeansTaken(m.g.payments, m.g.limit, p, r);
    }
  }

  lemma SharedMeansTaken(payments: seq<D.Payment>, limit: nat, p: nat, r: nat)
    requires p < |payments| && r < |payments| && p != r && payments[p].submission.id == payments[r].submission.id
    requires Doomed(payments[p].submission, limit) && Doomed(payments[r].submission, limit)
    ensures !DoomedApart(Submitted(payments), limit)
  {
    var i, j := Min(p, r), Max(p, r);
    assert Submitted(payments)[i].id == Submitted(payments)[j].id;
  }

  lemma ServeInStep(m: Retrier, n: Engine)
    requires InStep(m, n) && EngineInv(n) && n.q.waiting != [] && FreeIds(n)
    ensures InStep(Serve(m, R.CLIENT), Serve(n, D.CLIENT))
  {
    var p, now := n.q.jobs[n.q.waiting[0]].payment, n.q.agenda.now;
    ServeProgress(n);
    if Doomed(n.g.payments[p].submission, n.g.limit) {
      UnsettledIsFresh(n, p);
    }
    AttemptMatches(m.g, n.g, p, now, multiset(n.g.effects)[p]);
  }

  lemma {:induction false} ServeManyInStep(m: Retrier, n: Engine, k: nat)
    requires InStep(m, n) && EngineInv(n) && k <= |n.q.waiting| && FreeIds(n)
    ensures InStep(ServeMany(m, R.CLIENT, k), ServeMany(n, D.CLIENT, k))
    decreases k
  {
    if k > 0 {
      ServeInStep(m, n);
      ServeKeeps(n);
      ServeFree(n);
      ServeManyInStep(Serve(m, R.CLIENT), Serve(n, D.CLIENT), k - 1);
    }
  }

  lemma ServeFree(n: Engine)
    requires WellFormed(n.q) && n.q.waiting != [] && FreeIds(n)
    ensures FreeIds(Serve(n, D.CLIENT))
  {
    ServeSubmitted(n);
    ServeRoll(n);
  }

  lemma ServeSubmitted(n: Engine)
    requires WellFormed(n.q) && n.q.waiting != []
    ensures Submitted(Serve(n, D.CLIENT).g.payments) == Submitted(n.g.payments)
  {
    WorkSubmitted(n.g, n.q.jobs[n.q.waiting[0]].payment, n.q.agenda.now);
  }

  lemma TickInStep(m: Retrier, n: Engine)
    requires InStep(m, n) && EngineInv(n) && FreeIds(n)
    ensures InStep(ProcessTick(m, R.CLIENT), ProcessTick(n, D.CLIENT))
  {
    var q1 := n.q.(tickScheduled := false);
    assert Lined(q1) == Lined(n.q);
    ServeManyInStep(m.(q := q1), n.(q := q1), Min(n.q.capacity, |n.q.waiting|));
  }

  // ----- Callbacks -----

  lemma SubmitInStep(m: Retrier, n: Engine, s: Submission)
    requires InStep(m, n) && WellFormed(n.q) && s.permanent.None?
    ensures InStep(Perform(m, R.CLIENT, Submit(s)), Perform(n, D.CLIENT, Submit(s)))
  {
  }

  lemma RetryInStep(m: Retrier, n: Engine, p: nat, attempt: nat)
    requires InStep(m, n) && WellFormed(n.q)
    requires p < |n.g.payments| && !n.g.payments[p].isolated && !n.g.payments[p].completed
    ensures InStep(Perform(m, R.CLIENT, Retry(p, attempt)), Perform(n, D.CLIENT, Retry(p, attempt)))
  {
  }

  // ----- Events -----

  ghost predicate Plain(submissions: seq<Submission>) {
    forall i :: 0 <= i < |submissions| ==> submissions[i].permanent.None?
  }

  lemma AtInStep(m: Retrier, n: Engine, a: Agenda<Action<Callback>>)
    requires InStep(m, n) && WellFormed(n.q)
    ensures InStep(At(m, a), At(n, a))
  {
  }

  lemma StepTickInStep(m: Retrier, n: Engine)
    requires InStep(m, n) && EngineInv(n) && FreeIds(n)
    requires TakeNext(n.q.agenda).Due? && TakeNext(n.q.agenda).event.action.Tick?
    ensures InStep(Step(m, R.CLIENT), Step(n, D.CLIENT))
  {
    var rest := TakeNext(n.q.agenda).rest;
    OtherTaken(n);
    TickInStep(At(m, rest), At(n, rest));
  }

  lemma StepSubmitInStep(m: Retrier, n: Engine, s: Submission)
    requires InStep(m, n) && WellFormed(n.q) && s.permanent.None?
    requires TakeNext(n.q.agenda).Due? && TakeNext(n.q.agenda).event.action == Call(Submit(s))
    ensures InStep(Step(m, R.CLIENT), Step(n, D.CLIENT))
  {
    var rest := TakeNext(n.q.agenda).rest;
    SubmitInStep(At(m, rest), At(n, rest), s);
  }

  lemma StepRetryInStep(m: Retrier, n: Engine, p: nat, attempt: nat)
    requires InStep(m, n) && EngineInv(n)
    requires TakeNext(n.q.agenda).Due? && TakeNext(n.q.agenda).event.action == Call(Retry(p, attempt))
    ensures InStep(Step(m, R.CLIENT), Step(n, D.CLIENT))
  {
    var rest := TakeNext(n.q.agenda).rest;
    RetryLive(n, p, attempt);
    LiveIsUnsettled(n.g, Live(n.q), |Retrying(n.q.agenda)|, p);
    RetryInStep(At(m, rest), At(n, rest), p, attempt);
  }

  lemma StepInStep(m: Retrier, n: Engine)
    requires InStep(m, n) && Inv(n) && FreeIds(n) && Plain(Coming(n.q.agenda))
    ensures InStep(Step(m, R.CLIENT), Step(n, D.CLIENT))
    ensures Plain(Coming(Step(n, D.CLIENT).q.agenda))
  {
    StepPlain(n);
    if n.q.agenda.queue != [] {
      TakeNextValid(n.q.agenda);
      match n.q.agenda.queue[0].action {
        case Tick => StepTickInStep(m, n);
        case Call(Submit(s)) =>
          TakeRetries(n.q.agenda);
          assert Coming(n.q.agenda)[0] == s;
          StepSubmitInStep(m, n, s);
        case Call(Retry(p, attempt)) => StepRetryInStep(m, n, p, attempt);
      }
    }
  }

  /** What is still to come after an event is a suffix of what was to come before. */
  lemma StepPlain(n: Engine)
    requires Inv(n) && Plain(Coming(n.q.agenda))
    ensures Plain(Coming(Step(n, D.CLIENT).q.agenda))
  {
    if n.q.agenda.queue != [] {
      TakeNextValid(n.q.agenda);
      StepRoll(n);
      SubmittedGrows(n, RunNext);
      RollSuffix(Submitted(n.g.payments), Coming(n.q.agenda),
                 Submitted(Step(n, D.CLIENT).g.payments), Coming(Step(n, D.CLIENT).q.agenda));
    }
  }

  lemma RollSuffix(a: seq<Submission>, x: seq<Submission>, b: seq<Submission>, y: seq<Submission>)
    requires a + x == b + y && a <= b && Plain(x)
    ensures Plain(y)
  {
    assert forall i :: 0 <= i < |y| ==> y[i] == (b + y)[|b| + i] == x[|b| - |a| + i];
  }

  /** Submissions are only ever added at the end. */
  lemma SubmittedGrows(n: Engine, op: Op<Callback>)
    requires WellFormed(n.q) && Submits(op)
    ensures Submitted(n.g.payments) <= Submitted(Do(n, D.CLIENT, op).g.payments)
  {
    match op
    case CallNow(x) => SubmitRoll(n, x.submission);
    case ScheduleCall(_, _) =>
    case AdvanceClock(_) =>
    case RunNext =>
      match TakeNext(n.q.agenda) {
        case Due(e, rest) => EventGrows(At(n, rest), e);
        case _ =>
      }
  }

  lemma EventGrows(n: Engine, e: Event<Action<Callback>>)
    requires WellFormed(n.q)
    ensures Submitted(n.g.payments) <=
            Submitted((if e.action.Tick? then ProcessTick(n, D.CLIENT) else Perform(n, D.CLIENT, e.action.callback)).g.payments)
  {
    match e.action
    case Tick => TickSubmitted(n);
    case Call(Submit(s)) => SubmitRoll(n, s);
    case Call(Retry(p, attempt)) =>
  }

  lemma {:induction false} ServeManySubmitted(n: Engine, k: nat)
    requires WellFormed(n.q) && k <= |n.q.waiting|
    ensures Submitted(ServeMany(n, D.CLIENT, k).g.payments) == Submitted(n.g.payments)
    decreases k
  {
    if k > 0 {
      ServeSubmitted(n);
      ServeManySubmitted(Serve(n, D.CLIENT), k - 1);
    }
  }

  lemma TickSubmitted(n: Engine)
    requires WellFormed(n.q)
    ensures Submitted(ProcessTick(n, D.CLIENT).g.payments) == Submitted(n.g.payments)
  {
    ServeManySubmitted(n.(q := n.q.(tickScheduled := false)), Min(n.q.capacity, |n.q.waiting|));
  }

  lemma FreeBefore(x: seq<Submission>, y: seq<Submission>, limit: nat, stored: seq<D.Entry>)
    requires x <= y && Free(y, limit, stored)
    ensures Free(x, limit, stored)
  {
  }

  lemma DoSetup(n: Engine, op: Op<Callback>)
    requires Inv(n) && Submits(op)
    ensures SameSetup(n, Do(n, D.CLIENT, op))
  {
    match op
    case CallNow(x) => SubmitRoll(n, x.submission);
    case ScheduleCall(_, _) =>
    case AdvanceClock(_) =>
    case RunNext =>
      if n.q.agenda.queue != [] {
        TakeNextValid(n.q.agenda);
      }
      StepRoll(n);
  }

  // ----- Runs -----

  ghost predicate PlainOp(op: Op<Callback>) {
    op.RunNext? || op.AdvanceClock? || (op.callback.Submit? && op.callback.submission.permanent.None?)
  }

  ghost predicate PlainOps(ops: seq<Op<Callback>>) {
    && OnlySubmissions(ops)
    && forall i :: 0 <= i < |ops| ==> PlainOp(ops[i])
  }

  function BeginRetries(capacity: nat, limit: nat, delay: nat, now: nat): Retrier {
    Machine(PaymentQueues.Create(capacity, Start(now)), R.Create(limit, delay))
  }

  lemma ScheduleInStep(m: Retrier, n: Engine, t: int, s: Submission)
    requires InStep(m, n) && WellFormed(n.q) && Plain(Coming(n.q.agenda)) && s.permanent.None?
    requires ScheduleAt(n.q.agenda, t, Call(Submit(s))).Some?
    ensures var a := ScheduleAt(n.q.agenda, t, Call(Submit(s))).value; InStep(At(m, a), At(n, a)) && Plain(Coming(a))
  {
    var call: Action<Callback> := Call(Submit(s));
    var a := ScheduleAt(n.q.agenda, t, call).value;
    AtInStep(m, n, a);
    var x, y := CollectSplit(n.q.agenda.queue, Event(t, n.q.agenda.nextOrder, call), SubmissionOf);
    assert Coming(a) == x + [s] + y;
    assert forall i :: 0 <= i < |x| ==> x[i] == Coming(n.q.agenda)[i];
    assert forall i :: 0 <= i < |y| ==> y[i] == Coming(n.q.agenda)[|x| + i];
  }

  lemma DoInStep(m: Retrier, n: Engine, op: Op<Callback>)
    requires InStep(m, n) && Inv(n) && FreeIds(n) && Plain(Coming(n.q.agenda))
    requires PlainOp(op)
    ensures InStep(Do(m, R.CLIENT, op), Do(n, D.CLIENT, op))
    ensures Plain(Coming(Do(n, D.CLIENT, op).q.agenda))
  {
    match op
    case CallNow(x) =>
      SubmitInStep(m, n, x.submission);
      SubmitRoll(n, x.submission);
    case ScheduleCall(t, x) =>
      if ScheduleAt(n.q.agenda, t, Call(x)).Some? { ScheduleInStep(m, n, t, x.submission); }
    case AdvanceClock(t) => AtInStep(m, n, Advance(n.q.agenda, t));
    case RunNext => StepInStep(m, n);
  }

  lemma {:induction false} ExecInStep(m: Retrier, n: Engine, ops: seq<Op<Callback>>)
    requires InStep(m, n) && Inv(n) && Plain(Coming(n.q.agenda)) && PlainOps(ops)
    requires FreeIds(Exec(n, D.CLIENT, ops))
    ensures InStep(Exec(m, R.CLIENT, ops), Exec(n, D.CLIENT, ops))
    ensures Plain(Coming(Exec(n, D.CLIENT, ops).q.agenda))
    decreases |ops|
  {
    if ops != [] {
      var init, op := ops[..|ops| - 1], ops[|ops| - 1];
      ExecKeeps(n, init);
      FreeOneBefore(Exec(n, D.CLIENT, init), op);
      ExecInStep(m, n, init);
      DoInStep(Exec(m, R.CLIENT, init), Exec(n, D.CLIENT, init), op);
    }
  }

  lemma FreeOneBefore(n: Engine, op: Op<Callback>)
    requires Inv(n) && Submits(op) && FreeIds(Do(n, D.CLIENT, op))
    ensures FreeIds(n)
  {
    DoSetup(n, op);
    SubmittedGrows(n, op);
    FreeBefore(Submitted(n.g.payments), Submitted(Do(n, D.CLIENT, op).g.payments), n.g.limit, n.g.stored);
  }

  /**
   Lock step: on the same operations without permanent reasons, with the same
   capacity, limit and delay, and as long as no doomed payment finds its
   identifier taken, the two engines hold the same queue and the same pending
   events at every boundary, make the same attempts at the same times, and a
   payment fails permanently in one exactly when it is isolated in the other.
   */
  lemma EnginesInStep(capacity: nat, limit: nat, delay: nat, now: nat, stored: seq<D.Entry>, ops: seq<Op<Callback>>)
    requires capacity > 0 && PlainOps(ops) && D.OncePerId(stored)
    requires FreeIds(Exec(Begin(capacity, limit, delay, now, stored), D.CLIENT, ops))
    ensures InStep(Exec(BeginRetries(capacity, limit, delay, now), R.CLIENT, ops),
                   Exec(Begin(capacity, limit, delay, now, stored), D.CLIENT, ops))
  {
    BeginInv(capacity, limit, delay, now, stored);
    ExecInStep(BeginRetries(capacity, limit, delay, now), Begin(capacity, limit, delay, now, stored), ops);
  }

  lemma RetrySettled(m: Retrier, n: Engine, p: nat)
    requires InStep(m, n) && Inv(n) && n.q.agenda.queue == [] && p < |m.g.payments| && FreeIds(n)
    ensures var x := m.g.payments[p];
            && x.attempts == Min(|x.script|, m.g.limit) + 1
            && x.outcome == Some(if |x.script| <= m.g.limit then R.Succeeded else R.PermanentlyFailed)
            && multiset(m.g.effects)[p] == (if |x.script| <= m.g.limit then 1 else 0)
  {
    IdleSettles(n, p);
    assert PaymentsMatch(m.g.payments[p], n.g.payments[p]);
    if !n.g.payments[p].completed && !n.g.payments[p].isolated {
      LeftOverShares(n, p, Submitted(n.g.payments));
    }
  }
}
