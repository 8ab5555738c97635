/** In every state the retry engine reaches, its attempts, retries and events are what the jobs and the scripts say. */
module RetryHistory {
  import opened Wrappers
  import opened Scheduling
  import opened PaymentQueues
  import opened QueueLatency
  import opened QueueTurns
  import opened Submissions
  import RetryNaming
  import opened RetryDiary
  import opened RetryTimeline
  import opened LockStep
  import S = DeadLetterRuns
  import R = Retries

  type Retrier = RetryNaming.Retrier

  ghost predicate Written(m: Retrier) {
    First(m.q) >= 0 && Diary(m.q.jobs, First(m.q), m.q.agenda.queue, m.g) && Timeline(m.q.jobs, m.g, m.q.agenda.now)
  }

  lemma WrittenFrame(m: Retrier, n: Retrier)
    requires Written(m) && n.g == m.g && n.q.jobs == m.q.jobs && First(n.q) == First(m.q)
    requires m.q.agenda.now <= n.q.agenda.now && SameRetries(m.q.agenda.queue, n.q.agenda.queue)
    ensures Written(n)
  {
    DiaryFrame(m.q.jobs, First(m.q), m.q.agenda.queue, n.q.agenda.queue, m.g);
  }

  // ----- A job is served -----

  lemma ServeWrites(m: Retrier)
    requires Fifo(m.q) && Clocked(m.q) && m.q.waiting != [] && Written(m)
    ensures Written(Serve(m, R.CLIENT))
  {
    var k := First(m.q);
    ServeIs(m, R.CLIENT);
    var n, p, now := Serve(m, R.CLIENT), m.q.jobs[k].payment, m.q.agenda.now;
    var requests := R.Work(m.g, p, now).requests;
    ServedTurns(m.q.jobs, k, n.q.jobs, m.q.agenda.queue, Tried(m.g.payments), m.g.limit);
    WorkAttempts(m.g, p, now);
    RequestsPend(m.q.agenda, requests);
    AttemptDiary(m.q.jobs, k, n.q.jobs, m.q.agenda.queue, n.q.agenda.queue, m.g, n.g, now, requests);
    WorkTells(m.g, p, now);
    AttemptTimeline(m.q.jobs, n.q.jobs, m.g, n.g, now);
  }

  lemma {:induction false} ServeManyWrites(m: Retrier, n: nat)
    requires Fifo(m.q) && Clocked(m.q) && n <= |m.q.waiting| && Written(m)
    ensures Written(ServeMany(m, R.CLIENT, n))
    decreases n
  {
    if n > 0 {
      ServeOne(m, R.CLIENT);
      ServeWrites(m);
      ServeManyWrites(Serve(m, R.CLIENT), n - 1);
    }
  }

  lemma WakeWrites(m: Retrier)
    requires Valid(m.q.agenda) && Written(m)
    ensures Written(m.(q := Wake(m.q)))
  {
    if !m.q.tickScheduled {
      ScheduleAfterValid(m.q.agenda, 1, Tick);
      WrittenFrame(m, m.(q := Wake(m.q)));
    }
  }

  lemma TickWrites(m: Retrier)
    requires Fifo(m.q) && Clocked(m.q) && Written(m)
    ensures Written(ProcessTick(m, R.CLIENT))
  {
    var m1, n := m.(q := m.q.(tickScheduled := false)), Min(m.q.capacity, |m.q.waiting|);
    ServeManyWrites(m1, n);
    ServeManyFifo(m1, R.CLIENT, n);
    WakeWrites(ServeMany(m1, R.CLIENT, n));
  }

  // ----- A job joins -----

  lemma JoinWrites(m: Retrier, p: nat, g': R.State)
    requires WellFormed(m.q) && Valid(m.q.agenda) && First(m.q) >= 0
    requires Diary(m.q.jobs + [Joining(m.q, p)], First(m.q), m.q.agenda.queue, g')
    requires Timeline(m.q.jobs + [Joining(m.q, p)], g', m.q.agenda.now)
    ensures Written(Machine(Enqueue(m.q, p), g'))
  {
    WakeWrites(Machine(Join(m.q, p), g'));
  }

  lemma {:induction false} JoinedDiary(jobs: seq<Job>, first: nat, events: Events, g: R.State, g': R.State, j: Job)
    requires AttemptsTold(jobs, g) && AllRedeemed(jobs, events, g.attempts) && |g.attempts| == first
    requires SamePayments(g, g') && g'.attempts == g.attempts
    requires Turns(jobs + [j], first, events, Tried(g'.payments), g'.limit)
    ensures Diary(jobs + [j], first, events, g')
  {
    ToldContinues(jobs, jobs + [j], g, g');
    RedeemedContinues(jobs, jobs + [j], events, events, g.attempts);
  }

  lemma {:induction false} SubmitKeepsDiary(jobs: seq<Job>, first: nat, events: Events, g: R.State, s: Submission,
                                            now: nat, j: Job)
    requires Diary(jobs, first, events, g) && j.payment == |g.payments|
    ensures Diary(jobs + [j], first, events, R.Call(g, Submit(s), now).state)
  {
    var g' := R.Call(g, Submit(s), now).state;
    SubmittedTurns(jobs, first, events, Tried(g.payments), g.limit, j);
    assert Tried(g'.payments) == Tried(g.payments) + [0];
    JoinedDiary(jobs, first, events, g, g', j);
  }

  lemma {:induction false} SubmitKeepsTimeline(jobs: seq<Job>, first: nat, events: Events, g: R.State, s: Submission,
                                               now: nat, j: Job)
    requires Diary(jobs, first, events, g) && Timeline(jobs, g, now) && j.payment == |g.payments| && j.queuedAt == now
    ensures Timeline(jobs + [j], R.Call(g, Submit(s), now).state, now)
  {
    NeverVisited(jobs, |jobs|, j.payment);
    VisitsContinue(jobs, jobs + [j], |jobs|, j.payment);
    ArrivalTimeline(jobs, j, g, R.Call(g, Submit(s), now).state, now, R.RetryEvent(now, R.Queued, s.id, None));
  }

  lemma SubmitWrites(m: Retrier, s: Submission)
    requires WellFormed(m.q) && Valid(m.q.agenda) && Written(m)
    ensures Written(Perform(m, R.CLIENT, Submit(s)))
  {
    var p, now := |m.g.payments|, m.q.agenda.now;
    SubmitKeepsDiary(m.q.jobs, First(m.q), m.q.agenda.queue, m.g, s, now, Joining(m.q, p));
    SubmitKeepsTimeline(m.q.jobs, First(m.q), m.q.agenda.queue, m.g, s, now, Joining(m.q, p));
    PerformIs(m, R.CLIENT, Submit(s), p);
    JoinWrites(m, p, R.Call(m.g, Submit(s), now).state);
  }

  // ----- A retry falls due -----

  /** The attempt whose retry was taken is answered by the job that joins; all others as before. */
  lemma {:induction false} RetryRedeemed(jobs: seq<Job>, events: Events, events': Events, attempts: seq<R.Attempt>,
                                         e: Event<Action<Callback>>, j: Job)
    requires AllRedeemed(jobs, events, attempts) && IsRetry(e) && OneRetryLess(events, events', e)
    requires j.payment == e.action.callback.payment && j.queuedAt == e.time
    requires e.action.callback.attempt == Visits(jobs, |jobs|, j.payment)
    ensures AllRedeemed(jobs + [j], events', attempts)
  {
    var jobs' := jobs + [j];
    forall i | 0 <= i < |attempts| ensures Redeemed(attempts[i], jobs'[i].payment, jobs', events') {
      var a, p := attempts[i], jobs[i].payment;
      assert Redeemed(a, p, jobs, events);
      if a.retryAt.Some? {
        if Outstanding(a, p, events) {
          var f :| f in events && f.action == Call(Retry(p, a.number)) && Some(f.time) == a.retryAt;
          if f == e {
            VisitsContinue(jobs, jobs', |jobs|, p);
            assert Answers(a, p, jobs', |jobs|);
          } else {
            assert IsRetry(f) && f in events';
          }
        } else {
          AnswerContinues(a, p, jobs, jobs');
        }
      }
    }
  }

  lemma {:induction false} RetryKeepsDiary(jobs: seq<Job>, first: nat, events: Events, events': Events, g: R.State,
                                           e: Event<Action<Callback>>, j: Job)
    requires Diary(jobs, first, events, g) && e in events && IsRetry(e) && OneRetryLess(events, events', e)
    requires j.payment == e.action.callback.payment && j.queuedAt == e.time
    ensures Diary(jobs + [j], first, events', R.Call(g, e.action.callback, e.time).state)
  {
    var g' := R.Call(g, e.action.callback, e.time).state;
    RetriedTurns(jobs, first, events, events', Tried(g.payments), g.limit, e, j);
    assert Tried(g'.payments) == Tried(g.payments);
    RetryRedeemed(jobs, events, events', g.attempts, e, j);
    ToldContinues(jobs, jobs + [j], g, g');
  }

  lemma {:induction false} RetryKeepsTimeline(jobs: seq<Job>, first: nat, events: Events, g: R.State,
                                              e: Event<Action<Callback>>, now: nat, j: Job)
    requires Diary(jobs, first, events, g) && Timeline(jobs, g, now) && now <= e.time && e in events && IsRetry(e)
    requires j.payment == e.action.callback.payment && j.queuedAt == e.time
    ensures Timeline(jobs + [j], R.Call(g, e.action.callback, e.time).state, e.time)
  {
    var Retry(p, n) := e.action.callback;
    assert RetryInTurn(e, jobs, Tried(g.payments), g.limit);
    VisitsContinue(jobs, jobs + [j], |jobs|, p);
    ArrivalTimeline(jobs, j, g, R.Call(g, e.action.callback, e.time).state, e.time,
                    R.RetryEvent(e.time, R.RetryDue, g.payments[p].id, Some(n + 1)));
  }

  lemma RetryWrites(m: Retrier, rest: Agenda<Action<Callback>>, e: Event<Action<Callback>>)
    requires WellFormed(m.q) && Written(m) && Valid(rest) && rest.now == e.time && m.q.agenda.now <= e.time
    requires e in m.q.agenda.queue && IsRetry(e) && OneRetryLess(m.q.agenda.queue, rest.queue, e)
    ensures Written(Perform(At(m, rest), R.CLIENT, e.action.callback))
  {
    var n, p := At(m, rest), e.action.callback.payment;
    assert RetryInTurn(e, m.q.jobs, Tried(m.g.payments), m.g.limit);
    RetryKeepsDiary(m.q.jobs, First(m.q), m.q.agenda.queue, rest.queue, m.g, e, Joining(n.q, p));
    RetryKeepsTimeline(m.q.jobs, First(m.q), m.q.agenda.queue, m.g, e, m.q.agenda.now, Joining(n.q, p));
    PerformIs(n, R.CLIENT, e.action.callback, p);
    JoinWrites(n, p, R.Call(m.g, e.action.callback, e.time).state);
  }

  // ----- Operations -----

  lemma RecordWrites(m: Retrier, e: Event<Action<Callback>>)
    requires WellFormed(m.q) && Written(m)
    ensures Written(Recorded(m, e))
  {
    WrittenFrame(m, Recorded(m, e));
  }

  lemma TickStepWrites(m: Retrier)
    requires Inv(m.q) && Written(m) && TakeNext(m.q.agenda).Due? && TakeNext(m.q.agenda).event.action.Tick?
    ensures Written(Step(m, R.CLIENT))
  {
    var Due(e, rest) := TakeNext(m.q.agenda);
    TakeNextValid(m.q.agenda);
    TickTaken(m.q);
    WrittenFrame(m, At(m, rest));
    TickWrites(At(m, rest));
    RecordWrites(ProcessTick(At(m, rest), R.CLIENT), e);
  }

  lemma CallWrites(m: Retrier, rest: Agenda<Action<Callback>>, e: Event<Action<Callback>>)
    requires Inv(m.q) && Written(m) && TakeNext(m.q.agenda) == Due(e, rest) && e.action.Call?
    ensures Written(Perform(At(m, rest), R.CLIENT, e.action.callback))
  {
    TakeNextValid(m.q.agenda);
    match e.action.callback {
      case Submit(s) =>
        WrittenFrame(m, At(m, rest));
        SubmitWrites(At(m, rest), s);
      case Retry(_, _) => RetryWrites(m, rest, e);
    }
  }

  lemma CallStepWrites(m: Retrier)
    requires Inv(m.q) && Written(m) && TakeNext(m.q.agenda).Due? && TakeNext(m.q.agenda).event.action.Call?
    ensures Written(Step(m, R.CLIENT))
  {
    var Due(e, rest) := TakeNext(m.q.agenda);
    CallStepIs(m, R.CLIENT);
    CallWrites(m, rest, e);
    RecordWrites(Perform(At(m, rest), R.CLIENT, e.action.callback), e);
  }

  lemma StepWrites(m: Retrier)
    requires Inv(m.q) && Written(m)
    ensures Written(Step(m, R.CLIENT))
  {
    if m.q.agenda.queue != [] {
      TakeNextValid(m.q.agenda);
      if m.q.agenda.queue[0].action.Tick? {
        TickStepWrites(m);
      } else {
        CallStepWrites(m);
      }
    }
  }

  lemma DoWrites(m: Retrier, op: Op<Callback>)
    requires Inv(m.q) && Written(m) && S.Submits(op)
    ensures Written(Do(m, R.CLIENT, op))
  {
    match op
    case CallNow(x) => SubmitWrites(m, x.submission);
    case ScheduleCall(t, x) =>
      var call: Action<Callback> := Call(x);
      if ScheduleAt(m.q.agenda, t, call).Some? {
        ScheduleAtValid(m.q.agenda, t, call);
        WrittenFrame(m, At(m, ScheduleAt(m.q.agenda, t, call).value));
      }
    case AdvanceClock(t) => WrittenFrame(m, At(m, Advance(m.q.agenda, t)));
    case RunNext => StepWrites(m);
  }

  // ----- The limit and the delay stay -----

  ghost predicate SameRule(m: Retrier, n: Retrier) {
    n.g.limit == m.g.limit && n.g.delay == m.g.delay
  }

  lemma {:induction false} ServeManyRule(m: Retrier, n: nat)
    requires WellFormed(m.q) && n <= |m.q.waiting|
    ensures SameRule(m, ServeMany(m, R.CLIENT, n))
    decreases n
  {
    if n > 0 {
      ServeManyRule(Serve(m, R.CLIENT), n - 1);
    }
  }

  lemma DoRule(m: Retrier, op: Op<Callback>)
    requires WellFormed(m.q)
    ensures SameRule(m, Do(m, R.CLIENT, op))
  {
    if op.RunNext? && TakeNext(m.q.agenda).Due? {
      var rest := TakeNext(m.q.agenda).rest;
      ServeManyRule(At(m, rest).(q := At(m, rest).q.(tickScheduled := false)), Min(m.q.capacity, |m.q.waiting|));
    }
  }

  // ----- Every run -----

  /** The state is reached by submissions, clock moves and events. */
  ghost predicate Reached(capacity: nat, limit: nat, delay: nat, now: nat, ops: seq<Op<Callback>>, m: Retrier) {
    capacity > 0 && S.OnlySubmissions(ops) && m == Exec(BeginRetries(capacity, limit, delay, now), R.CLIENT, ops)
  }

  lemma {:induction false} ReachedWritten(capacity: nat, limit: nat, delay: nat, now: nat, ops: seq<Op<Callback>>, m: Retrier)
    requires Reached(capacity, limit, delay, now, ops, m)
    ensures Inv(m.q) && Written(m) && m.g.limit == limit && m.g.delay == delay
    decreases |ops|
  {
    if ops != [] {
      var init, before := ops[..|ops| - 1], Exec(BeginRetries(capacity, limit, delay, now), R.CLIENT, ops[..|ops| - 1]);
      ReachedWritten(capacity, limit, delay, now, init, before);
      DoInv(before, R.CLIENT, ops[|ops| - 1]);
      DoWrites(before, ops[|ops| - 1]);
      DoRule(before, ops[|ops| - 1]);
    }
  }

  /**
   The attempts are those of the jobs that were served, in that order: the
   attempt made for a job of a payment bears the time at which the job was
   started and the number of that payment's jobs so far; it fails with the
   reason in the script's place of that number, asking for a retry a delay
   later exactly if the number is within the limit, or succeeds if the script
   has no such place; limit - number + 1 retries remain.
   */
  lemma AttemptsAreTrue(capacity: nat, limit: nat, delay: nat, now: nat, ops: seq<Op<Callback>>, m: Retrier, i: nat)
    requires Reached(capacity, limit, delay, now, ops, m) && i < |m.g.attempts|
    ensures |m.g.attempts| == |m.q.completed| <= |m.q.jobs| && m.q.completed[i] == i
    ensures var job, a := m.q.jobs[i], m.g.attempts[i];
            && job.payment < |m.g.payments| && job.startedAt == Some(a.at)
            && Told(a, m.g.payments[job.payment], Visits(m.q.jobs, i, job.payment), limit, delay)
  {
    ReachedWritten(capacity, limit, delay, now, ops, m);
    assert AttemptTold(m.q.jobs, m.g, i);
  }

  /** Every retry that was asked for is pending, or has put its payment back on the queue, at the time it was asked for. */
  lemma RetriesAreKept(capacity: nat, limit: nat, delay: nat, now: nat, ops: seq<Op<Callback>>, m: Retrier, i: nat)
    requires Reached(capacity, limit, delay, now, ops, m) && i < |m.g.attempts| && m.g.attempts[i].retryAt.Some?
    ensures i < |m.q.jobs|
    ensures var p, number, at := m.q.jobs[i].payment, m.g.attempts[i].number, m.g.attempts[i].retryAt.value;
            || (exists e :: e in m.q.agenda.queue && e.time == at && e.action == Call(Retry(p, number)))
            || (exists k: nat :: k < |m.q.jobs| && m.q.jobs[k].payment == p && Visits(m.q.jobs, k, p) == number
                  && m.q.jobs[k].queuedAt == at)
  {
    ReachedWritten(capacity, limit, delay, now, ops, m);
    var a, p := m.g.attempts[i], m.q.jobs[i].payment;
    assert Redeemed(a, p, m.q.jobs, m.q.agenda.queue);
    if Outstanding(a, p, m.q.agenda.queue) {
      var e :| e in m.q.agenda.queue && e.action == Call(Retry(p, a.number)) && Some(e.time) == a.retryAt;
    } else {
      var k: nat :| Answers(a, p, m.q.jobs, k);
    }
  }

  /** A payment has been tried as often as it has been served. */
  lemma TriesAreVisits(capacity: nat, limit: nat, delay: nat, now: nat, ops: seq<Op<Callback>>, m: Retrier, p: nat)
    requires Reached(capacity, limit, delay, now, ops, m) && p < |m.g.payments|
    ensures |m.q.completed| <= |m.q.jobs| && m.g.payments[p].attempts == Visits(m.q.jobs, |m.q.completed|, p)
  {
    ReachedWritten(capacity, limit, delay, now, ops, m);
    assert InTurn(m.q.jobs, First(m.q), p, Tried(m.g.payments)[p], m.g.limit);
  }

  /** The events tell, in time, of every attempt and of every arrival, each once and in order. */
  lemma TimelineIsTrue(capacity: nat, limit: nat, delay: nat, now: nat, ops: seq<Op<Callback>>, m: Retrier)
    requires Reached(capacity, limit, delay, now, ops, m)
    ensures TellsAttempts(Attempts(m.g.events), m.g.attempts)
    ensures TellsArrivals(Arrivals(m.g.events), m.q.jobs, m.g.payments)
    ensures Chronological(m.g.events, m.q.agenda.now)
  {
    ReachedWritten(capacity, limit, delay, now, ops, m);
  }
}
