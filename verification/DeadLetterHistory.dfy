/** In every state the dead-letter engine reaches, its results and entries are what the jobs and the submissions say. */
module DeadLetterHistory {
  import opened Wrappers
  import opened Scheduling
  import opened PaymentQueues
  import opened QueueLatency
  import opened QueueTurns
  import opened Submissions
  import opened DeadLetters
  import opened DeadLetterDiary
  import I = DeadLetterInvariant
  import S = DeadLetterRuns

  type Engine = I.Engine

  ghost predicate Written(m: Engine) {
    && First(m.q) >= 0
    && Turns(m.q.jobs, First(m.q), m.q.agenda.queue, Tried(m.g.payments), m.g.limit)
    && ResultsTold(m.g.results, m.q.jobs, First(m.q), m.g.payments, m.g.limit)
    && EntriesTold(m.g)
  }

  lemma WrittenFrame(m: Engine, n: Engine)
    requires Written(m) && n.g == m.g && n.q.jobs == m.q.jobs && First(n.q) == First(m.q)
    requires SameRetries(m.q.agenda.queue, n.q.agenda.queue)
    ensures Written(n)
  {
    TurnsFrame(m.q.jobs, First(m.q), m.q.agenda.queue, n.q.agenda.queue, Tried(m.g.payments), m.g.limit);
  }

  // ----- A job is served -----

  lemma {:induction false} TurnPasses(jobs: seq<Job>, first: nat, jobs': seq<Job>, events: Events, events': Events,
                                      g: State, p: nat, now: nat,
                   ran: nat)
    requires Turns(jobs, first, events, Tried(g.payments), g.limit) && ServedNext(jobs, first, jobs') && p == jobs[first].payment
    requires p < |g.payments| && I.Fated(g.payments[p], g.limit, g.deadIds, 1, ran)
    requires Brings(events, events', Work(g, p, now).requests, now)
    ensures var g' := Work(g, p, now).state; Turns(jobs', first + 1, events', Tried(g'.payments), g'.limit)
  {
    var g', requests := Work(g, p, now).state, Work(g, p, now).requests;
    I.WorkFates(g, p, now, ran);
    ServedTurns(jobs, first, jobs', events, Tried(g.payments), g.limit);
    assert Tried(g'.payments) == Tried(g.payments)[p := g.payments[p].attempts + 1];
    if requests == [] {
      TurnsFrame(jobs', first + 1, events, events', Tried(g'.payments), g.limit);
    } else {
      var e :| AskedFor(events, events', requests[0], now, e);
      RetryTurns(jobs', first + 1, events, events', Tried(g'.payments), g.limit, e);
    }
  }

  lemma {:induction false} VerdictsStand(jobs: seq<Job>, first: nat, g: State, g': State, p: nat, now: nat, ran: nat)
    requires first <= |jobs| && p < |g.payments| && I.Fated(g.payments[p], g.limit, g.deadIds, 1, ran)
    requires g.payments[p].attempts == Visits(jobs, first, p) && Attempted(g, g', p, now)
    ensures SameVerdicts(jobs, first, g.payments, g'.payments, g.limit)
  {
    forall i | 0 <= i < first
      ensures Silent(jobs, i, g.payments, g.limit) <==> Silent(jobs, i, g'.payments, g.limit)
    {
      if jobs[i].payment == p {
        VisitsGrow(jobs, i + 1, first, p);
        NotYetHopeless(g.payments[p], g.limit, g.deadIds, ran, Visits(jobs, i, p) + 1);
      }
    }
  }

  lemma {:induction false} ResultsGrow(jobs: seq<Job>, first: nat, g: State, g': State, p: nat, now: nat)
    requires first < |jobs| && p == jobs[first].payment < |g.payments| && Attempted(g, g', p, now)
    requires g.payments[p].attempts == Visits(jobs, first, p) && jobs[first].startedAt == Some(now)
    requires ResultsTold(g.results, jobs, first, g'.payments, g.limit)
    ensures ResultsTold(g'.results, jobs, first + 1, g'.payments, g'.limit)
  {
    var told := Reported(jobs, first + 1, g'.payments, g'.limit);
    forall k | 0 <= k < |told| ensures k < |g'.results| && ResultTold(g'.results[k], jobs, told[k], g'.payments, g'.limit) {
      if k < |g.results| {
        assert ResultTold(g.results[k], jobs, Reported(jobs, first, g'.payments, g.limit)[k], g'.payments, g.limit);
        assert g'.results == g.results || g'.results[..|g.results|][k] == g'.results[k];
      }
    }
  }

  lemma ServeWrites(m: Engine)
    requires Fifo(m.q) && Clocked(m.q) && m.q.waiting != [] && I.EngineInv(m) && Written(m)
    ensures Written(Serve(m, CLIENT))
  {
    var k := First(m.q);
    ServeIs(m, CLIENT);
    I.ServeProgress(m);
    var n, p, now := Serve(m, CLIENT), m.q.jobs[k].payment, m.q.agenda.now;
    var ran := multiset(m.g.effects)[p];
    I.WorkFates(m.g, p, now, ran);
    RequestsPend(m.q.agenda, Work(m.g, p, now).requests);
    TurnPasses(m.q.jobs, k, n.q.jobs, m.q.agenda.queue, n.q.agenda.queue, m.g, p, now, ran);
    WorkAttempts(m.g, p, now, ran);
    WorkTellsEntries(m.g, n.g, p, now);
    ServeTells(m.q.jobs, k, n.q.jobs, m.g, n.g, p, now, ran);
  }

  lemma {:induction false} ServeTells(jobs: seq<Job>, first: nat, jobs': seq<Job>, g: State, g': State, p: nat, now: nat,
                                      ran: nat)
    requires ServedNext(jobs, first, jobs') && jobs'[first].startedAt == Some(now) && p == jobs[first].payment < |g.payments|
    requires I.Fated(g.payments[p], g.limit, g.deadIds, 1, ran) && Attempted(g, g', p, now)
    requires InTurn(jobs, first, p, g.payments[p].attempts, g.limit)
    requires ResultsTold(g.results, jobs, first, g.payments, g.limit)
    ensures ResultsTold(g'.results, jobs', first + 1, g'.payments, g'.limit)
  {
    assert Resumes(jobs[first], jobs'[first]);
    VisitsContinue(jobs, jobs', first, p);
    ResultsContinue(g.results, jobs, jobs', first, g.payments, g.limit);
    VerdictsStand(jobs', first, g, g', p, now, ran);
    ResultsStay(g.results, jobs', first, g.payments, g'.payments, g.limit);
    ResultsGrow(jobs', first, g, g', p, now);
  }

  lemma {:induction false} ServeManyWrites(m: Engine, n: nat)
    requires Fifo(m.q) && Clocked(m.q) && n <= |m.q.waiting| && I.EngineInv(m) && Written(m)
    ensures Written(ServeMany(m, CLIENT, n))
    decreases n
  {
    if n > 0 {
      ServeOne(m, CLIENT);
      I.ServeProgress(m);
      ServeWrites(m);
      ServeManyWrites(Serve(m, CLIENT), n - 1);
    }
  }

  lemma WakeWrites(m: Engine)
    requires Valid(m.q.agenda) && Written(m)
    ensures Written(m.(q := Wake(m.q)))
  {
    if !m.q.tickScheduled {
      ScheduleAfterValid(m.q.agenda, 1, Tick);
      WrittenFrame(m, m.(q := Wake(m.q)));
    }
  }

  lemma TickWrites(m: Engine)
    requires Fifo(m.q) && Clocked(m.q) && I.EngineInv(m) && Written(m)
    ensures Written(ProcessTick(m, CLIENT))
  {
    var m1, n := m.(q := m.q.(tickScheduled := false)), Min(m.q.capacity, |m.q.waiting|);
    assert I.Lined(m1.q) == I.Lined(m.q);
    ServeManyWrites(m1, n);
    ServeManyFifo(m1, CLIENT, n);
    WakeWrites(ServeMany(m1, CLIENT, n));
  }

  // ----- A job joins -----

  lemma JoinWrites(m: Engine, p: nat, g': State)
    requires WellFormed(m.q) && Valid(m.q.agenda) && First(m.q) >= 0
    requires Turns(m.q.jobs + [Joining(m.q, p)], First(m.q), m.q.agenda.queue, Tried(g'.payments), g'.limit)
    requires ResultsTold(g'.results, m.q.jobs + [Joining(m.q, p)], First(m.q), g'.payments, g'.limit) && EntriesTold(g')
    ensures Written(Machine(Enqueue(m.q, p), g'))
  {
    WakeWrites(Machine(Join(m.q, p), g'));
  }

  lemma ResultsJoin(m: Engine, j: Job, g': State)
    requires Written(m) && g'.results == m.g.results && g'.limit == m.g.limit
    requires m.g.payments <= g'.payments
    ensures ResultsTold(g'.results, m.q.jobs + [j], First(m.q), g'.payments, g'.limit)
  {
    ResultsContinue(m.g.results, m.q.jobs, m.q.jobs + [j], First(m.q), m.g.payments, m.g.limit);
    ResultsStay(m.g.results, m.q.jobs + [j], First(m.q), m.g.payments, g'.payments, m.g.limit);
  }

  lemma {:induction false} SubmitTurns(jobs: seq<Job>, first: nat, events: Events, g: State, s: Submission, now: nat, j: Job)
    requires Turns(jobs, first, events, Tried(g.payments), g.limit) && j.payment == |g.payments|
    ensures var g' := DeadLetters.Call(g, Submit(s), now).state; Turns(jobs + [j], first, events, Tried(g'.payments), g'.limit)
  {
    var g' := DeadLetters.Call(g, Submit(s), now).state;
    SubmittedTurns(jobs, first, events, Tried(g.payments), g.limit, j);
    assert Tried(g'.payments) == Tried(g.payments) + [0];
  }

  lemma SubmitWrites(m: Engine, s: Submission)
    requires WellFormed(m.q) && Valid(m.q.agenda) && Written(m)
    ensures Written(Perform(m, CLIENT, Submit(s)))
  {
    var p, g' := |m.g.payments|, DeadLetters.Call(m.g, Submit(s), m.q.agenda.now).state;
    SubmitTurns(m.q.jobs, First(m.q), m.q.agenda.queue, m.g, s, m.q.agenda.now, Joining(m.q, p));
    ResultsJoin(m, Joining(m.q, p), g');
    PerformIs(m, CLIENT, Submit(s), p);
    JoinWrites(m, p, g');
  }

  lemma RetryWrites(m: Engine, rest: Agenda<Action<Callback>>, e: Event<Action<Callback>>)
    requires WellFormed(m.q) && Written(m) && Valid(rest)
    requires e in m.q.agenda.queue && IsRetry(e) && OneRetryLess(m.q.agenda.queue, rest.queue, e)
    requires var p := e.action.callback.payment; p < |m.g.payments| && !m.g.payments[p].isolated && !m.g.payments[p].completed
    ensures Written(Perform(At(m, rest), CLIENT, e.action.callback))
  {
    var n, p, g' := At(m, rest), e.action.callback.payment, DeadLetters.Call(m.g, e.action.callback, rest.now).state;
    RetriedTurns(m.q.jobs, First(m.q), m.q.agenda.queue, rest.queue, Tried(m.g.payments), m.g.limit, e, Joining(n.q, p));
    ResultsJoin(m, Joining(n.q, p), g');
    PerformIs(n, CLIENT, e.action.callback, p);
    JoinWrites(n, p, g');
  }

  // ----- Operations -----

  lemma RecordWrites(m: Engine, e: Event<Action<Callback>>)
    requires WellFormed(m.q) && Written(m)
    ensures Written(Recorded(m, e))
  {
    WrittenFrame(m, Recorded(m, e));
  }

  lemma TickStepWrites(m: Engine)
    requires S.Inv(m) && Written(m) && TakeNext(m.q.agenda).Due? && TakeNext(m.q.agenda).event.action.Tick?
    ensures Written(Step(m, CLIENT))
  {
    var Due(e, rest) := TakeNext(m.q.agenda);
    TakeNextValid(m.q.agenda);
    TickTaken(m.q);
    S.OtherTaken(m);
    WrittenFrame(m, At(m, rest));
    TickWrites(At(m, rest));
    RecordWrites(ProcessTick(At(m, rest), CLIENT), e);
  }

  lemma CallWrites(m: Engine, rest: Agenda<Action<Callback>>, e: Event<Action<Callback>>)
    requires S.Inv(m) && Written(m) && TakeNext(m.q.agenda) == Due(e, rest) && e.action.Call?
    ensures Written(Perform(At(m, rest), CLIENT, e.action.callback))
  {
    TakeNextValid(m.q.agenda);
    match e.action.callback {
      case Submit(s) =>
        WrittenFrame(m, At(m, rest));
        SubmitWrites(At(m, rest), s);
      case Retry(p, attempt) =>
        S.RetryLive(m, p, attempt);
        S.LiveIsUnsettled(m.g, I.Live(m.q), |I.Retrying(m.q.agenda)|, p);
        RetryWrites(m, rest, e);
    }
  }

  lemma CallStepWrites(m: Engine)
    requires S.Inv(m) && Written(m) && TakeNext(m.q.agenda).Due? && TakeNext(m.q.agenda).event.action.Call?
    ensures Written(Step(m, CLIENT))
  {
    var Due(e, rest) := TakeNext(m.q.agenda);
    CallStepIs(m, CLIENT);
    CallWrites(m, rest, e);
    RecordWrites(Perform(At(m, rest), CLIENT, e.action.callback), e);
  }

  lemma StepWrites(m: Engine)
    requires S.Inv(m) && Written(m)
    ensures Written(Step(m, CLIENT))
  {
    if m.q.agenda.queue != [] {
      TakeNextValid(m.q.agenda);
      if m.q.agenda.queue[0].action.Tick? {
        TickStepWrites(m);
      } else {
        CallStepWrites(m);
      }
    }
  }

  lemma DoWrites(m: Engine, op: Op<Callback>)
    requires S.Inv(m) && Written(m) && S.Submits(op)
    ensures Written(Do(m, CLIENT, op))
  {
    match op
    case CallNow(x) => SubmitWrites(m, x.submission);
    case ScheduleCall(t, x) =>
      var call: Action<Callback> := Call(x);
      if ScheduleAt(m.q.agenda, t, call).Some? {
        ScheduleAtValid(m.q.agenda, t, call);
        WrittenFrame(m, At(m, ScheduleAt(m.q.agenda, t, call).value));
      }
    case AdvanceClock(t) => WrittenFrame(m, At(m, Advance(m.q.agenda, t)));
    case RunNext => StepWrites(m);
  }

  // ----- Every run -----

  lemma {:induction false} ExecWrites(m: Engine, ops: seq<Op<Callback>>)
    requires S.Inv(m) && Written(m) && S.OnlySubmissions(ops)
    ensures S.Inv(Exec(m, CLIENT, ops)) && Written(Exec(m, CLIENT, ops))
    decreases |ops|
  {
    if ops != [] {
      var init := ops[..|ops| - 1];
      ExecWrites(m, init);
      S.DoKeeps(Exec(m, CLIENT, init), ops[|ops| - 1]);
      DoWrites(Exec(m, CLIENT, init), ops[|ops| - 1]);
    }
  }

  /**
   In every reachable state there is one result, in order, for each job served
   but those of a hopeless attempt at a payment that is not isolated because
   its identifier was taken; the result bears the time of the attempt, its
   number among those of the payment, and how it ended.
   */
  lemma ResultsAreTrue(capacity: nat, limit: nat, delay: nat, now: nat, stored: seq<Entry>, ops: seq<Op<Callback>>)
    requires capacity > 0 && OncePerId(stored) && S.OnlySubmissions(ops)
    ensures var m := Exec(S.Begin(capacity, limit, delay, now, stored), CLIENT, ops);
            && |m.q.completed| <= |m.q.jobs|
            && ResultsTold(m.g.results, m.q.jobs, |m.q.completed|, m.g.payments, m.g.limit)
  {
    S.BeginInv(capacity, limit, delay, now, stored);
    ExecWrites(S.Begin(capacity, limit, delay, now, stored), ops);
  }

  /** Each entry added bears the time of the result that reports its payment isolated, in the order of these results. */
  lemma EntriesAreDated(capacity: nat, limit: nat, delay: nat, now: nat, stored: seq<Entry>, ops: seq<Op<Callback>>)
    requires capacity > 0 && OncePerId(stored) && S.OnlySubmissions(ops)
    ensures EntriesTold(Exec(S.Begin(capacity, limit, delay, now, stored), CLIENT, ops).g)
  {
    S.BeginInv(capacity, limit, delay, now, stored);
    ExecWrites(S.Begin(capacity, limit, delay, now, stored), ops);
  }
}
