/** Runs of the dead-letter engine: every operation keeps the invariant, and every run ends. */
module DeadLetterRuns {
  import opened Scheduling
  import opened PaymentQueues
  import opened Submissions
  import opened DeadLetters
  import opened DeadLetterInvariant
  import QueueLatency

  ghost predicate Inv(m: Engine) {
    EngineInv(m) && QueueLatency.Inv(m.q)
  }

  // ----- Submissions -----

  lemma EnqueueAllOne(q: Queue<Callback>, p: nat)
    requires WellFormed(q)
    ensures EnqueueAll(q, [p]) == Enqueue(q, p)
  {
    assert [p][1..] == [];
    assert EnqueueAll(Enqueue(q, p), []) == Enqueue(q, p);
  }

  function Admitted(g: State, s: Submission): State {
    g.(payments := g.payments + [Payment(s, 0, 0, false, false)])
  }

  lemma SubmitProgress(g: State, s: Submission, live: multiset<nat>, retries: nat)
    requires Progress(g, live, retries)
    ensures Progress(Admitted(g, s), live + multiset{|g.payments|}, retries)
  {
    var g' := Admitted(g, s);
    var live' := live + multiset{|g.payments|};
    assert live'[|g.payments|] == 1;
    forall p | 0 <= p < |g'.payments|
      ensures Fated(g'.payments[p], g'.limit, g'.deadIds, live'[p], multiset(g'.effects)[p])
    {
      if p < |g.payments| {
        assert Fated(g.payments[p], g.limit, g.deadIds, live[p], multiset(g.effects)[p]);
      }
    }
  }

  lemma SubmitRegistry(g: State, s: Submission)
    requires Registry(g)
    ensures Registry(Admitted(g, s))
  {
    var g' := Admitted(g, s);
    assert g'.payments[..|g.payments|] == g.payments;
    assert IsolatedIds(g'.payments) == IsolatedIds(g.payments) + multiset{};
    assert IsolatedIds(g'.payments) == IsolatedIds(g.payments);
  }

  lemma EnqueueComing(q: Queue<Callback>, p: nat)
    requires WellFormed(q)
    ensures Coming(Enqueue(q, p).agenda) == Coming(q.agenda)
  {
    WakeComing(Join(q, p));
  }

  lemma SubmitEnqueues(m: Engine, s: Submission)
    requires WellFormed(m.q)
    ensures Perform(m, CLIENT, Submit(s)) == Machine(Enqueue(m.q, |m.g.payments|), Admitted(m.g, s))
  {
    EnqueueAllOne(m.q, |m.g.payments|);
  }

  lemma SubmitKeeps(m: Engine, s: Submission)
    requires EngineInv(m)
    ensures EngineInv(Perform(m, CLIENT, Submit(s)))
    ensures Load(Perform(m, CLIENT, Submit(s))) == Load(m) + 2 * Final(s, m.g.limit) - 1
  {
    var n := |m.g.payments|;
    SubmitEnqueues(m, s);
    EnqueueLive(m.q, n);
    EnqueueComing(m.q, n);
    SubmitProgress(m.g, s, Live(m.q), |Retrying(m.q.agenda)|);
    SubmitRegistry(m.g, s);
    SubmitLoad(m, s);
  }

  lemma SubmitLoad(m: Engine, s: Submission)
    requires WellFormed(m.q)
    requires Coming(Enqueue(m.q, |m.g.payments|).agenda) == Coming(m.q.agenda)
    ensures Load(Machine(Enqueue(m.q, |m.g.payments|), Admitted(m.g, s))) == Load(m) + 2 * Final(s, m.g.limit) - 1
  {
    var g' := Admitted(m.g, s);
    assert g'.payments[..|m.g.payments|] == m.g.payments;
  }

  // ----- Retries falling due -----

  lemma TakeRetries(a: Agenda<Action<Callback>>)
    requires TakeNext(a).Due?
    ensures Retrying(a) == RetryOf(TakeNext(a).event) + Retrying(TakeNext(a).rest)
    ensures Coming(a) == SubmissionOf(TakeNext(a).event) + Coming(TakeNext(a).rest)
  {
  }

  lemma SameLive(q: Queue<Callback>, rest: Agenda<Action<Callback>>)
    requires WellFormed(q) && Retrying(rest) == Retrying(q.agenda)
    ensures Live(q.(agenda := rest)) == Live(q)
  {
    assert Lined(q.(agenda := rest)) == Lined(q);
  }

  /** When a callback other than a retry is taken, nothing changes but the time. */
  lemma OtherTaken(m: Engine)
    requires EngineInv(m) && TakeNext(m.q.agenda).Due? && RetryOf(TakeNext(m.q.agenda).event) == []
    ensures EngineInv(At(m, TakeNext(m.q.agenda).rest))
  {
    var rest := TakeNext(m.q.agenda).rest;
    assert Retrying(rest) == Retrying(m.q.agenda) by { TakeRetries(m.q.agenda); }
    SameLive(m.q, rest);
  }

  function Resumed(g: State): State {
    g.(pending := g.pending - 1)
  }

  lemma RetryEnqueues(m: Engine, p: nat, attempt: nat)
    requires WellFormed(m.q) && p < |m.g.payments| && !m.g.payments[p].isolated && !m.g.payments[p].completed
    ensures Perform(m, CLIENT, Retry(p, attempt)) == Machine(Enqueue(m.q, p), Resumed(m.g))
  {
    EnqueueAllOne(m.q, p);
  }

  lemma RetryLive(m: Engine, p: nat, attempt: nat)
    requires EngineInv(m) && TakeNext(m.q.agenda).Due?
    requires TakeNext(m.q.agenda).event.action == Call(Retry(p, attempt))
    ensures var q1 := m.q.(agenda := TakeNext(m.q.agenda).rest);
            && Live(Enqueue(q1, p)) == Live(m.q)
            && |Retrying(Enqueue(q1, p).agenda)| == |Retrying(m.q.agenda)| - 1
            && Coming(Enqueue(q1, p).agenda) == Coming(m.q.agenda)
    ensures p in Live(m.q)
  {
    var q1 := m.q.(agenda := TakeNext(m.q.agenda).rest);
    TakeRetries(m.q.agenda);
    EnqueueLive(q1, p);
    EnqueueComing(q1, p);
    assert Lined(q1) == Lined(m.q);
    AppendMultisets([p], Retrying(q1.agenda));
    assert Live(m.q) == Live(q1) + multiset{p};
  }

  lemma LiveIsUnsettled(g: State, live: multiset<nat>, retries: nat, p: nat)
    requires Progress(g, live, retries) && p in live
    ensures p < |g.payments| && !g.payments[p].isolated && !g.payments[p].completed
  {
    assert live[p] > 0;
  }

  lemma RetryKeeps(m: Engine, p: nat, attempt: nat)
    requires EngineInv(m) && TakeNext(m.q.agenda).Due?
    requires TakeNext(m.q.agenda).event.action == Call(Retry(p, attempt))
    ensures var r := Perform(At(m, TakeNext(m.q.agenda).rest), CLIENT, Retry(p, attempt));
            EngineInv(r) && Load(r) == Load(m) - 1
  {
    var m1 := At(m, TakeNext(m.q.agenda).rest);
    RetryLive(m, p, attempt);
    LiveIsUnsettled(m.g, Live(m.q), |Retrying(m.q.agenda)|, p);
    RetryEnqueues(m1, p, attempt);
  }

  // ----- One event -----

  /** `r` is sound and nearer to the end than `m`. */
  ghost predicate Closer(m: Engine, r: Engine) {
    EngineInv(r) && Load(r) < Load(m)
  }

  lemma RecordedCloser(m: Engine, r: Engine, e: Event<Action<Callback>>)
    requires Closer(m, r)
    ensures Closer(m, Recorded(r, e))
  {
    SameLive(r.q, Recorded(r, e).q.agenda);
  }

  lemma LoadTaken(m: Engine)
    requires TakeNext(m.q.agenda).Due? && SubmissionOf(TakeNext(m.q.agenda).event) == [] && WellFormed(m.q)
    ensures Load(At(m, TakeNext(m.q.agenda).rest)) == Load(m)
  {
    TakeRetries(m.q.agenda);
    assert Coming(m.q.agenda) == Coming(TakeNext(m.q.agenda).rest);
  }

  lemma TickCloserTo(m: Engine, m1: Engine)
    requires EngineInv(m1) && m1.q.capacity > 0 && m1.q.waiting != [] && Load(m1) == Load(m)
    ensures Closer(m, ProcessTick(m1, CLIENT))
  {
    TickKeeps(m1);
  }

  lemma TickCloser(m: Engine)
    requires EngineInv(m) && TakeNext(m.q.agenda).Due? && TakeNext(m.q.agenda).event.action.Tick?
    requires m.q.capacity > 0 && m.q.waiting != []
    ensures Closer(m, ProcessTick(At(m, TakeNext(m.q.agenda).rest), CLIENT))
  {
    OtherTaken(m);
    LoadTaken(m);
    TickCloserTo(m, At(m, TakeNext(m.q.agenda).rest));
  }

  lemma TickStepIs(m: Engine)
    requires EngineInv(m) && TakeNext(m.q.agenda).Due? && TakeNext(m.q.agenda).event.action.Tick?
    ensures Step(m, CLIENT) == Recorded(ProcessTick(At(m, TakeNext(m.q.agenda).rest), CLIENT), TakeNext(m.q.agenda).event)
  {
  }

  lemma StepTickKeeps(m: Engine)
    requires EngineInv(m) && TakeNext(m.q.agenda).Due? && TakeNext(m.q.agenda).event.action.Tick?
    requires m.q.capacity > 0 && m.q.waiting != []
    ensures Closer(m, Step(m, CLIENT))
  {
    var Due(e, rest) := TakeNext(m.q.agenda);
    TickCloser(m);
    TickStepIs(m);
    RecordedCloser(m, ProcessTick(At(m, rest), CLIENT), e);
  }

  lemma FinalSumHead(s: Submission, rest: seq<Submission>, limit: nat)
    ensures FinalSum([s] + rest, limit) == Final(s, limit) + FinalSum(rest, limit)
  {
    assert ([s] + rest)[1..] == rest;
  }

  lemma SubmitCloser(m: Engine, s: Submission)
    requires EngineInv(m) && TakeNext(m.q.agenda).Due? && TakeNext(m.q.agenda).event.action == Call(Submit(s))
    ensures Closer(m, Perform(At(m, TakeNext(m.q.agenda).rest), CLIENT, Submit(s)))
  {
    var rest := TakeNext(m.q.agenda).rest;
    OtherTaken(m);
    TakeRetries(m.q.agenda);
    FinalSumHead(s, Coming(rest), m.g.limit);
    SubmitKeeps(At(m, rest), s);
  }

  lemma StepSubmitKeeps(m: Engine, s: Submission)
    requires EngineInv(m) && TakeNext(m.q.agenda).Due? && TakeNext(m.q.agenda).event.action == Call(Submit(s))
    ensures Closer(m, Step(m, CLIENT))
  {
    var Due(e, rest) := TakeNext(m.q.agenda);
    QueueLatency.CallStepIs(m, CLIENT);
    SubmitCloser(m, s);
    RecordedCloser(m, Perform(At(m, rest), CLIENT, Submit(s)), e);
  }

  lemma StepRetryKeeps(m: Engine, p: nat, attempt: nat)
    requires EngineInv(m) && TakeNext(m.q.agenda).Due? && TakeNext(m.q.agenda).event.action == Call(Retry(p, attempt))
    ensures Closer(m, Step(m, CLIENT))
  {
    var Due(e, rest) := TakeNext(m.q.agenda);
    QueueLatency.CallStepIs(m, CLIENT);
    RetryKeeps(m, p, attempt);
    RecordedCloser(m, Perform(At(m, rest), CLIENT, Retry(p, attempt)), e);
  }

  /** Each event keeps the invariant and brings the end nearer. */
  lemma StepKeeps(m: Engine)
    requires Inv(m)
    ensures Inv(Step(m, CLIENT))
    ensures m.q.agenda.queue != [] ==> Load(Step(m, CLIENT)) < Load(m)
  {
    QueueLatency.StepInv(m, CLIENT);
    if m.q.agenda.queue != [] {
      TakeNextValid(m.q.agenda);
      match m.q.agenda.queue[0].action {
        case Tick =>
          QueueLatency.TickTaken(m.q);
          StepTickKeeps(m);
        case Call(Submit(s)) => StepSubmitKeeps(m, s);
        case Call(Retry(p, attempt)) => StepRetryKeeps(m, p, attempt);
      }
    }
  }

  // ----- Every run -----

  /** The operation brings nothing to the engine, or a submission. */
  ghost predicate Submits(op: Op<Callback>) {
    op.RunNext? || op.AdvanceClock? || op.callback.Submit?
  }

  ghost predicate OnlySubmissions(ops: seq<Op<Callback>>) {
    forall i :: 0 <= i < |ops| ==> Submits(ops[i])
  }

  lemma ScheduleSubmission(m: Engine, t: int, s: Submission)
    requires EngineInv(m) && ScheduleAt(m.q.agenda, t, Call(Submit(s))).Some?
    ensures EngineInv(At(m, ScheduleAt(m.q.agenda, t, Call(Submit(s))).value))
  {
    var call: Action<Callback> := Call(Submit(s));
    CollectInsert(m.q.agenda.queue, Event(t, m.q.agenda.nextOrder, call), RetryOf);
    SameLive(m.q, ScheduleAt(m.q.agenda, t, call).value);
  }

  lemma DoKeeps(m: Engine, op: Op<Callback>)
    requires Inv(m) && Submits(op)
    ensures Inv(Do(m, CLIENT, op))
  {
    QueueLatency.DoInv(m, CLIENT, op);
    match op
    case CallNow(x) => SubmitKeeps(m, x.submission);
    case ScheduleCall(t, x) =>
      if ScheduleAt(m.q.agenda, t, Call(x)).Some? { ScheduleSubmission(m, t, x.submission); }
    case AdvanceClock(t) => AdvanceKeeps(m, t);
    case RunNext => StepKeeps(m);
  }

  lemma AdvanceKeeps(m: Engine, time: int)
    requires EngineInv(m)
    ensures EngineInv(At(m, Advance(m.q.agenda, time)))
  {
    SameLive(m.q, Advance(m.q.agenda, time));
  }

  /** A new processor with its own queue, in front of a dead-letter queue that holds `stored`. */
  function Begin(capacity: nat, limit: nat, delay: nat, now: nat, stored: seq<Entry>): Engine {
    Machine(PaymentQueues.Create(capacity, Start(now)), DeadLetters.Create(limit, delay, stored))
  }

  lemma BeginInv(capacity: nat, limit: nat, delay: nat, now: nat, stored: seq<Entry>)
    requires capacity > 0 && OncePerId(stored)
    ensures Inv(Begin(capacity, limit, delay, now, stored))
  {
    OnceEachId(stored);
  }

  lemma {:induction false} ExecKeeps(m: Engine, ops: seq<Op<Callback>>)
    requires Inv(m) && OnlySubmissions(ops)
    ensures Inv(Exec(m, CLIENT, ops))
    decreases |ops|
  {
    if ops != [] {
      ExecKeeps(m, ops[..|ops| - 1]);
      DoKeeps(Exec(m, CLIENT, ops[..|ops| - 1]), ops[|ops| - 1]);
    }
  }

  // ----- How many payments are under way -----

  ghost function Unsettled(payments: seq<Payment>, limit: nat): nat {
    if payments == [] then 0
    else
      var x := payments[|payments| - 1];
      Unsettled(payments[..|payments| - 1], limit) + (if x.attempts < Final(x.submission, limit) then 1 else 0)
  }

  lemma {:induction false} CountLive(payments: seq<Payment>, limit: nat, live: multiset<nat>)
    requires forall p :: 0 <= p < |payments| ==>
               live[p] == if payments[p].attempts < Final(payments[p].submission, limit) then 1 else 0
    requires forall p :: p >= |payments| ==> live[p] == 0
    ensures |live| == Unsettled(payments, limit)
    decreases |payments|
  {
    if payments == [] {
      assert live == multiset{};
    } else {
      var n := |payments| - 1;
      var others := live[n := 0];
      CountLive(payments[..n], limit, others);
      assert |live| == |others| + live[n];
    }
  }

  lemma {:induction false} UnsettledBound(payments: seq<Payment>, limit: nat)
    requires forall p :: 0 <= p < |payments| ==> payments[p].attempts <= Final(payments[p].submission, limit)
    ensures Unsettled(payments, limit) <= Remaining(payments, limit)
    decreases |payments|
  {
    if payments != [] {
      UnsettledBound(payments[..|payments| - 1], limit);
    }
  }

  lemma LiveCount(m: Engine)
    requires EngineInv(m)
    ensures |m.q.waiting| + |Retrying(m.q.agenda)| == Unsettled(m.g.payments, m.g.limit) <= Remaining(m.g.payments, m.g.limit)
  {
    forall p | 0 <= p < |m.g.payments|
      ensures Live(m.q)[p] == if m.g.payments[p].attempts < Final(m.g.payments[p].submission, m.g.limit) then 1 else 0
      ensures m.g.payments[p].attempts <= Final(m.g.payments[p].submission, m.g.limit)
    {
      assert Fated(m.g.payments[p], m.g.limit, m.g.deadIds, Live(m.q)[p], multiset(m.g.effects)[p]);
    }
    CountLive(m.g.payments, m.g.limit, Live(m.q));
    UnsettledBound(m.g.payments, m.g.limit);
    assert |multiset(Lined(m.q))| == |m.q.waiting|;
    assert |multiset(Retrying(m.q.agenda))| == |Retrying(m.q.agenda)|;
  }

  lemma LoadIsNat(m: Engine)
    requires EngineInv(m)
    ensures Load(m) >= 0
  {
    LiveCount(m);
  }

  /** `run`: events until none is pending.  It ends because every event brings the end nearer. */
  ghost function Run(m: Engine): (r: Engine)
    requires Inv(m)
    ensures Inv(r) && r.q.agenda.queue == []
    decreases LoadAsNat(m)
  {
    if m.q.agenda.queue == [] then m
    else
      StepKeeps(m);
      LoadIsNat(m);
      LoadIsNat(Step(m, CLIENT));
      Run(Step(m, CLIENT))
  }

  ghost function LoadAsNat(m: Engine): nat {
    if Load(m) >= 0 then Load(m) else 0
  }
}
