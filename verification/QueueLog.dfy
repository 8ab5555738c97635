/** The payment queue's list of events and its greatest depth, whatever the work callbacks do. */
module QueueLog {
  import opened Wrappers
  import opened Scheduling
  import opened PaymentQueues
  import opened QueueLatency

  type Log = seq<QueueEvent>

  /** The events of one kind, in order. */
  ghost function Of(kind: Kind, log: Log): Log {
    if log == [] then []
    else
      var init, last := log[..|log| - 1], log[|log| - 1];
      Of(kind, init) + (if last.kind == kind then [last] else [])
  }

  lemma OneMore(kind: Kind, log: Log, e: QueueEvent)
    ensures Of(kind, log + [e]) == Of(kind, log) + (if e.kind == kind then [e] else [])
  {
    assert (log + [e])[..|log|] == log;
  }

  // ----- What the events are to say -----

  ghost predicate ArrivalsTold(told: Log, jobs: seq<Job>) {
    && |told| == |jobs|
    && forall k :: 0 <= k < |told| ==>
         told[k].time == jobs[k].queuedAt && told[k].payment == jobs[k].payment && told[k].size == jobs[k].position
  }

  ghost predicate StartsTold(told: Log, jobs: seq<Job>) {
    |told| <= |jobs| && forall k :: 0 <= k < |told| ==> Some(told[k].time) == jobs[k].startedAt && told[k].payment == jobs[k].payment
  }

  ghost predicate EndsTold(told: Log, jobs: seq<Job>) {
    |told| <= |jobs| && forall k :: 0 <= k < |told| ==> Some(told[k].time) == jobs[k].completedAt && told[k].payment == jobs[k].payment
  }

  /** The size told by each event is that of the line after it. */
  ghost predicate SizesTold(log: Log) {
    forall i :: 0 <= i < |log| ==> log[i].size == |Of(Arrived, log[..i + 1])| - |Of(Processing, log[..i + 1])|
  }

  ghost predicate Chronological(log: Log, now: nat) {
    && (forall i, j :: 0 <= i < j < |log| ==> log[i].time <= log[j].time)
    && (forall i :: 0 <= i < |log| ==> log[i].time <= now)
  }

  /** The greatest depth is the greatest place that anybody joined at, and nobody waits beyond it. */
  ghost predicate Deepest(depth: nat, jobs: seq<Job>, waiting: nat) {
    && (forall k :: 0 <= k < |jobs| ==> jobs[k].position <= depth)
    && (depth > 0 ==> exists k :: 0 <= k < |jobs| && jobs[k].position == depth)
    && waiting <= depth
  }

  ghost predicate LogTold(log: Log, jobs: seq<Job>, started: int, done: nat, now: nat) {
    && ArrivalsTold(Of(Arrived, log), jobs)
    && |Of(Processing, log)| == started && StartsTold(Of(Processing, log), jobs)
    && |Of(Completed, log)| == done && EndsTold(Of(Completed, log), jobs)
    && SizesTold(log) && Chronological(log, now)
  }

  ghost predicate Told<X>(q: Queue<X>) {
    && Fifo(q) && LogTold(q.log, q.jobs, First(q), |q.completed|, q.agenda.now)
    && Deepest(q.maxDepth, q.jobs, |q.waiting|)
  }

  // ----- One event more -----

  lemma SizesGrow(log: Log, e: QueueEvent)
    requires SizesTold(log) && e.size == |Of(Arrived, log + [e])| - |Of(Processing, log + [e])|
    ensures SizesTold(log + [e])
  {
    var log' := log + [e];
    forall i | 0 <= i < |log'| ensures log'[i].size == |Of(Arrived, log'[..i + 1])| - |Of(Processing, log'[..i + 1])| {
      if i < |log| {
        assert log'[..i + 1] == log[..i + 1];
      } else {
        assert log'[..i + 1] == log';
      }
    }
  }

  lemma TimeGoesOn(log: Log, now: nat, e: QueueEvent)
    requires Chronological(log, now) && e.time == now
    ensures Chronological(log + [e], now)
  {
  }

  lemma JoinLog(log: Log, jobs: seq<Job>, started: int, done: nat, j: Job)
    requires LogTold(log, jobs, started, done, j.queuedAt) && j.position == |jobs| + 1 - started
    ensures LogTold(log + [QueueEvent(j.queuedAt, Arrived, j.payment, j.position)], jobs + [j], started, done, j.queuedAt)
  {
    var e := QueueEvent(j.queuedAt, Arrived, j.payment, j.position);
    OneMore(Arrived, log, e);
    OneMore(Processing, log, e);
    OneMore(Completed, log, e);
    SizesGrow(log, e);
    TimeGoesOn(log, j.queuedAt, e);
  }

  /** The jobs with another start of job `k`. */
  ghost function Begun(jobs: seq<Job>, k: nat, now: nat): seq<Job>
    requires k < |jobs|
  {
    jobs[k := jobs[k].(startedAt := Some(now))]
  }

  ghost function Ended(jobs: seq<Job>, k: nat, now: nat): seq<Job>
    requires k < |jobs|
  {
    jobs[k := jobs[k].(completedAt := Some(now))]
  }

  lemma StartLog(log: Log, jobs: seq<Job>, k: nat, done: nat, now: nat, e: QueueEvent)
    requires LogTold(log, jobs, k, done, now) && k < |jobs|
    requires e == QueueEvent(now, Processing, jobs[k].payment, |jobs| - k - 1)
    ensures LogTold(log + [e], Begun(jobs, k, now), k + 1, done, now)
  {
    OneMore(Arrived, log, e);
    OneMore(Processing, log, e);
    OneMore(Completed, log, e);
    SizesGrow(log, e);
    TimeGoesOn(log, now, e);
  }

  lemma FinishLog(log: Log, jobs: seq<Job>, started: nat, k: nat, now: nat, e: QueueEvent)
    requires LogTold(log, jobs, started, k, now) && k < |jobs|
    requires e == QueueEvent(now, Completed, jobs[k].payment, |jobs| - started)
    ensures LogTold(log + [e], Ended(jobs, k, now), started, k + 1, now)
  {
    OneMore(Arrived, log, e);
    OneMore(Processing, log, e);
    OneMore(Completed, log, e);
    SizesGrow(log, e);
    TimeGoesOn(log, now, e);
  }

  lemma DeeperWith(depth: nat, jobs: seq<Job>, waiting: nat, j: Job)
    requires Deepest(depth, jobs, waiting) && j.position == waiting + 1
    ensures Deepest(Max(depth, waiting + 1), jobs + [j], waiting + 1)
  {
    var jobs' := jobs + [j];
    if depth > waiting {
      var k :| 0 <= k < |jobs| && jobs[k].position == depth;
      assert jobs'[k].position == depth;
    } else {
      assert jobs'[|jobs|].position == waiting + 1;
    }
  }

  lemma SameDepth(depth: nat, jobs: seq<Job>, waiting: nat, jobs': seq<Job>, waiting': nat)
    requires Deepest(depth, jobs, waiting) && |jobs'| == |jobs| && waiting' <= waiting
    requires forall k :: 0 <= k < |jobs| ==> jobs'[k].position == jobs[k].position
    ensures Deepest(depth, jobs', waiting')
  {
    if depth > 0 {
      var k :| 0 <= k < |jobs| && jobs[k].position == depth;
      assert jobs'[k].position == depth;
    }
  }

  // ----- The queue -----

  lemma JoinTold<X>(q: Queue<X>, payment: nat)
    requires Told(q)
    ensures Told(Join(q, payment))
  {
    JoinFifo(q, payment);
    var j := Join(q, payment).jobs[|q.jobs|];
    JoinLog(q.log, q.jobs, First(q), |q.completed|, j);
    DeeperWith(q.maxDepth, q.jobs, |q.waiting|, j);
  }

  /** A clock that goes on changes nothing. */
  lemma LaterTold<X>(q: Queue<X>, r: Queue<X>)
    requires Told(q) && q.agenda.now <= r.agenda.now
    requires r.jobs == q.jobs && r.waiting == q.waiting && r.completed == q.completed && r.log == q.log && r.maxDepth == q.maxDepth
    ensures Told(r)
  {
  }

  lemma {:induction false} EnqueueAllTold<X>(q: Queue<X>, payments: seq<nat>)
    requires Told(q)
    ensures Told(EnqueueAll(q, payments))
    decreases |payments|
  {
    if payments != [] {
      JoinTold(q, payments[0]);
      LaterTold(Join(q, payments[0]), Enqueue(q, payments[0]));
      EnqueueAllTold(Enqueue(q, payments[0]), payments[1..]);
    }
  }

  /** One job is started and finished; between the two the queue's agenda may have grown. */
  lemma ServedLog(log: Log, jobs: seq<Job>, k: nat, now: nat, start: QueueEvent, end: QueueEvent)
    requires LogTold(log, jobs, k, k, now) && k < |jobs|
    requires start == QueueEvent(now, Processing, jobs[k].payment, |jobs| - k - 1)
    requires end == QueueEvent(now, Completed, jobs[k].payment, |jobs| - k - 1)
    ensures LogTold(log + [start] + [end], Ended(Begun(jobs, k, now), k, now), k + 1, k + 1, now)
  {
    StartLog(log, jobs, k, k, now, start);
    FinishLog(log + [start], Begun(jobs, k, now), k + 1, k, now, end);
  }

  lemma ServeTold<G, X>(m: Machine<G, X>, c: Client<G, X>)
    requires Told(m.q) && Clocked(m.q) && m.q.waiting != []
    ensures Told(Serve(m, c).q)
  {
    ServeOne(m, c);
    var r, k, now := Serve(m, c).q, First(m.q), m.q.agenda.now;
    ServedLog(m.q.log, m.q.jobs, k, now, r.log[|m.q.log|], r.log[|m.q.log| + 1]);
    SameDepth(m.q.maxDepth, m.q.jobs, |m.q.waiting|, r.jobs, |r.waiting|);
  }

  lemma {:induction false} ServeManyTold<G, X>(m: Machine<G, X>, c: Client<G, X>, n: nat)
    requires Told(m.q) && Clocked(m.q) && n <= |m.q.waiting|
    ensures Told(ServeMany(m, c, n).q)
    decreases n
  {
    if n > 0 {
      ServeOne(m, c);
      ServeTold(m, c);
      ServeManyTold(Serve(m, c), c, n - 1);
    }
  }

  lemma TickTold<G, X>(m: Machine<G, X>, c: Client<G, X>)
    requires Told(m.q) && Clocked(m.q)
    ensures Told(ProcessTick(m, c).q)
  {
    var m1, n := m.(q := m.q.(tickScheduled := false)), Min(m.q.capacity, |m.q.waiting|);
    ServeManyTold(m1, c, n);
    var m2 := ServeMany(m1, c, n);
    LaterTold(m2.q, Wake(m2.q));
  }

  lemma PerformTold<G, X>(m: Machine<G, X>, c: Client<G, X>, x: X)
    requires Told(m.q)
    ensures Told(Perform(m, c, x).q)
  {
    EnqueueAllTold(m.q, c.call(m.g, x, m.q.agenda.now).payments);
  }

  lemma TickStepTold<G, X>(m: Machine<G, X>, c: Client<G, X>)
    requires Told(m.q) && Inv(m.q) && TakeNext(m.q.agenda).Due? && TakeNext(m.q.agenda).event.action.Tick?
    ensures Told(Step(m, c).q)
  {
    var Due(e, rest) := TakeNext(m.q.agenda);
    TickTaken(m.q);
    LaterTold(m.q, At(m, rest).q);
    TickTold(At(m, rest), c);
    LaterTold(ProcessTick(At(m, rest), c).q, Recorded(ProcessTick(At(m, rest), c), e).q);
  }

  lemma CallStepTold<G, X>(m: Machine<G, X>, c: Client<G, X>)
    requires Told(m.q) && Inv(m.q) && TakeNext(m.q.agenda).Due? && TakeNext(m.q.agenda).event.action.Call?
    ensures Told(Step(m, c).q)
  {
    var Due(e, rest) := TakeNext(m.q.agenda);
    CallTaken(m.q);
    CallStepIs(m, c);
    LaterTold(m.q, At(m, rest).q);
    PerformTold(At(m, rest), c, e.action.callback);
    var r := Perform(At(m, rest), c, e.action.callback);
    LaterTold(r.q, Recorded(r, e).q);
  }

  lemma StepTold<G, X>(m: Machine<G, X>, c: Client<G, X>)
    requires Told(m.q) && Inv(m.q)
    ensures Told(Step(m, c).q)
  {
    if m.q.agenda.queue != [] {
      TakeNextValid(m.q.agenda);
      if m.q.agenda.queue[0].action.Tick? {
        TickStepTold(m, c);
      } else {
        CallStepTold(m, c);
      }
    }
  }

  lemma DoTold<G, X>(m: Machine<G, X>, c: Client<G, X>, op: Op<X>)
    requires Told(m.q) && Inv(m.q)
    ensures Told(Do(m, c, op).q)
  {
    match op
    case CallNow(x) => PerformTold(m, c, x);
    case ScheduleCall(t, x) =>
      if ScheduleAt(m.q.agenda, t, Call(x)).Some? {
        LaterTold(m.q, Do(m, c, op).q);
      }
    case AdvanceClock(t) => LaterTold(m.q, Do(m, c, op).q);
    case RunNext => StepTold(m, c);
  }

  /**
   In every reachable state the events tell, in time, of every arrival with the
   place in the line, of every start and of every completion, each once and in
   arrival order, and each with the length of the line after it; the greatest
   depth is the greatest place anybody joined at.
   */
  lemma {:induction false} LogIsTrue<G, X>(capacity: nat, a: Agenda<Action<X>>, g: G, c: Client<G, X>, ops: seq<Op<X>>)
    requires capacity > 0 && Tickless(a)
    ensures var q := Exec(Machine(Create(capacity, a), g), c, ops).q;
            && Fifo(q) && LogTold(q.log, q.jobs, |q.completed|, |q.completed|, q.agenda.now)
            && Deepest(q.maxDepth, q.jobs, |q.waiting|)
    decreases |ops|
  {
    if ops != [] {
      var before := Exec(Machine(Create(capacity, a), g), c, ops[..|ops| - 1]);
      LogIsTrue(capacity, a, g, c, ops[..|ops| - 1]);
      ExecInv(capacity, a, g, c, ops[..|ops| - 1]);
      DoTold(before, c, ops[|ops| - 1]);
    }
  }
}
