/**
 What is true of every run of the worker pool: exact start times, the effect of
 adding workers, and the independence of the ledger from capacity.
 */
module WorkerPoolTheorems {
  import opened Wrappers
  import opened Scheduling
  import opened WorkerPools
  import opened WorkerPoolInvariant
  import opened WorkerPoolMetrics

  /** Payment k started on arrival or when payment k - n was done, and takes one processing time. */
  ghost predicate StartsByRecurrence(items: seq<Item>, n: nat, period: nat) {
    forall k :: 0 <= k < |items| && items[k].startedAt.Some? ==>
      && (k < n ==> items[k].startedAt.value == items[k].queuedAt)
      && (n <= k ==> && items[k - n].startedAt.Some?
                     && items[k].startedAt.value == Max(items[k].queuedAt, items[k - n].startedAt.value + period))
      && (items[k].completedAt.Some? ==> items[k].completedAt.value == items[k].startedAt.value + period)
  }

  /** In every reachable state, whatever the interleaving and the ties. */
  lemma StartTimes(n: nat, period: nat, now: nat, ops: seq<Op>)
    requires n > 0
    ensures StartsByRecurrence(Exec(Create(n, period, Start(now)), ops).items, n, period)
  {
    var s0 := Create(n, period, Start(now));
    CreateInv(n, period, now);
    var ord, who := ExecKeepsInv(s0, ops, [], []);
    ExecKeepsSize(s0, ops);
    StartTimesIn(Exec(s0, ops), ord, who);
  }

  lemma StartTimesIn(s: Pool, ord: seq<nat>, who: seq<nat>)
    requires Inv(s, ord, who)
    ensures StartsByRecurrence(s.items, |s.workers|, s.period)
  {
    ServedByRecurrence(s.items, |ord|, |s.completed|, |s.workers|, s.period, s.agenda.now);
  }

  lemma ServedByRecurrence(items: seq<Item>, a: nat, c: nat, n: nat, period: nat, now: nat)
    requires Stamped(items, a, c, period, now) && Recurs(items, n, period) && n > 0
    ensures StartsByRecurrence(items, n, period)
  {
  }

  /** Payments wait only while every worker is busy. */
  lemma NobodyIdlesWhileWorkWaits(n: nat, period: nat, now: nat, ops: seq<Op>)
    requires n > 0
    ensures var s := Exec(Create(n, period, Start(now)), ops);
            s.waiting != [] ==> AllBusy(s)
  {
    CreateInv(n, period, now);
    var ord, who := ExecKeepsInv(Create(n, period, Start(now)), ops, [], []);
  }

  // ----- Arrivals still to come -----

  datatype Arrival = Arrival(posting: Posting, at: nat)

  ghost function ArrivalOf(e: Event<Action>): seq<Arrival> {
    if e.action.Arrive? then [Arrival(e.action.posting, e.time)] else []
  }

  ghost function Pending(a: Agenda<Action>): seq<Arrival> {
    Collect(a.queue, ArrivalOf)
  }

  ghost function Admitted(items: seq<Item>): (r: seq<Arrival>)
    ensures |r| == |items|
  {
    seq(|items|, i requires 0 <= i < |items| => Arrival(items[i].posting, items[i].queuedAt))
  }

  /** Every arrival of a run, past and future, in the order of admission. */
  ghost function Arrivals(s: Pool): seq<Arrival> {
    Admitted(s.items) + Pending(s.agenda)
  }

  lemma StartedAdmitted(items: seq<Item>, k: nat, started: Item)
    requires k < |items| && started.posting == items[k].posting && started.queuedAt == items[k].queuedAt
    ensures Admitted(items[k := started]) == Admitted(items)
  {
  }

  lemma AssignArrivals(s: Pool, w: nat)
    requires WellFormed(s) && s.waiting != [] && w < |s.workers|
    ensures Admitted(Assign(s, w).items) == Admitted(s.items)
    ensures Pending(Assign(s, w).agenda) == Pending(s.agenda)
  {
    CompletionAddsNone(s.agenda, s.period, w);
    StartedAdmitted(s.items, s.waiting[0], Assign(s, w).items[s.waiting[0]]);
  }

  lemma CompletionAddsNone(a: Agenda<Action>, period: nat, w: nat)
    ensures Pending(ScheduleAfter(a, period, Complete(w))) == Pending(a)
  {
    CollectInsert(a.queue, Event(a.now + period, a.nextOrder, Complete(w)), ArrivalOf);
  }

  lemma {:induction false} DispatchArrivals(s: Pool, w: nat)
    requires WellFormed(s) && w <= |s.workers|
    ensures Admitted(Dispatch(s, w).items) == Admitted(s.items)
    ensures Pending(Dispatch(s, w).agenda) == Pending(s.agenda)
    decreases |s.workers| - w
  {
    if w < |s.workers| && s.waiting != [] {
      if Busy(s, w) {
        DispatchArrivals(s, w + 1);
      } else {
        AssignArrivals(s, w);
        DispatchArrivals(Assign(s, w), w + 1);
      }
    }
  }

  /** What is left to do: two events for every arrival to come, one for every payment not completed. */
  ghost function Load(s: Pool): int {
    2 * |Pending(s.agenda)| + |s.items| - |s.completed|
  }

  lemma {:induction false} DispatchCompletesNothing(s: Pool, w: nat)
    requires WellFormed(s) && w <= |s.workers|
    ensures Dispatch(s, w).completed == s.completed && |Dispatch(s, w).items| == |s.items|
    ensures Dispatch(s, w).posted == s.posted
    decreases |s.workers| - w
  {
    if w < |s.workers| && s.waiting != [] {
      DispatchCompletesNothing(if Busy(s, w) then s else Assign(s, w), w + 1);
    }
  }

  lemma EnqueueArrivals(s: Pool, p: Posting)
    requires WellFormed(s)
    ensures Admitted(Enqueue(s, p).items) == Admitted(s.items) + [Arrival(p, s.agenda.now)]
    ensures Pending(Enqueue(s, p).agenda) == Pending(s.agenda)
    ensures Load(Enqueue(s, p)) == Load(s) + 1
  {
    DispatchArrivals(Join(s, p), 0);
    DispatchCompletesNothing(Join(s, p), 0);
  }

  lemma FinishArrivals(s: Pool, w: nat)
    requires WellFormed(s) && w < |s.workers| && Busy(s, w)
    ensures Admitted(Finish(s, w).items) == Admitted(s.items)
    ensures Pending(Finish(s, w).agenda) == Pending(s.agenda)
    ensures Load(Finish(s, w)) == Load(s) - 1
  {
    assert Admitted(Release(s, w).items) == Admitted(s.items);
    DispatchArrivals(Release(s, w), 0);
    DispatchCompletesNothing(Release(s, w), 0);
  }

  lemma TakePending(a: Agenda<Action>)
    requires TakeNext(a).Due?
    ensures Pending(a) == ArrivalOf(TakeNext(a).event) + Pending(TakeNext(a).rest)
  {
  }

  lemma StepArrives(s: Pool)
    requires WellFormed(s) && TakeNext(s.agenda).Due? && TakeNext(s.agenda).event.action.Arrive?
    ensures Arrivals(Step(s)) == Arrivals(s)
    ensures Load(Step(s)) == Load(s) - 1
  {
    var Due(e, rest) := TakeNext(s.agenda);
    TakePending(s.agenda);
    EnqueueArrivals(s.(agenda := rest), e.action.posting);
  }

  lemma StepCompletes(s: Pool)
    requires WellFormed(s) && TakeNext(s.agenda).Due? && TakeNext(s.agenda).event.action.Complete?
    requires var w := TakeNext(s.agenda).event.action.worker; w < |s.workers| && Busy(s, w)
    ensures Arrivals(Step(s)) == Arrivals(s)
    ensures Load(Step(s)) == Load(s) - 1
  {
    var Due(e, rest) := TakeNext(s.agenda);
    TakePending(s.agenda);
    FinishArrivals(s.(agenda := rest), e.action.worker);
  }

  /** One event of a run neither adds, drops nor reorders an arrival, and brings the end one event nearer. */
  lemma StepArrivals(s: Pool, ord: seq<nat>, who: seq<nat>)
    requires Inv(s, ord, who) && s.agenda.queue != []
    ensures Arrivals(Step(s)) == Arrivals(s)
    ensures Load(Step(s)) == Load(s) - 1
  {
    TakeNextValid(s.agenda);
    if s.agenda.queue[0].action.Arrive? {
      StepArrives(s);
    } else {
      NextCompletionIsOldest(s, ord, who);
      StepCompletes(s);
    }
  }

  // ----- Running to the end -----

  function RunFor(s: Pool, steps: nat): (r: Pool)
    requires WellFormed(s)
    ensures WellFormed(r)
    decreases steps
  {
    if steps == 0 then s else RunFor(Step(s), steps - 1)
  }

  lemma InServiceMeansPending(s: Pool, ord: seq<nat>, who: seq<nat>)
    requires Inv(s, ord, who) && |s.completed| < |s.items|
    ensures s.agenda.queue != []
  {
    ServiceCount(s, ord, who);
    if |s.completed| < |ord| {
      assert Completion(s.items, s.period, ord, who, |s.completed|) in s.agenda.queue;
    }
  }

  lemma PendingMeansLoad(s: Pool, ord: seq<nat>, who: seq<nat>)
    requires Inv(s, ord, who) && s.agenda.queue != []
    ensures Load(s) > 0
  {
    TakeNextValid(s.agenda);
    TakePending(s.agenda);
    if s.agenda.queue[0].action.Complete? {
      NextCompletionIsOldest(s, ord, who);
    }
  }

  /** A run of `run_next` until nothing is pending, as many events as given. */
  ghost predicate Finished(s: Pool, start: Pool) {
    && s.agenda.queue == []
    && |s.completed| == |s.items| == |s.posted|
    && Admitted(s.items) == Arrivals(start)
    && |s.workers| == |start.workers| && s.period == start.period
  }

  lemma IdleIsFinished(s: Pool, ord: seq<nat>, who: seq<nat>)
    requires Inv(s, ord, who) && s.agenda.queue == []
    ensures Finished(s, s) && Load(s) == 0
  {
    assert Pending(s.agenda) == [];
    if |s.completed| < |s.items| {
      InServiceMeansPending(s, ord, who);
    }
  }

  /** `run` executes exactly `Load` events and then every payment admitted has completed. */
  lemma {:induction false} RunEnds(s: Pool, ord: seq<nat>, who: seq<nat>) returns (ord': seq<nat>, who': seq<nat>)
    requires Inv(s, ord, who)
    ensures Load(s) >= 0
    ensures Inv(RunFor(s, Load(s)), ord', who')
    ensures Finished(RunFor(s, Load(s)), s)
    decreases Load(s)
  {
    if s.agenda.queue == [] {
      IdleIsFinished(s, ord, who);
      ord', who' := ord, who;
    } else {
      PendingMeansLoad(s, ord, who);
      var ord1, who1 := OneEvent(s, ord, who);
      ord', who' := RunEnds(Step(s), ord1, who1);
      FinishedFrom(RunFor(s, Load(s)), Step(s), s);
    }
  }

  lemma OneEvent(s: Pool, ord: seq<nat>, who: seq<nat>) returns (ord': seq<nat>, who': seq<nat>)
    requires Inv(s, ord, who) && s.agenda.queue != []
    ensures Inv(Step(s), ord', who')
    ensures Arrivals(Step(s)) == Arrivals(s) && Load(Step(s)) == Load(s) - 1
    ensures |Step(s).workers| == |s.workers| && Step(s).period == s.period
  {
    StepArrivals(s, ord, who);
    DoKeepsSize(s, RunNext);
    ord', who' := StepKeepsInv(s, ord, who);
  }

  lemma FinishedFrom(t: Pool, mid: Pool, start: Pool)
    requires Finished(t, mid)
    requires Arrivals(mid) == Arrivals(start) && |mid.workers| == |start.workers| && mid.period == start.period
    ensures Finished(t, start)
  {
  }

  lemma IsLoadNat(s: Pool, ord: seq<nat>, who: seq<nat>)
    requires Inv(s, ord, who)
    ensures Load(s) >= 0
  {
  }

  // ----- Two runs of the same arrivals -----

  /** A schedule of arrivals and nothing else. */
  ghost predicate Plan(a: Agenda<Action>) {
    && Valid(a) && OnTime(a)
    && forall e :: e in a.queue ==> e.action.Arrive?
  }

  lemma PlanInv(n: nat, period: nat, plan: Agenda<Action>)
    requires n > 0 && Plan(plan)
    ensures Inv(Create(n, period, plan), [], [])
  {
  }

  function RunPlan(n: nat, period: nat, plan: Agenda<Action>, steps: nat): Pool {
    RunFor(Create(n, period, plan), steps)
  }

  /** With more workers no payment starts later, as long as the payments arrive alike. */
  lemma {:induction false} Faster(xs: seq<Item>, ys: seq<Item>, n: nat, m: nat, period: nat, k: nat)
    requires 0 < n <= m && k < |xs| && k < |ys|
    requires Recurs(xs, n, period) && Recurs(ys, m, period) && Monotone(xs)
    requires forall j :: 0 <= j <= k ==> xs[j].queuedAt == ys[j].queuedAt
    requires forall j :: 0 <= j <= k ==> xs[j].startedAt.Some? && ys[j].startedAt.Some?
    ensures ys[k].startedAt.value <= xs[k].startedAt.value
    decreases k
  {
    assert xs[k].startedAt.value == Recurrence(xs, n, period, k);
    assert ys[k].startedAt.value == Recurrence(ys, m, period, k);
    if m <= k {
      Faster(xs, ys, n, m, period, k - m);
      assert xs[k - m].startedAt.value <= xs[k - n].startedAt.value;
    }
  }

  /** The number of events in a full run of `plan`, whatever the number of workers. */
  ghost function RunLength(plan: Agenda<Action>): nat {
    2 * |Pending(plan)|
  }

  lemma PlanLoad(n: nat, period: nat, plan: Agenda<Action>)
    requires n > 0 && Plan(plan)
    ensures Load(Create(n, period, plan)) == RunLength(plan) && Arrivals(Create(n, period, plan)) == Pending(plan)
  {
  }

  /** The run of a plan completes all of its arrivals, and only those. */
  lemma PlanRuns(n: nat, period: nat, plan: Agenda<Action>) returns (ord: seq<nat>, who: seq<nat>)
    requires n > 0 && Plan(plan)
    ensures Inv(RunPlan(n, period, plan, RunLength(plan)), ord, who)
    ensures Finished(RunPlan(n, period, plan, RunLength(plan)), Create(n, period, plan))
    ensures Arrivals(Create(n, period, plan)) == Pending(plan)
  {
    var s := Create(n, period, plan);
    PlanInv(n, period, plan);
    PlanLoad(n, period, plan);
    ord, who := RunEnds(s, [], []);
  }

  /** Item by item the same payment, started and completed no later in `ys` than in `xs`. */
  ghost predicate NoLater(xs: seq<Item>, ys: seq<Item>) {
    && |xs| == |ys|
    && forall k :: 0 <= k < |xs| ==>
         && ys[k].posting == xs[k].posting && ys[k].queuedAt == xs[k].queuedAt
         && xs[k].startedAt.Some? && ys[k].startedAt.Some? && ys[k].startedAt.value <= xs[k].startedAt.value
         && xs[k].completedAt.Some? && ys[k].completedAt.Some? && ys[k].completedAt.value <= xs[k].completedAt.value
  }

  /**
   Adding workers never delays anyone: for the same scheduled arrivals, each
   payment is the same in both runs, and with m >= n workers it starts and
   completes no later than with n.
   */
  lemma MoreWorkersNeverDelay(n: nat, m: nat, period: nat, plan: Agenda<Action>)
    requires 0 < n <= m && Plan(plan)
    ensures var few, many := RunPlan(n, period, plan, RunLength(plan)), RunPlan(m, period, plan, RunLength(plan));
            && few.agenda.queue == many.agenda.queue == []
            && |few.items| == |Pending(plan)|
            && NoLater(few.items, many.items)
  {
    var ord1, who1 := PlanRuns(n, period, plan);
    var ord2, who2 := PlanRuns(m, period, plan);
    SameArrivalsFaster(RunPlan(n, period, plan, RunLength(plan)), RunPlan(m, period, plan, RunLength(plan)),
                       ord1, who1, ord2, who2);
  }

  lemma SameArrivals(xs: seq<Item>, ys: seq<Item>, k: nat)
    requires Admitted(xs) == Admitted(ys) && k < |xs|
    ensures |xs| == |ys| && xs[k].posting == ys[k].posting && xs[k].queuedAt == ys[k].queuedAt
  {
    assert |Admitted(xs)| == |Admitted(ys)|;
    assert Admitted(xs)[k] == Admitted(ys)[k];
  }

  lemma AllFaster(xs: seq<Item>, ys: seq<Item>, n: nat, m: nat, period: nat, k: nat)
    requires 0 < n <= m && k < |xs|
    requires Recurs(xs, n, period) && Recurs(ys, m, period) && Monotone(xs)
    requires Admitted(xs) == Admitted(ys)
    requires forall j :: 0 <= j < |xs| ==> xs[j].startedAt.Some?
    requires forall j :: 0 <= j < |ys| ==> ys[j].startedAt.Some?
    ensures k < |ys| && ys[k].startedAt.value <= xs[k].startedAt.value
    ensures ys[k].posting == xs[k].posting && ys[k].queuedAt == xs[k].queuedAt
  {
    forall j | 0 <= j < |xs|
      ensures j < |ys| && xs[j].posting == ys[j].posting && xs[j].queuedAt == ys[j].queuedAt
    {
      SameArrivals(xs, ys, j);
    }
    Faster(xs, ys, n, m, period, k);
  }

  lemma SameArrivalsFaster(few: Pool, many: Pool, ord1: seq<nat>, who1: seq<nat>, ord2: seq<nat>, who2: seq<nat>)
    requires Inv(few, ord1, who1) && Inv(many, ord2, who2)
    requires |few.workers| <= |many.workers| && few.period == many.period
    requires Admitted(few.items) == Admitted(many.items)
    requires |few.completed| == |few.items| && |many.completed| == |many.items|
    ensures NoLater(few.items, many.items)
  {
    if few.items != [] { SameArrivals(few.items, many.items, 0); }
    if many.items != [] { SameArrivals(many.items, few.items, 0); }
    forall k | 0 <= k < |few.items|
      ensures many.items[k].startedAt.value <= few.items[k].startedAt.value
      ensures many.items[k].posting == few.items[k].posting && many.items[k].queuedAt == few.items[k].queuedAt
    {
      AllFaster(few.items, many.items, |few.workers|, |many.workers|, few.period, k);
    }
  }

  /** The completed payments are those of `arrivals`, in that order, and each has been posted once. */
  ghost predicate PostedExactly(s: Pool, arrivals: seq<Arrival>) {
    && |s.posted| == |s.completed| == |arrivals|
    && forall k :: 0 <= k < |arrivals| ==> s.completed[k] == k && s.posted[k] == arrivals[k].posting
  }

  /**
   Capacity changes latency, never financial history: any two worker counts
   and processing times post the same effects in the same order, namely one
   per scheduled arrival, in arrival order.
   */
  lemma CapacityNeverChangesTheLedger(n: nat, m: nat, period1: nat, period2: nat, plan: Agenda<Action>)
    requires n > 0 && m > 0 && Plan(plan)
    ensures var s, t := RunPlan(n, period1, plan, RunLength(plan)), RunPlan(m, period2, plan, RunLength(plan));
            && PostedExactly(s, Pending(plan)) && PostedExactly(t, Pending(plan))
            && s.posted == t.posted && s.completed == t.completed
  {
    var s, t := RunPlan(n, period1, plan, RunLength(plan)), RunPlan(m, period2, plan, RunLength(plan));
    var ord1, who1 := PlanRuns(n, period1, plan);
    var ord2, who2 := PlanRuns(m, period2, plan);
    PostedInOrder(s, ord1, who1);
    PostedInOrder(t, ord2, who2);
    PostedAlike(s, t, Pending(plan));
  }

  lemma PostedAlike(s: Pool, t: Pool, arrivals: seq<Arrival>)
    requires PostedExactly(s, arrivals) && PostedExactly(t, arrivals)
    ensures s.posted == t.posted && s.completed == t.completed
  {
  }

  lemma PostedInOrder(t: Pool, ord: seq<nat>, who: seq<nat>)
    requires Inv(t, ord, who) && |t.completed| == |t.items|
    ensures PostedExactly(t, Admitted(t.items))
  {
  }

  /** Whenever nothing is pending the recorded depth area is the sum of the waits of the completed payments. */
  lemma DrainedArea(n: nat, period: nat, now: nat, ops: seq<Op>)
    requires n > 0
    ensures var s := Exec(Create(n, period, Start(now)), ops);
            s.agenda.queue == [] ==> AreaIsTotalWait(s)
  {
    var a, ord, who := ReachableFacts(Create(n, period, Start(now)), n, period, now, ops);
    DrainedAreaIn(Exec(Create(n, period, Start(now)), ops), a, ord, who);
  }

  lemma ReachableFacts(s0: Pool, n: nat, period: nat, now: nat, ops: seq<Op>)
    returns (a: nat, ord: seq<nat>, who: seq<nat>)
    requires n > 0 && s0 == Create(n, period, Start(now))
    ensures Inv(Exec(s0, ops), ord, who) && Little(Exec(s0, ops), a)
  {
    CreateInv(n, period, now);
    ord, who := ExecKeepsInv(s0, ops, [], []);
    a := ExecLittle(s0, ops, 0);
  }

  lemma DrainedAreaIn(s: Pool, a: nat, ord: seq<nat>, who: seq<nat>)
    requires Inv(s, ord, who) && Little(s, a)
    ensures s.agenda.queue == [] ==> AreaIsTotalWait(s)
  {
    if s.agenda.queue == [] {
      IdleIsFinished(s, ord, who);
      DrainedAreaIsTotalWait(s, a, ord, who);
    }
  }
}
