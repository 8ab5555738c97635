/**
 The pool's list of events: every arrival, assignment and completion once and
 in order, with the worker and the length of the line, and with them the time
 each worker has been busy.
 */
module WorkerPoolLog {
  import opened Wrappers
  import opened Scheduling
  import opened WorkerPools
  import opened WorkerPoolInvariant

  type Log = seq<CapacityEvent>

  /** The events of one kind, in order. */
  ghost function Of(kind: Kind, log: Log): (r: Log)
    ensures |r| <= |log|
  {
    if log == [] then []
    else
      var init, last := log[..|log| - 1], log[|log| - 1];
      Of(kind, init) + (if last.kind == kind then [last] else [])
  }

  lemma OneMore(kind: Kind, log: Log, e: CapacityEvent)
    ensures Of(kind, log + [e]) == Of(kind, log) + (if e.kind == kind then [e] else [])
  {
    assert (log + [e])[..|log|] == log;
  }

  // ----- What the events are to say -----

  /** How many payments have been handed to a worker: all but those that wait. */
  ghost function Started(s: Pool): int {
    |s.items| - |s.waiting|
  }

  /** The line is the end of the table, the completed payments are its beginning, and the stamps say so. */
  ghost predicate InLine(s: Pool) {
    && WellFormed(s) && |s.completed| <= Started(s)
    && (forall i :: 0 <= i < |s.waiting| ==> s.waiting[i] == Started(s) + i)
    && (forall i :: 0 <= i < |s.completed| ==> s.completed[i] == i)
    && (forall k :: 0 <= k < |s.items| ==> (s.items[k].startedAt.Some? <==> k < Started(s)))
    && (forall k :: 0 <= k < |s.items| ==> (s.items[k].completedAt.Some? <==> k < |s.completed|))
  }

  ghost predicate TellsArrival(e: CapacityEvent, x: Item) {
    e.time == x.queuedAt && e.id == x.posting.id && e.worker == None && e.depth == x.position
  }

  ghost predicate TellsStart(e: CapacityEvent, x: Item, workers: nat) {
    Some(e.time) == x.startedAt && e.id == x.posting.id && e.worker.Some? && e.worker.value < workers
  }

  /** The worker that completes a payment is the one it was assigned to. */
  ghost predicate TellsEnd(e: CapacityEvent, x: Item, start: CapacityEvent) {
    Some(e.time) == x.completedAt && e.id == x.posting.id && e.worker == start.worker
  }

  ghost predicate ArrivalsTold(told: Log, items: seq<Item>) {
    |told| == |items| && forall k :: 0 <= k < |told| ==> TellsArrival(told[k], items[k])
  }

  ghost predicate StartsTold(told: Log, items: seq<Item>, started: nat, workers: nat) {
    |told| == started <= |items| && forall k :: 0 <= k < |told| ==> TellsStart(told[k], items[k], workers)
  }

  ghost predicate EndsTold(told: Log, items: seq<Item>, starts: Log) {
    |told| <= |starts| <= |items| && forall k :: 0 <= k < |told| ==> TellsEnd(told[k], items[k], starts[k])
  }

  /** A worker has the payment that the events say was assigned to it and that is not completed. */
  ghost predicate CurrentTold(workers: seq<Worker>, starts: Log) {
    forall w :: 0 <= w < |workers| && workers[w].current.Some? ==>
      workers[w].current.value < |starts| && starts[workers[w].current.value].worker == Some(w)
  }

  /** The depth told by each event is that of the line after it. */
  ghost predicate DepthsTold(log: Log) {
    forall i :: 0 <= i < |log| ==> log[i].depth == |Of(Arrived, log[..i + 1])| - |Of(Assigned, log[..i + 1])|
  }

  ghost predicate Done(items: seq<Item>, starts: Log, c: nat) {
    c <= |starts| <= |items| && forall k :: 0 <= k < c ==> items[k].startedAt.Some? && items[k].completedAt.Some?
  }

  /** The service times of those of the first `c` payments that worker `w` had. */
  ghost function ServiceTime(items: seq<Item>, starts: Log, c: nat, w: nat): int
    requires Done(items, starts, c)
  {
    if c == 0 then 0
    else
      var x := items[c - 1];
      ServiceTime(items, starts, c - 1, w)
      + (if starts[c - 1].worker == Some(w) then x.completedAt.value - x.startedAt.value else 0)
  }

  ghost function ServedCount(starts: Log, c: nat, w: nat): nat
    requires c <= |starts|
  {
    if c == 0 then 0 else ServedCount(starts, c - 1, w) + (if starts[c - 1].worker == Some(w) then 1 else 0)
  }

  ghost predicate LogTold(log: Log, items: seq<Item>, started: int, c: nat, workers: seq<Worker>) {
    && 0 <= started
    && ArrivalsTold(Of(Arrived, log), items)
    && StartsTold(Of(Assigned, log), items, started, |workers|)
    && |Of(Completed, log)| == c && EndsTold(Of(Completed, log), items, Of(Assigned, log))
    && CurrentTold(workers, Of(Assigned, log))
    && DepthsTold(log)
  }

  ghost predicate WorkTold(items: seq<Item>, starts: Log, c: nat, workers: seq<Worker>) {
    && Done(items, starts, c)
    && forall w :: 0 <= w < |workers| ==>
         && workers[w].busyTime == ServiceTime(items, starts, c, w)
         && workers[w].finished == ServedCount(starts, c, w)
  }

  ghost predicate Chronological(log: Log, now: nat) {
    && (forall i, j :: 0 <= i < j < |log| ==> log[i].time <= log[j].time)
    && (forall i :: 0 <= i < |log| ==> log[i].time <= now)
  }

  ghost predicate Told(s: Pool) {
    && InLine(s) && LogTold(s.log, s.items, Started(s), |s.completed|, s.workers)
    && WorkTold(s.items, Of(Assigned, s.log), |s.completed|, s.workers)
    && Chronological(s.log, s.agenda.now)
  }

  // ----- Sums that do not change -----

  lemma {:induction false} SameService(items: seq<Item>, starts: Log, items': seq<Item>, starts': Log, c: nat, w: nat)
    requires Done(items, starts, c) && c <= |starts'| <= |items'|
    requires forall k :: 0 <= k < c ==> items'[k] == items[k] && starts'[k] == starts[k]
    ensures Done(items', starts', c)
    ensures ServiceTime(items', starts', c, w) == ServiceTime(items, starts, c, w)
    ensures ServedCount(starts', c, w) == ServedCount(starts, c, w)
    decreases c
  {
    if c > 0 {
      SameService(items, starts, items', starts', c - 1, w);
    }
  }

  /** Neither the completed payments nor what the workers have done changes. */
  lemma SameWork(items: seq<Item>, starts: Log, c: nat, workers: seq<Worker>, items': seq<Item>, starts': Log,
                 workers': seq<Worker>)
    requires WorkTold(items, starts, c, workers) && c <= |starts'| <= |items'| && |workers'| == |workers|
    requires forall k :: 0 <= k < c ==> items'[k] == items[k] && starts'[k] == starts[k]
    requires forall w :: 0 <= w < |workers| ==>
               workers'[w].busyTime == workers[w].busyTime && workers'[w].finished == workers[w].finished
    ensures WorkTold(items', starts', c, workers')
  {
    SameService(items, starts, items', starts', c, 0);
    forall w | 0 <= w < |workers'|
      ensures workers'[w].busyTime == ServiceTime(items', starts', c, w) && workers'[w].finished == ServedCount(starts', c, w)
    {
      SameService(items, starts, items', starts', c, w);
    }
  }

  lemma MoreWork(items: seq<Item>, starts: Log, c: nat, workers: seq<Worker>, items': seq<Item>, w: nat, me: Worker)
    requires WorkTold(items, starts, c, workers) && c < |starts| <= |items'| && w < |workers|
    requires forall k :: 0 <= k < c ==> items'[k] == items[k]
    requires items'[c].startedAt.Some? && items'[c].completedAt.Some? && starts[c].worker == Some(w)
    requires me.busyTime == workers[w].busyTime + items'[c].completedAt.value - items'[c].startedAt.value
    requires me.finished == workers[w].finished + 1
    ensures WorkTold(items', starts, c + 1, workers[w := me])
  {
    var workers' := workers[w := me];
    SameService(items, starts, items', starts, c, 0);
    forall v | 0 <= v < |workers'|
      ensures workers'[v].busyTime == ServiceTime(items', starts, c + 1, v)
      ensures workers'[v].finished == ServedCount(starts, c + 1, v)
    {
      SameService(items, starts, items', starts, c, v);
    }
  }

  lemma DepthsGrow(log: Log, e: CapacityEvent)
    requires DepthsTold(log) && e.depth == |Of(Arrived, log + [e])| - |Of(Assigned, log + [e])|
    ensures DepthsTold(log + [e])
  {
    var log' := log + [e];
    forall i | 0 <= i < |log'|
      ensures log'[i].depth == |Of(Arrived, log'[..i + 1])| - |Of(Assigned, log'[..i + 1])|
    {
      if i < |log| {
        assert log'[..i + 1] == log[..i + 1];
      } else {
        assert log'[..i + 1] == log';
      }
    }
  }

  lemma TimeGoesOn(log: Log, now: nat, e: CapacityEvent)
    requires Chronological(log, now) && e.time == now
    ensures Chronological(log + [e], now)
  {
  }

  lemma IsTold(s: Pool, started: int, c: nat, starts: Log)
    requires InLine(s) && started == Started(s) && c == |s.completed| && starts == Of(Assigned, s.log)
    requires LogTold(s.log, s.items, started, c, s.workers) && WorkTold(s.items, starts, c, s.workers)
    requires Chronological(s.log, s.agenda.now)
    ensures Told(s)
  {
  }

  // ----- A payment joins -----

  lemma JoinInLine(s: Pool, p: Posting)
    requires InLine(s)
    ensures InLine(Join(s, p)) && Started(Join(s, p)) == Started(s)
  {
  }

  lemma JoinLog(log: Log, items: seq<Item>, started: int, c: nat, workers: seq<Worker>, e: CapacityEvent, x: Item)
    requires LogTold(log, items, started, c, workers)
    requires e.kind == Arrived && TellsArrival(e, x) && e.depth == |items| + 1 - started
    ensures LogTold(log + [e], items + [x], started, c, workers) && Of(Assigned, log + [e]) == Of(Assigned, log)
  {
    OneMore(Arrived, log, e);
    OneMore(Assigned, log, e);
    OneMore(Completed, log, e);
    DepthsGrow(log, e);
  }

  lemma JoinLogTold(s: Pool, p: Posting)
    requires Told(s)
    ensures var s' := Join(s, p);
            && LogTold(s'.log, s'.items, Started(s), |s.completed|, s'.workers)
            && Of(Assigned, s'.log) == Of(Assigned, s.log) && Chronological(s'.log, s.agenda.now)
  {
    var s' := Join(s, p);
    var e := s'.log[|s.log|];
    JoinLog(s.log, s.items, Started(s), |s.completed|, s.workers, e, s'.items[|s.items|]);
    TimeGoesOn(s.log, s.agenda.now, e);
  }

  lemma JoinWork(s: Pool, p: Posting, starts: Log)
    requires InLine(s) && WorkTold(s.items, starts, |s.completed|, s.workers)
    ensures WorkTold(Join(s, p).items, starts, |s.completed|, Join(s, p).workers)
  {
    SameWork(s.items, starts, |s.completed|, s.workers, Join(s, p).items, starts, s.workers);
  }

  lemma JoinTold(s: Pool, p: Posting)
    requires Told(s)
    ensures Told(Join(s, p))
  {
    JoinInLine(s, p);
    JoinLogTold(s, p);
    JoinWork(s, p, Of(Assigned, s.log));
    IsTold(Join(s, p), Started(s), |s.completed|, Of(Assigned, s.log));
  }

  // ----- A payment is assigned -----

  lemma AssignInLine(s: Pool, w: nat)
    requires InLine(s) && s.waiting != [] && w < |s.workers|
    ensures InLine(Assign(s, w)) && Started(Assign(s, w)) == Started(s) + 1
  {
  }

  lemma AssignStarts(starts: Log, items: seq<Item>, workers: nat, e: CapacityEvent, now: nat)
    requires |starts| < |items| && StartsTold(starts, items, |starts|, workers)
    requires TellsStart(e, items[|starts|].(startedAt := Some(now)), workers)
    ensures StartsTold(starts + [e], StartItem(items, |starts|, now), |starts| + 1, workers)
  {
  }

  lemma AssignKeepsTold(arrivals: Log, ends: Log, starts: Log, items: seq<Item>, e: CapacityEvent, a: nat, now: nat)
    requires ArrivalsTold(arrivals, items) && EndsTold(ends, items, starts) && a == |starts| < |items|
    ensures ArrivalsTold(arrivals, StartItem(items, a, now)) && EndsTold(ends, StartItem(items, a, now), starts + [e])
  {
  }

  lemma AssignCurrent(workers: seq<Worker>, starts: Log, e: CapacityEvent, w: nat)
    requires CurrentTold(workers, starts) && w < |workers| && e.worker == Some(w)
    ensures CurrentTold(workers[w := workers[w].(current := Some(|starts|))], starts + [e])
  {
  }

  lemma AssignLog(log: Log, items: seq<Item>, started: nat, c: nat, workers: seq<Worker>, e: CapacityEvent, now: nat, w: nat)
    requires LogTold(log, items, started, c, workers) && c <= started < |items| && w < |workers|
    requires e == CapacityEvent(now, Assigned, items[started].posting.id, Some(w), e.depth) && e.depth == |items| - started - 1
    ensures LogTold(log + [e], StartItem(items, started, now), started + 1, c, workers[w := workers[w].(current := Some(started))])
    ensures Of(Assigned, log + [e]) == Of(Assigned, log) + [e]
  {
    var arrivals, starts, ends := Of(Arrived, log), Of(Assigned, log), Of(Completed, log);
    assert Of(Arrived, log + [e]) == arrivals by { OneMore(Arrived, log, e); }
    assert Of(Assigned, log + [e]) == starts + [e] by { OneMore(Assigned, log, e); }
    assert Of(Completed, log + [e]) == ends by { OneMore(Completed, log, e); }
    AssignKeepsTold(arrivals, ends, starts, items, e, started, now);
    AssignStarts(starts, items, |workers|, e, now);
    AssignCurrent(workers, starts, e, w);
    DepthsGrow(log, e);
  }

  lemma AssignLogTold(s: Pool, w: nat)
    requires Told(s) && s.waiting != [] && w < |s.workers|
    ensures var s' := Assign(s, w);
            && LogTold(s'.log, s'.items, Started(s) + 1, |s.completed|, s'.workers)
            && |Of(Assigned, s'.log)| == Started(s) + 1 && Of(Assigned, s'.log)[..Started(s)] == Of(Assigned, s.log)
            && Chronological(s'.log, s.agenda.now)
  {
    var s' := Assign(s, w);
    var e := s'.log[|s.log|];
    AssignLog(s.log, s.items, Started(s), |s.completed|, s.workers, e, s.agenda.now, w);
    TimeGoesOn(s.log, s.agenda.now, e);
  }

  lemma AssignWork(s: Pool, w: nat, starts: Log)
    requires InLine(s) && s.waiting != [] && w < |s.workers| && |starts| == Started(s) + 1
    requires WorkTold(s.items, starts[..Started(s)], |s.completed|, s.workers)
    ensures WorkTold(Assign(s, w).items, starts, |s.completed|, Assign(s, w).workers)
  {
    SameWork(s.items, starts[..Started(s)], |s.completed|, s.workers, Assign(s, w).items, starts, Assign(s, w).workers);
  }

  lemma AssignTold(s: Pool, w: nat)
    requires Told(s) && s.waiting != [] && w < |s.workers|
    ensures Told(Assign(s, w))
  {
    AssignInLine(s, w);
    AssignLogTold(s, w);
    AssignWork(s, w, Of(Assigned, Assign(s, w).log));
    IsTold(Assign(s, w), Started(s) + 1, |s.completed|, Of(Assigned, Assign(s, w).log));
  }

  /** What every assignment keeps, dispatching keeps. */
  ghost predicate KeptByAssigning(ok: Pool -> bool) {
    forall s: Pool, w: nat :: Assignable(s, w) && ok(s) ==> ok(Assign(s, w))
  }

  ghost predicate Assignable(s: Pool, w: nat) {
    WellFormed(s) && s.waiting != [] && w < |s.workers| && !Busy(s, w)
  }

  lemma {:induction false} DispatchKeeps(s: Pool, w: nat, ok: Pool -> bool)
    requires WellFormed(s) && w <= |s.workers| && ok(s) && KeptByAssigning(ok)
    ensures ok(Dispatch(s, w))
    decreases |s.workers| - w
  {
    if w < |s.workers| && s.waiting != [] {
      if Busy(s, w) {
        DispatchKeeps(s, w + 1, ok);
      } else {
        assert Assignable(s, w);
        DispatchKeeps(Assign(s, w), w + 1, ok);
      }
    }
  }

  lemma DispatchTold(s: Pool, w: nat)
    requires Told(s) && w <= |s.workers|
    ensures Told(Dispatch(s, w))
  {
    var ok := (t: Pool) => Told(t);
    forall t: Pool, v: nat | Assignable(t, v) && ok(t) ensures ok(Assign(t, v)) {
      AssignTold(t, v);
    }
    DispatchKeeps(s, w, ok);
  }

  // ----- A payment is completed -----

  /** Worker `w` has the oldest payment in service, which has been served for one period. */
  ghost predicate Ending(s: Pool, w: nat) {
    && w < |s.workers| && s.workers[w].current == Some(|s.completed|) && |s.completed| < Started(s)
    && s.items[|s.completed|].startedAt.Some? && s.agenda.now == s.items[|s.completed|].startedAt.value + s.period
  }

  lemma ReleaseInLine(s: Pool, w: nat)
    requires InLine(s) && Ending(s, w)
    ensures InLine(Release(s, w)) && Started(Release(s, w)) == Started(s)
  {
  }

  lemma ReleaseEnds(ends: Log, items: seq<Item>, starts: Log, e: CapacityEvent, now: nat)
    requires EndsTold(ends, items, starts) && |ends| < |starts| && e.id == items[|ends|].posting.id && e.time == now
    requires e.worker == starts[|ends|].worker
    ensures EndsTold(ends + [e], FinishItem(items, |ends|, now), starts)
  {
  }

  lemma FinishKeepsTold(arrivals: Log, starts: Log, items: seq<Item>, started: nat, workers: nat, c: nat, now: nat)
    requires ArrivalsTold(arrivals, items) && StartsTold(starts, items, started, workers) && c < |items|
    ensures ArrivalsTold(arrivals, FinishItem(items, c, now)) && StartsTold(starts, FinishItem(items, c, now), started, workers)
  {
  }

  lemma ReleaseCurrent(workers: seq<Worker>, starts: Log, w: nat, me: Worker)
    requires CurrentTold(workers, starts) && w < |workers| && me.current.None?
    ensures CurrentTold(workers[w := me], starts)
  {
  }

  lemma ReleaseLog(log: Log, items: seq<Item>, started: nat, c: nat, workers: seq<Worker>, e: CapacityEvent, now: nat, w: nat,
                   me: Worker)
    requires LogTold(log, items, started, c, workers) && c < started <= |items|
    requires w < |workers| && workers[w].current == Some(c) && me.current.None? && e.depth == |items| - started
    requires e == CapacityEvent(now, Completed, items[c].posting.id, Some(w), e.depth)
    ensures LogTold(log + [e], FinishItem(items, c, now), started, c + 1, workers[w := me])
    ensures Of(Assigned, log + [e]) == Of(Assigned, log) && Of(Assigned, log)[c].worker == Some(w)
  {
    var arrivals, starts, ends := Of(Arrived, log), Of(Assigned, log), Of(Completed, log);
    assert Of(Arrived, log + [e]) == arrivals by { OneMore(Arrived, log, e); }
    assert Of(Assigned, log + [e]) == starts by { OneMore(Assigned, log, e); }
    assert Of(Completed, log + [e]) == ends + [e] by { OneMore(Completed, log, e); }
    assert starts[c].worker == Some(w);
    FinishKeepsTold(arrivals, starts, items, started, |workers|, c, now);
    ReleaseEnds(ends, items, starts, e, now);
    ReleaseCurrent(workers, starts, w, me);
    DepthsGrow(log, e);
  }

  lemma ReleaseLogTold(s: Pool, w: nat)
    requires Told(s) && Ending(s, w)
    ensures var s' := Release(s, w);
            && LogTold(s'.log, s'.items, Started(s), |s.completed| + 1, s'.workers)
            && Of(Assigned, s'.log) == Of(Assigned, s.log) && Of(Assigned, s.log)[|s.completed|].worker == Some(w)
            && Chronological(s'.log, s.agenda.now)
  {
    var s', c := Release(s, w), |s.completed|;
    var e := s'.log[|s.log|];
    ReleaseLog(s.log, s.items, Started(s), c, s.workers, e, s.agenda.now, w, s'.workers[w]);
    TimeGoesOn(s.log, s.agenda.now, e);
  }

  lemma ReleaseWork(s: Pool, w: nat, starts: Log)
    requires InLine(s) && Ending(s, w) && WorkTold(s.items, starts, |s.completed|, s.workers)
    requires |s.completed| < |starts| && starts[|s.completed|].worker == Some(w)
    ensures WorkTold(Release(s, w).items, starts, |s.completed| + 1, Release(s, w).workers)
  {
    MoreWork(s.items, starts, |s.completed|, s.workers, Release(s, w).items, w, Release(s, w).workers[w]);
  }

  lemma ReleaseTold(s: Pool, w: nat)
    requires Told(s) && Ending(s, w)
    ensures Told(Release(s, w))
  {
    ReleaseInLine(s, w);
    ReleaseLogTold(s, w);
    ReleaseWork(s, w, Of(Assigned, s.log));
    IsTold(Release(s, w), Started(s), |s.completed| + 1, Of(Assigned, s.log));
  }

  // ----- Operations -----

  lemma LaterTold(s: Pool, later: Agenda<Action>)
    requires Told(s) && s.agenda.now <= later.now
    ensures Told(s.(agenda := later))
  {
  }

  lemma ArrivalTold(s: Pool)
    requires Told(s) && TakeNext(s.agenda).Due? && TakeNext(s.agenda).event.action.Arrive?
    requires s.agenda.now <= TakeNext(s.agenda).rest.now
    ensures Told(Step(s))
  {
    var Due(e, rest) := TakeNext(s.agenda);
    var s1 := s.(agenda := rest);
    LaterTold(s, rest);
    JoinTold(s1, e.action.posting);
    DispatchTold(Join(s1, e.action.posting), 0);
    ArrivalStepIs(s);
    var s2 := Enqueue(s1, e.action.posting);
    LaterTold(s2, Record(s2.agenda, e));
  }

  lemma CompletionTold(s: Pool, ord: seq<nat>, who: seq<nat>)
    requires Told(s) && Inv(s, ord, who) && TakeNext(s.agenda).Due? && TakeNext(s.agenda).event.action.Complete?
    ensures Told(Step(s))
  {
    var Due(e, rest) := TakeNext(s.agenda);
    var s1, w := s.(agenda := rest), e.action.worker;
    NextCompletionIsOldest(s, ord, who);
    TakeNextValid(s.agenda);
    LaterTold(s, rest);
    ReleaseTold(s1, w);
    DispatchTold(Release(s1, w), 0);
    CompletionStepIs(s);
    var s2 := Dispatch(Release(s1, w), 0);
    LaterTold(s2, Record(s2.agenda, e));
  }

  lemma StepTold(s: Pool, ord: seq<nat>, who: seq<nat>)
    requires Told(s) && Inv(s, ord, who)
    ensures Told(Step(s))
  {
    if s.agenda.queue != [] {
      TakeNextValid(s.agenda);
      if s.agenda.queue[0].action.Arrive? {
        ArrivalTold(s);
      } else {
        CompletionTold(s, ord, who);
      }
    }
  }

  lemma DoTold(s: Pool, op: Op, ord: seq<nat>, who: seq<nat>)
    requires Told(s) && Inv(s, ord, who)
    ensures Told(Do(s, op))
  {
    match op
    case ScheduleArrival(t, p) =>
      if ScheduleAt(s.agenda, t, Arrive(p)).Some? {
        LaterTold(s, ScheduleAt(s.agenda, t, Arrive(p)).value);
      }
    case EnqueueNow(p) =>
      JoinTold(s, p);
      DispatchTold(Join(s, p), 0);
    case AdvanceClock(t) => LaterTold(s, Advance(s.agenda, t));
    case RunNext => StepTold(s, ord, who);
  }

  /** The state is reached by arrivals, clock moves and events. */
  ghost predicate Reached(n: nat, period: nat, now: nat, ops: seq<Op>, s: Pool) {
    n > 0 && s == Exec(Create(n, period, Start(now)), ops)
  }

  lemma {:induction false} ReachedTold(n: nat, period: nat, now: nat, ops: seq<Op>, s: Pool)
    returns (ord: seq<nat>, who: seq<nat>)
    requires Reached(n, period, now, ops, s)
    ensures Told(s) && Inv(s, ord, who) && |s.workers| == n && s.period == period
    decreases |ops|
  {
    if ops == [] {
      ord, who := [], [];
      CreateInv(n, period, now);
    } else {
      var init, before := ops[..|ops| - 1], Exec(Create(n, period, Start(now)), ops[..|ops| - 1]);
      ord, who := ReachedTold(n, period, now, init, before);
      DoTold(before, ops[|ops| - 1], ord, who);
      ord, who := DoKeepsInv(before, ops[|ops| - 1], ord, who);
      ExecKeepsSize(Create(n, period, Start(now)), ops);
    }
  }

  // ----- In every reached state -----

  /**
   The events tell, in time, of the arrival of every payment with its place in
   the line, of the start of every payment handed to a worker, and of every
   completion by that worker, each once and in arrival order, and each with the
   length of the line after it.
   */
  lemma LogIsTrue(n: nat, period: nat, now: nat, ops: seq<Op>, s: Pool)
    requires Reached(n, period, now, ops, s)
    ensures ArrivalsTold(Of(Arrived, s.log), s.items)
    ensures |s.waiting| <= |s.items| && StartsTold(Of(Assigned, s.log), s.items, |s.items| - |s.waiting|, n)
    ensures |Of(Completed, s.log)| == |s.completed| && EndsTold(Of(Completed, s.log), s.items, Of(Assigned, s.log))
    ensures DepthsTold(s.log) && Chronological(s.log, s.agenda.now)
  {
    var ord, who := ReachedTold(n, period, now, ops, s);
  }

  /** A worker has completed the payments that were assigned to it and are done, and was busy for as long as their service took. */
  lemma WorkersAreTrue(n: nat, period: nat, now: nat, ops: seq<Op>, s: Pool, w: nat)
    requires Reached(n, period, now, ops, s) && w < n
    ensures |s.workers| == n && Done(s.items, Of(Assigned, s.log), |s.completed|)
    ensures s.workers[w].busyTime == ServiceTime(s.items, Of(Assigned, s.log), |s.completed|, w)
    ensures s.workers[w].finished == ServedCount(Of(Assigned, s.log), |s.completed|, w)
  {
    var ord, who := ReachedTold(n, period, now, ops, s);
  }
}
