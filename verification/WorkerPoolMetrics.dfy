/**
 The measurements of the pool: Little's law for the recorded depth area, and
 the bounds on busy time that keep utilisation at or below one hundred.
 */
module WorkerPoolMetrics {
  import opened Wrappers
  import opened Scheduling
  import opened WorkerPools
  import opened WorkerPoolInvariant

  // ----- Little's law -----

  /** What a payment has waited by time `t`: until its start, or so far. */
  ghost function Waited(x: Item, t: int): int {
    (if x.startedAt.Some? then x.startedAt.value else t) - x.queuedAt
  }

  ghost function TotalWaited(items: seq<Item>, t: int): int {
    if items == [] then 0
    else TotalWaited(items[..|items| - 1], t) + Waited(items[|items| - 1], t)
  }

  ghost predicate StartedFirst(items: seq<Item>, a: nat) {
    a <= |items| && forall k :: 0 <= k < |items| ==> (items[k].startedAt.Some? <==> k < a)
  }

  /** Over an interval without starts, every waiting payment waits the length of the interval. */
  lemma {:induction false} WaitingAccrues(items: seq<Item>, a: nat, t: int, u: int)
    requires StartedFirst(items, a)
    ensures TotalWaited(items, u) == TotalWaited(items, t) + (|items| - a) * (u - t)
    decreases |items|
  {
    if items != [] {
      var init := items[..|items| - 1];
      if a < |items| {
        WaitingAccrues(init, a, t, u);
        assert (|items| - a) * (u - t) == (|init| - a) * (u - t) + (u - t);
      } else {
        WaitingAccrues(init, |init|, t, u);
      }
    }
  }

  lemma {:induction false} WaitedAtStart(items: seq<Item>, k: nat, t: nat)
    requires k < |items| && items[k].startedAt.None?
    ensures TotalWaited(StartItem(items, k, t), t) == TotalWaited(items, t)
    decreases |items|
  {
    var init, items' := items[..|items| - 1], StartItem(items, k, t);
    if k < |init| {
      WaitedAtStart(init, k, t);
      assert items'[..|items| - 1] == StartItem(init, k, t);
    } else {
      assert items'[..|items| - 1] == init;
    }
  }

  lemma {:induction false} WaitedAtFinish(items: seq<Item>, k: nat, now: nat, t: int)
    requires k < |items|
    ensures TotalWaited(FinishItem(items, k, now), t) == TotalWaited(items, t)
    decreases |items|
  {
    var init, items' := items[..|items| - 1], FinishItem(items, k, now);
    if k < |init| {
      WaitedAtFinish(init, k, now, t);
      assert items'[..|items| - 1] == FinishItem(init, k, now);
    } else {
      assert items'[..|items| - 1] == init;
    }
  }

  lemma WaitedAtJoin(items: seq<Item>, x: Item, t: nat)
    requires x.startedAt.None? && x.queuedAt == t
    ensures TotalWaited(items + [x], t) == TotalWaited(items, t)
  {
    assert (items + [x])[..|items|] == items;
  }

  /** The waiting line is the unstarted part of the table, and the area is what has been waited. */
  ghost predicate Little(s: Pool, a: nat) {
    && WellFormed(s)
    && StartedFirst(s.items, a)
    && |s.waiting| == |s.items| - a
    && (forall i :: 0 <= i < |s.waiting| ==> s.waiting[i] == a + i)
    && s.lastChange <= s.agenda.now
    && s.area == TotalWaited(s.items, s.lastChange)
  }

  lemma RecordDepthLittle(s: Pool, a: nat)
    requires Little(s, a)
    ensures Little(RecordDepth(s), a)
  {
    WaitingAccrues(s.items, a, s.lastChange, s.agenda.now);
  }

  lemma AssignLittle(s: Pool, w: nat, a: nat)
    requires Little(s, a) && s.waiting != [] && w < |s.workers|
    ensures Little(Assign(s, w), a + 1)
  {
    RecordDepthLittle(s, a);
    WaitedAtStart(s.items, a, s.agenda.now);
    assert Assign(s, w).items == StartItem(s.items, a, s.agenda.now);
  }

  lemma {:induction false} DispatchLittle(s: Pool, w: nat, a: nat) returns (a': nat)
    requires Little(s, a) && w <= |s.workers|
    ensures Little(Dispatch(s, w), a')
    decreases |s.workers| - w
  {
    a' := a;
    if w < |s.workers| && s.waiting != [] {
      if Busy(s, w) {
        a' := DispatchLittle(s, w + 1, a);
      } else {
        AssignLittle(s, w, a);
        a' := DispatchLittle(Assign(s, w), w + 1, a + 1);
      }
    }
  }

  lemma EnqueueLittle(s: Pool, p: Posting, a: nat) returns (a': nat)
    requires Little(s, a)
    ensures Little(Enqueue(s, p), a')
  {
    RecordDepthLittle(s, a);
    var s1 := Join(s, p);
    WaitedAtJoin(s.items, s1.items[|s.items|], s.agenda.now);
    assert s1.items == s.items + [s1.items[|s.items|]];
    a' := DispatchLittle(s1, 0, a);
  }

  lemma FinishLittle(s: Pool, w: nat, a: nat) returns (a': nat)
    requires Little(s, a) && w < |s.workers| && Busy(s, w)
    ensures Little(Finish(s, w), a')
  {
    var k := s.workers[w].current.value;
    WaitedAtFinish(s.items, k, s.agenda.now, s.lastChange);
    assert Release(s, w).items == FinishItem(s.items, k, s.agenda.now);
    a' := DispatchLittle(Release(s, w), 0, a);
  }

  lemma StepLittle(s: Pool, a: nat) returns (a': nat)
    requires Little(s, a)
    ensures Little(Step(s), a')
  {
    a' := a;
    match TakeNext(s.agenda) {
      case Due(e, rest) =>
        var s1 := s.(agenda := rest);
        match e.action {
          case Arrive(p) => a' := EnqueueLittle(s1, p, a);
          case Complete(w) => if w < |s1.workers| && Busy(s1, w) { a' := FinishLittle(s1, w, a); }
        }
      case _ =>
    }
  }

  lemma {:induction false} ExecLittle(s: Pool, ops: seq<Op>, a: nat) returns (a': nat)
    requires Little(s, a)
    ensures Little(Exec(s, ops), a')
    decreases |ops|
  {
    a' := a;
    if ops != [] {
      var before := Exec(s, ops[..|ops| - 1]);
      a' := ExecLittle(s, ops[..|ops| - 1], a);
      match ops[|ops| - 1] {
        case ScheduleArrival(_, _) =>
        case EnqueueNow(p) => a' := EnqueueLittle(before, p, a');
        case AdvanceClock(_) =>
        case RunNext => a' := StepLittle(before, a');
      }
    }
  }

  /**
   Little's law, exactly: in every reachable state the recorded depth area is
   the total wait of the payments handed to workers plus what the waiting ones
   had waited at the last change of depth.
   */
  lemma LittlesLaw(n: nat, period: nat, now: nat, ops: seq<Op>)
    ensures var s := Exec(Create(n, period, Start(now)), ops);
            s.area == TotalWaited(s.items, s.lastChange)
  {
    var a := ExecLittle(Create(n, period, Start(now)), ops, 0);
  }

  // ----- Busy time -----

  ghost function LastDone(s: Pool): int
    requires |s.completed| <= |s.items|
    requires s.completed != [] ==> s.items[|s.completed| - 1].completedAt.Some?
  {
    if s.completed == [] then 0 else s.items[|s.completed| - 1].completedAt.value
  }

  /** A worker's service intervals fit, one after the other, between the first arrival and `end`. */
  ghost predicate Packed(me: Worker, items: seq<Item>, period: nat, end: int) {
    && me.busyTime == period * me.finished
    && (me.finished > 0 ==> items != [] && items[0].queuedAt + me.busyTime <= end)
    && (me.current.Some? ==>
          && me.current.value < |items| && items[me.current.value].startedAt.Some?
          && items[0].queuedAt + me.busyTime <= items[me.current.value].startedAt.value)
  }

  ghost function FinishedBy(workers: seq<Worker>): nat {
    if workers == [] then 0 else FinishedBy(workers[..|workers| - 1]) + workers[|workers| - 1].finished
  }

  lemma {:induction false} FinishedUpdate(workers: seq<Worker>, w: nat, me: Worker)
    requires w < |workers|
    ensures FinishedBy(workers[w := me]) == FinishedBy(workers) - workers[w].finished + me.finished
    decreases |workers|
  {
    var init := workers[..|workers| - 1];
    if w < |init| {
      FinishedUpdate(init, w, me);
      assert workers[w := me][..|init|] == init[w := me];
    } else {
      assert workers[w := me][..|init|] == init;
    }
  }

  ghost predicate Usage(s: Pool) {
    && |s.completed| <= |s.items|
    && (s.completed != [] ==> s.items[|s.completed| - 1].completedAt.Some?)
    && s.firstArrival == (if s.items == [] then None else Some(s.items[0].queuedAt))
    && (forall w :: 0 <= w < |s.workers| ==> Packed(s.workers[w], s.items, s.period, LastDone(s)))
    && FinishedBy(s.workers) == |s.completed|
  }

  ghost predicate Clocked(s: Pool) {
    && Usage(s)
    && LastDone(s) <= s.agenda.now
    && (s.items != [] ==> s.items[0].queuedAt <= s.agenda.now)
  }

  lemma PackedAfterStart(me: Worker, items: seq<Item>, period: nat, end: int, k: nat, now: nat)
    requires Packed(me, items, period, end) && k < |items| && items[k].startedAt.None?
    ensures Packed(me, StartItem(items, k, now), period, end)
  {
  }

  lemma PackedAtStart(me: Worker, items: seq<Item>, period: nat, end: int, k: nat, now: nat)
    requires Packed(me, items, period, end) && k < |items| && items[k].startedAt.None?
    requires items[0].queuedAt <= now && end <= now
    ensures Packed(me.(current := Some(k)), StartItem(items, k, now), period, end)
  {
  }

  lemma AssignPacked(s: Pool, w: nat, a: nat)
    requires Little(s, a) && Clocked(s) && s.waiting != [] && w < |s.workers| && !Busy(s, w)
    ensures var s' := Assign(s, w);
            && |s'.workers| == |s.workers|
            && forall v :: 0 <= v < |s.workers| ==> Packed(s'.workers[v], s'.items, s.period, LastDone(s))
  {
    var s' := Assign(s, w);
    assert s'.items == StartItem(s.items, a, s.agenda.now);
    forall v | 0 <= v < |s.workers| ensures Packed(s'.workers[v], s'.items, s.period, LastDone(s)) {
      if v == w {
        PackedAtStart(s.workers[v], s.items, s.period, LastDone(s), a, s.agenda.now);
      } else {
        PackedAfterStart(s.workers[v], s.items, s.period, LastDone(s), a, s.agenda.now);
      }
    }
  }

  lemma AssignUsage(s: Pool, w: nat, a: nat)
    requires Little(s, a) && Clocked(s) && s.waiting != [] && w < |s.workers| && !Busy(s, w)
    ensures Clocked(Assign(s, w))
  {
    var s' := Assign(s, w);
    assert s'.items == StartItem(s.items, a, s.agenda.now);
    FinishedUpdate(s.workers, w, s'.workers[w]);
    AssignPacked(s, w, a);
  }

  lemma {:induction false} DispatchUsage(s: Pool, w: nat, a: nat)
    requires Little(s, a) && Clocked(s) && w <= |s.workers|
    ensures Clocked(Dispatch(s, w))
    decreases |s.workers| - w
  {
    if w < |s.workers| && s.waiting != [] {
      if Busy(s, w) {
        DispatchUsage(s, w + 1, a);
      } else {
        AssignLittle(s, w, a);
        AssignUsage(s, w, a);
        DispatchUsage(Assign(s, w), w + 1, a + 1);
      }
    }
  }

  lemma JoinUsage(s: Pool, p: Posting)
    requires WellFormed(s) && Clocked(s)
    ensures Clocked(Join(s, p))
  {
    var s' := Join(s, p);
    forall v | 0 <= v < |s.workers| ensures Packed(s'.workers[v], s'.items, s.period, LastDone(s)) {
      assert Packed(s.workers[v], s.items, s.period, LastDone(s));
    }
  }

  lemma EnqueueUsage(s: Pool, p: Posting, a: nat)
    requires Little(s, a) && Clocked(s)
    ensures Clocked(Enqueue(s, p))
  {
    RecordDepthLittle(s, a);
    var s1 := Join(s, p);
    WaitedAtJoin(s.items, s1.items[|s.items|], s.agenda.now);
    assert s1.items == s.items + [s1.items[|s.items|]];
    JoinUsage(s, p);
    DispatchUsage(s1, 0, a);
  }

  lemma PackedAtFinish(me: Worker, items: seq<Item>, period: nat, end: int, k: nat, now: nat)
    requires Packed(me, items, period, end) && me.current == Some(k) && now == items[k].startedAt.value + period
    ensures Packed(Worker(None, me.finished + 1, me.busyTime + period), FinishItem(items, k, now), period, now)
  {
  }

  lemma PackedAfterFinish(me: Worker, items: seq<Item>, period: nat, end: int, k: nat, now: nat)
    requires Packed(me, items, period, end) && k < |items| && end <= now
    ensures Packed(me, FinishItem(items, k, now), period, now)
  {
  }

  lemma ReleaseUsage(s: Pool, w: nat)
    requires WellFormed(s) && Clocked(s) && w < |s.workers| && s.workers[w].current == Some(|s.completed|)
    requires s.items[|s.completed|].startedAt.Some?
    requires s.agenda.now == s.items[|s.completed|].startedAt.value + s.period
    ensures Clocked(Release(s, w))
  {
    var s', c := Release(s, w), |s.completed|;
    assert s'.items == FinishItem(s.items, c, s.agenda.now);
    FinishedUpdate(s.workers, w, s'.workers[w]);
    forall v | 0 <= v < |s.workers| ensures Packed(s'.workers[v], s'.items, s.period, s.agenda.now) {
      assert Packed(s.workers[v], s.items, s.period, LastDone(s));
      if v == w {
        PackedAtFinish(s.workers[v], s.items, s.period, LastDone(s), c, s.agenda.now);
      } else {
        PackedAfterFinish(s.workers[v], s.items, s.period, LastDone(s), c, s.agenda.now);
      }
    }
  }

  lemma FinishUsage(s: Pool, w: nat, a: nat)
    requires Little(s, a) && Clocked(s) && w < |s.workers| && s.workers[w].current == Some(|s.completed|)
    requires s.items[|s.completed|].startedAt.Some?
    requires s.agenda.now == s.items[|s.completed|].startedAt.value + s.period
    ensures Clocked(Finish(s, w))
  {
    ReleaseUsage(s, w);
    WaitedAtFinish(s.items, |s.completed|, s.agenda.now, s.lastChange);
    assert Release(s, w).items == FinishItem(s.items, |s.completed|, s.agenda.now);
    DispatchUsage(Release(s, w), 0, a);
  }

  /** At a later time the same measurements still fit. */
  lemma LaterUsage(s: Pool, later: Agenda<Action>, a: nat)
    requires Little(s, a) && Clocked(s) && s.agenda.now <= later.now
    ensures Little(s.(agenda := later), a) && Clocked(s.(agenda := later))
  {
    var s' := s.(agenda := later);
    assert forall v :: 0 <= v < |s.workers| ==> Packed(s.workers[v], s.items, s.period, LastDone(s))
                                                ==> Packed(s'.workers[v], s'.items, s'.period, LastDone(s'));
  }

  lemma CompletionFacts(s: Pool, ord: seq<nat>, who: seq<nat>)
    requires Core(s, ord, who) && s.agenda.queue != [] && s.agenda.queue[0].action.Complete?
    ensures var e := s.agenda.queue[0];
            && s.agenda.now <= e.time
            && e.action.worker < |s.workers| && s.workers[e.action.worker].current == Some(|s.completed|)
            && |s.completed| < |s.items| && s.items[|s.completed|].startedAt.Some?
            && e.time == s.items[|s.completed|].startedAt.value + s.period
  {
    NextCompletionIsOldest(s, ord, who);
    assert s.agenda.queue[0] in s.agenda.queue;
  }

  lemma StepArrivalUsage(s: Pool, a: nat)
    requires Little(s, a) && Clocked(s)
    requires TakeNext(s.agenda).Due? && TakeNext(s.agenda).event.action.Arrive?
    requires s.agenda.now <= TakeNext(s.agenda).rest.now
    ensures Clocked(Step(s))
  {
    var Due(e, rest) := TakeNext(s.agenda);
    var s1 := s.(agenda := rest);
    LaterUsage(s, rest, a);
    EnqueueUsage(s1, e.action.posting, a);
    LaterSame(Enqueue(s1, e.action.posting), e);
  }

  lemma StepCompletionUsage(s: Pool, a: nat)
    requires Little(s, a) && Clocked(s)
    requires TakeNext(s.agenda).Due? && TakeNext(s.agenda).event.action.Complete?
    requires var Due(e, rest) := TakeNext(s.agenda);
             && s.agenda.now <= rest.now == e.time
             && e.action.worker < |s.workers| && s.workers[e.action.worker].current == Some(|s.completed|)
             && |s.completed| < |s.items| && s.items[|s.completed|].startedAt.Some?
             && e.time == s.items[|s.completed|].startedAt.value + s.period
    ensures Clocked(Step(s))
  {
    var Due(e, rest) := TakeNext(s.agenda);
    var s1 := s.(agenda := rest);
    LaterUsage(s, rest, a);
    FinishUsage(s1, e.action.worker, a);
    LaterSame(Finish(s1, e.action.worker), e);
  }

  lemma StepUsage(s: Pool, a: nat, ord: seq<nat>, who: seq<nat>)
    requires Inv(s, ord, who) && Little(s, a) && Clocked(s)
    ensures Clocked(Step(s))
  {
    if s.agenda.queue != [] {
      TakeNextValid(s.agenda);
      if s.agenda.queue[0].action.Arrive? {
        StepArrivalUsage(s, a);
      } else {
        CompletionFacts(s, ord, who);
        StepCompletionUsage(s, a);
      }
    }
  }

  lemma LaterSame(s: Pool, e: Event<Action>)
    requires WellFormed(s) && Clocked(s)
    ensures Clocked(Recorded(s, e))
  {
    var s' := Recorded(s, e);
    assert forall v :: 0 <= v < |s.workers| ==> Packed(s.workers[v], s.items, s.period, LastDone(s))
                                                ==> Packed(s'.workers[v], s'.items, s'.period, LastDone(s'));
  }

  lemma ScheduleUsage(s: Pool, t: int, p: Posting, a: nat)
    requires Little(s, a) && Clocked(s)
    ensures Clocked(Do(s, ScheduleArrival(t, p)))
  {
    var r := ScheduleAt(s.agenda, t, Arrive(p));
    if r.Some? {
      LaterUsage(s, r.value, a);
    }
  }

  lemma {:induction false} ExecUsage(s: Pool, ops: seq<Op>, a: nat, ord: seq<nat>, who: seq<nat>)
    requires Inv(s, ord, who) && Little(s, a) && Clocked(s)
    ensures Clocked(Exec(s, ops))
    decreases |ops|
  {
    if ops != [] {
      var init, before := ops[..|ops| - 1], Exec(s, ops[..|ops| - 1]);
      ExecUsage(s, init, a, ord, who);
      var ord1, who1 := ExecKeepsInv(s, init, ord, who);
      var a1 := ExecLittle(s, init, a);
      DoUsage(before, ops[|ops| - 1], a1, ord1, who1);
    }
  }

  lemma AdvanceUsage(s: Pool, time: int, a: nat)
    requires Little(s, a) && Clocked(s)
    ensures Clocked(Do(s, AdvanceClock(time)))
  {
    LaterUsage(s, Advance(s.agenda, time), a);
  }

  lemma DoUsage(s: Pool, op: Op, a: nat, ord: seq<nat>, who: seq<nat>)
    requires Inv(s, ord, who) && Little(s, a) && Clocked(s)
    ensures Clocked(Do(s, op))
  {
    match op
    case ScheduleArrival(t, p) => ScheduleUsage(s, t, p, a);
    case EnqueueNow(p) => EnqueueUsage(s, p, a);
    case AdvanceClock(t) => AdvanceUsage(s, t, a);
    case RunNext => StepUsage(s, a, ord, who);
  }

  lemma CreateUsage(n: nat, period: nat, now: nat)
    ensures Clocked(Create(n, period, Start(now)))
  {
    FinishedNone(n);
  }

  lemma {:induction false} FinishedNone(n: nat)
    ensures FinishedBy(seq(n, _ => IDLE)) == 0
  {
    if n > 0 {
      FinishedNone(n - 1);
      assert seq(n, _ => IDLE)[..n - 1] == seq(n - 1, _ => IDLE);
    }
  }

  // ----- The reported measurements -----

  /** Python's `//`: rounds towards minus infinity. */
  function FloorDiv(a: int, b: int): int
    requires b != 0
  {
    if b > 0 then a / b else (-a) / (-b)
  }

  function LatestCompletion(items: seq<Item>, done: seq<nat>): nat
    requires forall i :: 0 <= i < |done| ==> done[i] < |items|
  {
    if done == [] then 0
    else
      var x := items[done[|done| - 1]];
      Max(LatestCompletion(items, done[..|done| - 1]), if x.completedAt.Some? then x.completedAt.value else 0)
  }

  function WaitSum(items: seq<Item>, done: seq<nat>): int
    requires forall i :: 0 <= i < |done| ==> done[i] < |items|
  {
    if done == [] then 0
    else
      var x := items[done[|done| - 1]];
      WaitSum(items, done[..|done| - 1]) + (if x.startedAt.Some? then x.startedAt.value - x.queuedAt else 0)
  }

  function LongestWait(items: seq<Item>, done: seq<nat>): int
    requires forall i :: 0 <= i < |done| ==> done[i] < |items|
  {
    if done == [] then 0
    else
      var x, before := items[done[|done| - 1]], LongestWait(items, done[..|done| - 1]);
      var wait := if x.startedAt.Some? then x.startedAt.value - x.queuedAt else 0;
      if |done| == 1 || before < wait then wait else before
  }

  function AverageWait(s: Pool): int
    requires WellFormed(s)
  {
    if s.completed != [] then FloorDiv(WaitSum(s.items, s.completed), |s.completed|) else 0
  }

  function Elapsed(s: Pool): int
    requires WellFormed(s)
  {
    LatestCompletion(s.items, s.completed) - (if s.firstArrival.Some? then s.firstArrival.value else 0)
  }

  /** In hundredths. */
  function AverageDepth(s: Pool): int
    requires WellFormed(s)
  {
    if Elapsed(s) != 0 then FloorDiv(s.area * 100, Elapsed(s)) else 0
  }

  function Throughput(s: Pool): int
    requires WellFormed(s)
  {
    if Elapsed(s) != 0 then FloorDiv(|s.completed| * 100, Elapsed(s)) else 0
  }

  function Utilization(s: Pool, w: nat): int
    requires WellFormed(s) && w < |s.workers|
  {
    if Elapsed(s) != 0 then FloorDiv(s.workers[w].busyTime * 100, Elapsed(s)) else 0
  }

  lemma {:induction false} LatestIsLast(items: seq<Item>, a: nat, c: nat, period: nat, now: nat, done: seq<nat>)
    requires Stamped(items, a, c, period, now) && Monotone(items)
    requires |done| <= c && forall i :: 0 <= i < |done| ==> done[i] == i
    ensures LatestCompletion(items, done) == (if done == [] then 0 else items[|done| - 1].completedAt.value)
    decreases |done|
  {
    if done != [] {
      var init := done[..|done| - 1];
      LatestIsLast(items, a, c, period, now, init);
      if init != [] {
        assert items[|init| - 1].startedAt.value <= items[|init|].startedAt.value;
      }
    }
  }

  lemma ElapsedIs(s: Pool, ord: seq<nat>, who: seq<nat>)
    requires Inv(s, ord, who) && Usage(s)
    ensures Elapsed(s) == LastDone(s) - (if s.items == [] then 0 else s.items[0].queuedAt)
    ensures s.completed != [] ==> Elapsed(s) >= s.period
  {
    LatestIsLast(s.items, |ord|, |s.completed|, s.period, s.agenda.now, s.completed);
    if s.completed != [] {
      var c := |s.completed|;
      assert s.items[0].startedAt.value <= s.items[c - 1].startedAt.value;
    }
  }

  lemma {:induction false} BusyTotal(workers: seq<Worker>, items: seq<Item>, period: nat, end: int, elapsed: nat)
    requires forall w :: 0 <= w < |workers| ==> Packed(workers[w], items, period, end)
    requires items != [] ==> elapsed == end - items[0].queuedAt
    ensures FinishedBy(workers) * period <= |workers| * elapsed
    decreases |workers|
  {
    if workers != [] {
      var init, me := workers[..|workers| - 1], workers[|workers| - 1];
      BusyTotal(init, items, period, end, elapsed);
      assert Packed(me, items, period, end);
      BusyStep(FinishedBy(init), me.finished, period, |init|, elapsed);
    }
  }

  lemma BusyStep(done: nat, mine: nat, period: nat, others: nat, elapsed: nat)
    requires done * period <= others * elapsed && (mine > 0 ==> period * mine <= elapsed)
    ensures (done + mine) * period <= (others + 1) * elapsed
  {
    assert (done + mine) * period == done * period + mine * period;
    assert (others + 1) * elapsed == others * elapsed + elapsed;
  }

  /** Nobody is over-used: each worker's busy time fits into the elapsed time, and so does all the work. */
  ghost predicate WithinCapacity(s: Pool)
    requires WellFormed(s)
  {
    && Elapsed(s) >= s.period
    && (forall w :: 0 <= w < |s.workers| ==> s.workers[w].busyTime <= Elapsed(s) && Utilization(s, w) <= 100)
    && |s.completed| * s.period <= |s.workers| * Elapsed(s)
    && Throughput(s) * s.period <= 100 * |s.workers|
  }

  /** No more is completed in a unit of time than the workers can complete. */
  lemma RateBound(done: nat, elapsed: nat, period: nat, workers: nat)
    requires elapsed > 0 && done * period <= workers * elapsed
    ensures FloorDiv(done * 100, elapsed) * period <= 100 * workers
  {
    var q := done * 100 / elapsed;
    var rest := done * 100 % elapsed;
    assert done * 100 == elapsed * q + rest;
    Commuted(q, elapsed, period);
    assert (elapsed * q) * period == done * 100 * period - rest * period;
    assert done * 100 * period == 100 * (done * period);
    assert 100 * (workers * elapsed) == (100 * workers) * elapsed;
    assert (100 * workers + 1) * elapsed == (100 * workers) * elapsed + elapsed;
    if q * period > 100 * workers {
      MoreIsMore(q * period, 100 * workers + 1, elapsed);
    }
  }

  lemma Commuted(q: nat, elapsed: nat, period: nat)
    ensures (elapsed * q) * period == (q * period) * elapsed
  {
  }

  lemma PercentBound(part: nat, whole: nat)
    requires part <= whole && whole > 0
    ensures FloorDiv(part * 100, whole) <= 100
  {
    QuotientBound(part * 100, whole, 100);
  }

  lemma QuotientBound(a: nat, b: nat, k: nat)
    requires b > 0 && a <= k * b
    ensures a / b <= k
  {
    if a / b > k {
      QuotientExceeds(a, b, k);
    }
  }

  lemma QuotientExceeds(a: nat, b: nat, k: nat)
    requires b > 0 && a / b > k
    ensures a > k * b
  {
    var q := a / b;
    assert a == b * q + a % b;
    MoreIsMore(q, k + 1, b);
    assert (k + 1) * b == k * b + b;
  }

  lemma MoreIsMore(x: nat, y: nat, b: nat)
    requires x >= y
    ensures x * b >= y * b
  {
    assert (x - y) * b == x * b - y * b;
  }

  lemma WorkerWithin(me: Worker, items: seq<Item>, period: nat, end: int, elapsed: nat)
    requires Packed(me, items, period, end) && period > 0 && elapsed > 0
    requires items != [] ==> elapsed == end - items[0].queuedAt
    ensures me.busyTime <= elapsed && FloorDiv(me.busyTime * 100, elapsed) <= 100
  {
    if me.finished == 0 {
      assert me.busyTime == 0;
    }
    PercentBound(me.busyTime, elapsed);
  }

  lemma UsageWithin(s: Pool, elapsed: nat)
    requires WellFormed(s) && Usage(s) && s.period > 0
    requires Elapsed(s) == elapsed >= s.period
    requires s.items != [] ==> elapsed == LastDone(s) - s.items[0].queuedAt
    ensures WithinCapacity(s)
  {
    BusyTotal(s.workers, s.items, s.period, LastDone(s), elapsed);
    RateBound(|s.completed|, elapsed, s.period, |s.workers|);
    forall w | 0 <= w < |s.workers| ensures s.workers[w].busyTime <= elapsed && Utilization(s, w) <= 100 {
      WorkerWithin(s.workers[w], s.items, s.period, LastDone(s), elapsed);
    }
  }

  lemma CapacityHolds(s: Pool, ord: seq<nat>, who: seq<nat>)
    requires Inv(s, ord, who) && Usage(s) && s.completed != [] && s.period > 0
    ensures WithinCapacity(s)
  {
    ElapsedIs(s, ord, who);
    UsageWithin(s, Elapsed(s));
  }

  /** Once a payment has completed, utilisation never exceeds 100, and neither the work done nor the throughput exceeds the capacity. */
  lemma UtilizationBounded(n: nat, period: nat, now: nat, ops: seq<Op>)
    requires n > 0 && period > 0
    ensures var s := Exec(Create(n, period, Start(now)), ops);
            s.completed != [] ==> WithinCapacity(s)
  {
    var s0 := Create(n, period, Start(now));
    CreateInv(n, period, now);
    CreateUsage(n, period, now);
    ExecUsage(s0, ops, 0, [], []);
    var ord, who := ExecKeepsInv(s0, ops, [], []);
    ExecKeepsSize(s0, ops);
    if Exec(s0, ops).completed != [] {
      CapacityHolds(Exec(s0, ops), ord, who);
    }
  }

  /**
   Before anything has completed the reported elapsed time is minus the first
   arrival time, so it is negative exactly then, unless the first arrival was
   at time zero.
   */
  lemma ElapsedIsNegativeWhen(n: nat, period: nat, now: nat, ops: seq<Op>)
    requires n > 0
    ensures var s := Exec(Create(n, period, Start(now)), ops);
            Elapsed(s) < 0 <==> s.completed == [] && s.firstArrival.Some? && s.firstArrival.value > 0
  {
    var s0 := Create(n, period, Start(now));
    CreateInv(n, period, now);
    CreateUsage(n, period, now);
    ExecUsage(s0, ops, 0, [], []);
    var ord, who := ExecKeepsInv(s0, ops, [], []);
    ElapsedIs(Exec(s0, ops), ord, who);
  }

  /** One payment enqueued at time 5 and not yet done: the elapsed time is reported as -5. */
  lemma NegativeElapsedExample()
    ensures Elapsed(Exec(Create(1, 2, Start(5)), [EnqueueNow(Posting("PAY", false, 100))])) == -5
  {
    var s0 := Create(1, 2, Start(5));
    var ops := [EnqueueNow(Posting("PAY", false, 100))];
    assert ops[..0] == [];
    assert Exec(s0, ops) == Enqueue(s0, Posting("PAY", false, 100));
    var s1 := Join(s0, Posting("PAY", false, 100));
    DispatchOne(s1, 0, 0);
  }

  lemma {:induction false} WaitSumIsTotal(items: seq<Item>, done: seq<nat>, t: int)
    requires |done| <= |items|
    requires forall i :: 0 <= i < |done| ==> done[i] == i && items[i].startedAt.Some?
    ensures WaitSum(items, done) == TotalWaited(items[..|done|], t)
    decreases |done|
  {
    if done != [] {
      var init := done[..|done| - 1];
      WaitSumIsTotal(items, init, t);
      assert items[..|done|][..|init|] == items[..|init|];
    }
  }

  /** The recorded area is the sum of the reported waits, and the average depth is computed from it. */
  ghost predicate AreaIsTotalWait(s: Pool)
    requires WellFormed(s)
  {
    && s.area == WaitSum(s.items, s.completed)
    && AverageDepth(s) == if Elapsed(s) == 0 then 0 else FloorDiv(WaitSum(s.items, s.completed) * 100, Elapsed(s))
  }

  lemma DrainedAreaIsTotalWait(s: Pool, a: nat, ord: seq<nat>, who: seq<nat>)
    requires Inv(s, ord, who) && Little(s, a) && |s.completed| == |s.items|
    ensures AreaIsTotalWait(s)
  {
    WaitSumIsTotal(s.items, s.completed, s.lastChange);
    assert s.items[..|s.items|] == s.items;
  }
}
