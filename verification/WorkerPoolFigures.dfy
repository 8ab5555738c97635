/** The figures a pool reports, exactly: each the rounded quotient of a sum over its payments and the time they took. */
module WorkerPoolFigures {
  import opened Wrappers
  import opened Scheduling
  import opened WorkerPools
  import opened WorkerPoolInvariant
  import opened WorkerPoolMetrics
  import opened WorkerPoolLog

  /** `q` is `a / b` rounded down. */
  ghost predicate IsFloor(q: int, a: int, b: int) {
    (b > 0 && q * b <= a < (q + 1) * b) || (b < 0 && q * b >= a > (q + 1) * b)
  }

  lemma FloorIs(a: int, b: int)
    requires b != 0
    ensures IsFloor(FloorDiv(a, b), a, b)
  {
    var n, d := if b > 0 then a else -a, if b > 0 then b else -b;
    var q := n / d;
    assert n == d * q + n % d;
    assert (q + 1) * d == q * d + d;
    assert b < 0 ==> q * b == -(q * d) && (q + 1) * b == -((q + 1) * d);
  }

  /** The payments arrived from `first` on, and those that are completed were done by `last`. */
  ghost predicate Span(items: seq<Item>, done: nat, first: nat, last: nat) {
    && 0 < done <= |items|
    && items[0].queuedAt == first && (forall k :: 0 <= k < |items| ==> first <= items[k].queuedAt)
    && (forall k :: 0 <= k < done ==> items[k].completedAt.Some? && items[k].completedAt.value <= last)
    && items[done - 1].completedAt == Some(last)
  }

  lemma SpanIs(s: Pool, ord: seq<nat>, who: seq<nat>)
    requires Inv(s, ord, who) && Usage(s) && s.completed != []
    ensures Span(s.items, |s.completed|, s.items[0].queuedAt, LastDone(s))
    ensures Elapsed(s) == LastDone(s) - s.items[0].queuedAt >= s.period
  {
    ElapsedIs(s, ord, who);
    var c := |s.completed|;
    forall k | 0 <= k < c ensures s.items[k].completedAt.value <= LastDone(s) {
      assert s.items[k].startedAt.value <= s.items[c - 1].startedAt.value;
    }
  }

  lemma OneSpan(items: seq<Item>, done: nat, first: nat, last: nat, first': nat, last': nat)
    requires Span(items, done, first, last) && Span(items, done, first', last')
    ensures first == first' && last == last'
  {
  }

  lemma ReachedUsage(n: nat, period: nat, now: nat, ops: seq<Op>, s: Pool) returns (ord: seq<nat>, who: seq<nat>)
    requires Reached(n, period, now, ops, s)
    ensures Inv(s, ord, who) && Usage(s) && Told(s) && |s.workers| == n && s.period == period
    ensures s.area == TotalWaited(s.items, s.lastChange)
  {
    CreateInv(n, period, now);
    CreateUsage(n, period, now);
    ExecUsage(Create(n, period, Start(now)), ops, 0, [], []);
    LittlesLaw(n, period, now, ops);
    ord, who := ReachedTold(n, period, now, ops, s);
  }

  lemma UtilizationIs(s: Pool, w: nat, elapsed: int)
    requires WellFormed(s) && w < |s.workers| && Elapsed(s) == elapsed != 0
    ensures IsFloor(Utilization(s, w), 100 * s.workers[w].busyTime, elapsed)
  {
    FloorIs(s.workers[w].busyTime * 100, elapsed);
  }

  lemma RatesAre(s: Pool, elapsed: int)
    requires WellFormed(s) && Elapsed(s) == elapsed != 0
    ensures IsFloor(Throughput(s), 100 * |s.completed|, elapsed) && IsFloor(AverageDepth(s), 100 * s.area, elapsed)
  {
    FloorIs(|s.completed| * 100, elapsed);
    FloorIs(s.area * 100, elapsed);
  }

  lemma ElapsedIsSpan(n: nat, period: nat, now: nat, ops: seq<Op>, s: Pool, first: nat, last: nat)
    requires Reached(n, period, now, ops, s) && period > 0 && Span(s.items, |s.completed|, first, last)
    ensures WellFormed(s) && Elapsed(s) == last - first > 0
  {
    var ord, who := ReachedUsage(n, period, now, ops, s);
    SpanIs(s, ord, who);
    OneSpan(s.items, |s.completed|, first, last, s.items[0].queuedAt, LastDone(s));
  }

  /**
   Once a payment is completed, the utilisation of a worker is one hundred
   times the service times of the payments it had, divided by the time from the
   first arrival to the last completion and rounded down.
   */
  lemma UtilizationIsExact(n: nat, period: nat, now: nat, ops: seq<Op>, s: Pool, first: nat, last: nat, w: nat)
    requires Reached(n, period, now, ops, s) && period > 0 && Span(s.items, |s.completed|, first, last) && w < n
    ensures WellFormed(s) && |s.workers| == n && Done(s.items, Of(Assigned, s.log), |s.completed|)
    ensures IsFloor(Utilization(s, w), 100 * ServiceTime(s.items, Of(Assigned, s.log), |s.completed|, w), last - first)
  {
    ElapsedIsSpan(n, period, now, ops, s, first, last);
    WorkersAreTrue(n, period, now, ops, s, w);
    UtilizationIs(s, w, last - first);
  }

  /** The throughput is that of one hundred times the completed payments, the average depth of one hundred times all waiting. */
  lemma RatesAreExact(n: nat, period: nat, now: nat, ops: seq<Op>, s: Pool, first: nat, last: nat)
    requires Reached(n, period, now, ops, s) && period > 0 && Span(s.items, |s.completed|, first, last)
    ensures WellFormed(s)
    ensures IsFloor(Throughput(s), 100 * |s.completed|, last - first)
    ensures IsFloor(AverageDepth(s), 100 * TotalWaited(s.items, s.lastChange), last - first)
  {
    ElapsedIsSpan(n, period, now, ops, s, first, last);
    LittlesLaw(n, period, now, ops);
    RatesAre(s, last - first);
  }

  /** There is such a time exactly if a payment is completed; before that all figures but the average depth are zero. */
  lemma NothingDone(n: nat, period: nat, now: nat, ops: seq<Op>, s: Pool)
    requires Reached(n, period, now, ops, s)
    ensures WellFormed(s) && |s.workers| == n
    ensures s.completed != [] ==> exists first, last: nat :: Span(s.items, |s.completed|, first, last)
    ensures s.completed == [] ==>
              && Throughput(s) == 0 && (forall w :: 0 <= w < n ==> Utilization(s, w) == 0)
              && if s.items == [] || s.items[0].queuedAt == 0 then AverageDepth(s) == 0
                 else IsFloor(AverageDepth(s), 100 * TotalWaited(s.items, s.lastChange), -(s.items[0].queuedAt as int))
  {
    var ord, who := ReachedUsage(n, period, now, ops, s);
    if s.completed != [] {
      SpanIs(s, ord, who);
      assert Span(s.items, |s.completed|, s.items[0].queuedAt, LastDone(s));
    } else {
      ElapsedIs(s, ord, who);
      NobodyServed(s);
      NothingReported(s, Elapsed(s));
    }
  }

  lemma NobodyServed(s: Pool)
    requires Told(s) && s.completed == []
    ensures forall w :: 0 <= w < |s.workers| ==> s.workers[w].busyTime == 0
  {
    forall w | 0 <= w < |s.workers| ensures s.workers[w].busyTime == 0 {
      assert s.workers[w].busyTime == ServiceTime(s.items, Of(Assigned, s.log), 0, w);
    }
  }

  lemma NothingReported(s: Pool, elapsed: int)
    requires WellFormed(s) && s.completed == [] && Elapsed(s) == elapsed
    requires forall w :: 0 <= w < |s.workers| ==> s.workers[w].busyTime == 0
    ensures Throughput(s) == 0 && forall w :: 0 <= w < |s.workers| ==> Utilization(s, w) == 0
    ensures if elapsed == 0 then AverageDepth(s) == 0 else IsFloor(AverageDepth(s), 100 * s.area, elapsed)
  {
    if elapsed != 0 {
      FloorIs(s.area * 100, elapsed);
    }
  }

  // ----- Waits -----

  /** What the k-th payment waited for its worker. */
  ghost function WaitOf(x: Item): int
    requires x.startedAt.Some?
  {
    x.startedAt.value - x.queuedAt
  }

  ghost predicate InOrder(items: seq<Item>, done: seq<nat>) {
    |done| <= |items| && forall i :: 0 <= i < |done| ==> done[i] == i && items[i].startedAt.Some?
  }

  lemma {:induction false} LongestIs(items: seq<Item>, done: seq<nat>)
    requires InOrder(items, done) && done != []
    ensures forall k :: 0 <= k < |done| ==> WaitOf(items[k]) <= LongestWait(items, done)
    ensures exists k :: 0 <= k < |done| && WaitOf(items[k]) == LongestWait(items, done)
    decreases |done|
  {
    if |done| > 1 {
      var init := done[..|done| - 1];
      LongestIs(items, init);
      var k :| 0 <= k < |init| && WaitOf(items[k]) == LongestWait(items, init);
      assert WaitOf(items[k]) == LongestWait(items, done) || WaitOf(items[|done| - 1]) == LongestWait(items, done);
    } else {
      assert WaitOf(items[0]) == LongestWait(items, done);
    }
  }

  lemma CompletedInOrder(n: nat, period: nat, now: nat, ops: seq<Op>, s: Pool)
    requires Reached(n, period, now, ops, s)
    ensures WellFormed(s) && InOrder(s.items, s.completed)
  {
    var ord, who := ReachedTold(n, period, now, ops, s);
  }

  /** The longest wait is the greatest wait of a completed payment, the average the rounded mean of them all. */
  lemma WaitsAreExact(n: nat, period: nat, now: nat, ops: seq<Op>, s: Pool)
    requires Reached(n, period, now, ops, s) && s.completed != []
    ensures WellFormed(s) && InOrder(s.items, s.completed)
    ensures forall k :: 0 <= k < |s.completed| ==> WaitOf(s.items[k]) <= LongestWait(s.items, s.completed)
    ensures exists k :: 0 <= k < |s.completed| && WaitOf(s.items[k]) == LongestWait(s.items, s.completed)
    ensures IsFloor(AverageWait(s), TotalWaited(s.items[..|s.completed|], s.agenda.now), |s.completed|)
  {
    CompletedInOrder(n, period, now, ops, s);
    LongestIs(s.items, s.completed);
    WaitSumIsTotal(s.items, s.completed, s.agenda.now);
    FloorIs(WaitSum(s.items, s.completed), |s.completed|);
  }
}
