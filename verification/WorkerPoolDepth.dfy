/** The recorded maximum depth and the positions in the waiting line. */
module WorkerPoolDepth {
  import opened Wrappers
  import opened Scheduling
  import opened WorkerPools

  /** The longest the line has been when somebody joined it. */
  ghost function Longest(items: seq<Item>): nat {
    if items == [] then 0 else Max(Longest(items[..|items| - 1]), items[|items| - 1].position)
  }

  ghost predicate Measured(s: Pool) {
    s.maxDepth == Longest(s.items) && |s.waiting| <= s.maxDepth
  }

  lemma {:induction false} SamePositions(xs: seq<Item>, k: nat, x: Item)
    requires k < |xs| && x.position == xs[k].position
    ensures Longest(xs[k := x]) == Longest(xs)
    decreases |xs|
  {
    var init := xs[..|xs| - 1];
    if k < |init| {
      SamePositions(init, k, x);
      assert xs[k := x][..|init|] == init[k := x];
    } else {
      assert xs[k := x][..|init|] == init;
    }
  }

  lemma AssignMeasured(s: Pool, w: nat)
    requires WellFormed(s) && Measured(s) && s.waiting != [] && w < |s.workers|
    ensures Measured(Assign(s, w))
  {
    var k := s.waiting[0];
    SamePositions(s.items, k, s.items[k].(startedAt := Some(s.agenda.now)));
  }

  lemma {:induction false} DispatchMeasured(s: Pool, w: nat)
    requires WellFormed(s) && Measured(s) && w <= |s.workers|
    ensures Measured(Dispatch(s, w))
    decreases |s.workers| - w
  {
    if w < |s.workers| && s.waiting != [] {
      if Busy(s, w) {
        DispatchMeasured(s, w + 1);
      } else {
        AssignMeasured(s, w);
        DispatchMeasured(Assign(s, w), w + 1);
      }
    }
  }

  lemma EnqueueMeasured(s: Pool, p: Posting)
    requires WellFormed(s) && Measured(s)
    ensures Measured(Enqueue(s, p))
  {
    var joined := Join(s, p);
    assert joined.items[..|s.items|] == s.items;
    DispatchMeasured(joined, 0);
  }

  lemma FinishMeasured(s: Pool, w: nat)
    requires WellFormed(s) && Measured(s) && w < |s.workers| && Busy(s, w)
    ensures Measured(Finish(s, w))
  {
    var k := s.workers[w].current.value;
    SamePositions(s.items, k, s.items[k].(completedAt := Some(s.agenda.now)));
    DispatchMeasured(Release(s, w), 0);
  }

  lemma StepMeasured(s: Pool)
    requires WellFormed(s) && Measured(s)
    ensures Measured(Step(s))
  {
    match TakeNext(s.agenda)
    case Empty =>
    case Late(_) =>
    case Due(e, rest) =>
      var s1 := s.(agenda := rest);
      match e.action {
        case Arrive(p) => EnqueueMeasured(s1, p);
        case Complete(w) => if w < |s1.workers| && Busy(s1, w) { FinishMeasured(s1, w); }
      }
  }

  lemma DoMeasured(s: Pool, op: Op)
    requires WellFormed(s) && Measured(s)
    ensures Measured(Do(s, op))
  {
    match op
    case ScheduleArrival(_, _) =>
    case EnqueueNow(p) => EnqueueMeasured(s, p);
    case AdvanceClock(_) =>
    case RunNext => StepMeasured(s);
  }

  /** In every reachable state the maximum depth is the greatest position anybody joined at, and nobody waits beyond it. */
  lemma {:induction false} MaximumDepth(n: nat, period: nat, now: nat, ops: seq<Op>)
    ensures var s := Exec(Create(n, period, Start(now)), ops);
            s.maxDepth == Longest(s.items) && |s.waiting| <= s.maxDepth
    decreases |ops|
  {
    if ops != [] {
      MaximumDepth(n, period, now, ops[..|ops| - 1]);
      DoMeasured(Exec(Create(n, period, Start(now)), ops[..|ops| - 1]), ops[|ops| - 1]);
    }
  }
}
