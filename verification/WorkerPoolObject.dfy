/** The worker pool as the program has it: one object changing its own lists, its workers and the scheduler. */
module WorkerPoolObject {
  import opened Wrappers
  import opened SchedulerObject
  import WP = WorkerPools
  import opened WorkerPoolInvariant
  import opened WorkerPoolTheorems

  class WorkerPool {
    const scheduler: EventScheduler<WP.Action>
    const period: nat
    const workers: array<WP.Worker>
    var items: seq<WP.Item>
    var waiting: seq<nat>
    var completed: seq<nat>
    var posted: seq<WP.Posting>
    var log: seq<WP.CapacityEvent>
    var maxDepth: nat
    var area: int
    var lastChange: nat
    var firstArrival: Option<nat>

    function Model(): WP.Pool
      reads this, scheduler, workers
    {
      WP.Pool(period, scheduler.Model(), workers[..], items, waiting, completed, posted, log,
              maxDepth, area, lastChange, firstArrival)
    }

    constructor (scheduler: EventScheduler<WP.Action>, workerCount: nat, period: nat)
      ensures this.scheduler == scheduler && fresh(workers)
      ensures Model() == WP.Create(workerCount, period, scheduler.Model())
    {
      this.scheduler, this.period := scheduler, period;
      workers := new WP.Worker[workerCount](_ => WP.IDLE);
      items, waiting, completed, posted, log := [], [], [], [], [];
      maxDepth, area, lastChange, firstArrival := 0, 0, scheduler.clock, None;
    }

    method RecordDepthUntilNow()
      modifies this
      ensures Model() == WP.RecordDepth(old(Model()))
    {
      area := area + |waiting| * (scheduler.clock - lastChange);
      lastChange := scheduler.clock;
    }

    method AssignTo(w: nat)
      requires WP.WellFormed(Model()) && waiting != [] && w < workers.Length
      modifies this, workers, scheduler
      ensures Model() == WP.Assign(old(Model()), w)
    {
      RecordDepthUntilNow();
      var k, now := waiting[0], scheduler.clock;
      waiting := waiting[1..];
      items := items[k := items[k].(startedAt := Some(now))];
      workers[w] := workers[w].(current := Some(k));
      log := log + [WP.CapacityEvent(now, WP.Assigned, items[k].posting.id, Some(w), |waiting|)];
      scheduler.ScheduleAfter(period, WP.Complete(w));
    }

    method Dispatch()
      requires WP.WellFormed(Model())
      modifies this, workers, scheduler
      ensures Model() == WP.Dispatch(old(Model()), 0)
    {
      for w := 0 to workers.Length
        invariant WP.WellFormed(Model())
        invariant WP.Dispatch(Model(), w) == WP.Dispatch(old(Model()), 0)
      {
        if waiting == [] {
          break;
        }
        if workers[w].current.None? {
          AssignTo(w);
        }
      }
    }

    method Enqueue(p: WP.Posting)
      requires WP.WellFormed(Model())
      modifies this, workers, scheduler
      ensures Model() == WP.Enqueue(old(Model()), p)
    {
      var now := scheduler.clock;
      if firstArrival.None? {
        firstArrival := Some(now);
      }
      RecordDepthUntilNow();
      waiting := waiting + [|items|];
      items := items + [WP.Item(p, now, |waiting|, None, None)];
      maxDepth := Max(maxDepth, |waiting|);
      log := log + [WP.CapacityEvent(now, WP.Arrived, p.id, None, |waiting|)];
      assert Model() == WP.Join(old(Model()), p);
      Dispatch();
    }

    /** The worker's payment completes; an idle worker raises and nothing changes. */
    method CompleteBy(w: nat) returns (raised: bool)
      requires WP.WellFormed(Model()) && w < workers.Length
      modifies this, workers, scheduler
      ensures raised <==> old(Model()).workers[w].current.None?
      ensures Model() == if raised then old(Model()) else WP.Finish(old(Model()), w)
    {
      if workers[w].current.None? {
        return true;
      }
      raised := false;
      var k := workers[w].current.value;
      posted := posted + [items[k].posting];
      items := items[k := items[k].(completedAt := Some(scheduler.clock))];
      completed := completed + [k];
      workers[w] := WP.Worker(None, workers[w].finished + 1, workers[w].busyTime + period);
      log := log + [WP.CapacityEvent(scheduler.clock, WP.Completed, items[k].posting.id, Some(w), |waiting|)];
      Dispatch();
    }

    /** One scheduler event; false when none is pending. */
    method RunNext() returns (ran: bool)
      requires WP.WellFormed(Model())
      modifies this, workers, scheduler
      ensures ran <==> old(scheduler.queue) != []
      ensures Model() == WP.Step(old(Model()))
    {
      if scheduler.queue == [] {
        return false;
      }
      ran := true;
      var taken := scheduler.Take();
      match taken
      case None =>
      case Some(e) =>
        match e.action
        case Arrive(p) =>
          Enqueue(p);
          scheduler.Executed(e);
        case Complete(w) =>
          if w < workers.Length {
            var raised := CompleteBy(w);
            if !raised {
              scheduler.Executed(e);
            }
          }
    }

    /** Run until nothing is pending: every payment has then completed, none was lost. */
    method Run(ghost ord: seq<nat>, ghost who: seq<nat>)
      requires Inv(Model(), ord, who)
      modifies this, workers, scheduler
      ensures Load(old(Model())) >= 0
      ensures Model() == RunFor(old(Model()), Load(old(Model())))
      ensures Finished(Model(), old(Model()))
    {
      ghost var ord', who' := ord, who;
      ghost var start := Model();
      ghost var _, _ := RunEnds(start, ord, who);
      while scheduler.queue != []
        invariant Inv(Model(), ord', who')
        invariant Load(Model()) >= 0
        invariant RunFor(Model(), Load(Model())) == RunFor(start, Load(start))
        decreases Load(Model())
      {
        ghost var before := Model();
        PendingMeansLoad(before, ord', who');
        ord', who' := OneEvent(before, ord', who');
        var ran := RunNext();
        IsLoadNat(Model(), ord', who');
      }
      IdleIsFinished(Model(), ord', who');
    }
  }
}
