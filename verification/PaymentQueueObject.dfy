/** The payment queue with its worker, as the object the retry engines share their ticks with. */
module PaymentQueueObject {
  import opened Wrappers
  import opened SchedulerObject
  import PQ = PaymentQueues

  class PaymentQueue<X> {
    const scheduler: EventScheduler<PQ.Action<X>>
    const capacity: nat
    var jobs: seq<PQ.Job>
    var waiting: seq<nat>
    var completed: seq<nat>
    var tickScheduled: bool
    var maxDepth: nat
    var log: seq<PQ.QueueEvent>

    function Model(): PQ.Queue<X>
      reads this, scheduler
    {
      PQ.Queue(capacity, scheduler.Model(), jobs, waiting, completed, tickScheduled, maxDepth, log)
    }

    constructor (scheduler: EventScheduler<PQ.Action<X>>, capacity: nat)
      ensures this.scheduler == scheduler
      ensures Model() == PQ.Create(capacity, scheduler.Model())
    {
      this.scheduler, this.capacity := scheduler, capacity;
      jobs, waiting, completed, tickScheduled, maxDepth, log := [], [], [], false, 0, [];
    }

    method Wake()
      modifies this, scheduler
      ensures Model() == PQ.Wake(old(Model()))
    {
      if tickScheduled {
        return;
      }
      tickScheduled := true;
      scheduler.ScheduleAfter(1, PQ.Tick);
    }

    method Enqueue(payment: nat)
      requires PQ.WellFormed(Model())
      modifies this, scheduler
      ensures Model() == PQ.Enqueue(old(Model()), payment)
    {
      waiting := waiting + [|jobs|];
      jobs := jobs + [PQ.Job(payment, scheduler.clock, |waiting|, None, None)];
      maxDepth := Max(maxDepth, |waiting|);
      log := log + [PQ.QueueEvent(scheduler.clock, PQ.Arrived, payment, |waiting|)];
      Wake();
    }

    /** The first half of a turn of the tick's loop: the oldest waiting job begins. */
    method StartNext() returns (k: nat)
      requires PQ.WellFormed(Model()) && waiting != []
      modifies this
      ensures k == old(waiting[0])
      ensures Model() == PQ.StartNext(old(Model()))
    {
      k := waiting[0];
      waiting := waiting[1..];
      jobs := jobs[k := jobs[k].(startedAt := Some(scheduler.clock))];
      log := log + [PQ.QueueEvent(scheduler.clock, PQ.Processing, jobs[k].payment, |waiting|)];
    }

    /** The second half, after the work callback has returned. */
    method FinishJob(k: nat)
      requires PQ.WellFormed(Model()) && k < |jobs|
      modifies this
      ensures Model() == PQ.FinishJob(old(Model()), k, scheduler.clock)
    {
      jobs := jobs[k := jobs[k].(completedAt := Some(scheduler.clock))];
      completed := completed + [k];
      log := log + [PQ.QueueEvent(scheduler.clock, PQ.Completed, jobs[k].payment, |waiting|)];
    }
  }
}
