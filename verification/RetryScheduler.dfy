/** The retry engine as a mutable object. */
module RetryObjects {
  import opened Wrappers
  import opened SchedulerObject
  import opened PaymentQueueObject
  import opened Submissions
  import opened DeadLetterRuns
  import opened RetryNaming
  import opened RetryRuns
  import PQ = PaymentQueues
  import R = Retries

  class RetryScheduler {
    const scheduler: EventScheduler<PQ.Action<Callback>>
    const queue: PaymentQueue<Callback>
    const limit: nat
    const delay: nat
    var payments: seq<R.Payment>
    var attempts: seq<R.Attempt>
    var events: seq<R.RetryEvent>
    var pending: int
    ghost var effects: seq<nat>

    ghost function Model(): Retrier
      reads this, queue, queue.scheduler
    {
      PQ.Machine(queue.Model(), R.State(limit, delay, payments, attempts, events, pending, effects))
    }

    ghost predicate Wired()
      reads this, queue
    {
      queue.scheduler == scheduler
    }

    constructor (queue: PaymentQueue<Callback>, limit: nat, delay: nat)
      ensures Wired() && this.queue == queue
      ensures Model() == PQ.Machine(queue.Model(), R.Create(limit, delay))
    {
      this.scheduler, this.queue, this.limit, this.delay := queue.scheduler, queue, limit, delay;
      payments, attempts, events, pending, effects := [], [], [], 0, [];
    }

    method Submit(s: Submission) returns (p: nat)
      requires Wired() && PQ.WellFormed(queue.Model())
      modifies this, queue, scheduler
      ensures p == |old(payments)|
      ensures Model() == PQ.Perform(old(Model()), R.CLIENT, Callback.Submit(s))
    {
      p := |payments|;
      payments := payments + [R.Payment(s.id, s.failures, 0, None)];
      events := events + [R.RetryEvent(scheduler.clock, R.Queued, s.id, None)];
      queue.Enqueue(p);
      EnqueueAllOne(old(queue.Model()), p);
    }

    /** The closure scheduled for a retry. */
    method RetryDue(p: nat, number: nat)
      requires Wired() && PQ.WellFormed(queue.Model())
      modifies this, queue, scheduler
      ensures Model() == PQ.Perform(old(Model()), R.CLIENT, Retry(p, number))
    {
      if p < |payments| {
        pending := pending - 1;
        events := events + [R.RetryEvent(scheduler.clock, R.RetryDue, payments[p].id, Some(number + 1))];
        queue.Enqueue(p);
        EnqueueAllOne(old(queue.Model()), p);
      }
    }

    /** The closure handed to the queue: one attempt at payment `p`. */
    method Attempt(p: nat)
      requires Wired()
      modifies this, scheduler
      ensures var reply := R.Work(old(Model().g), p, old(scheduler.clock));
              && Model().g == reply.state
              && queue.Model() == old(queue.Model()).(agenda := PQ.ScheduleAll(old(scheduler.Model()), reply.requests))
    {
      if p >= |payments| {
        return;
      }
      var now, x := scheduler.clock, payments[p];
      var number := x.attempts + 1;
      payments := payments[p := x.(attempts := number)];
      if number <= |x.script| {
        var reason, remaining := x.script[number - 1], limit - (number - 1);
        if remaining > 0 {
          attempts := attempts + [R.Attempt(x.id, number, now, false, Some(reason), Some(now + delay), remaining)];
          events := events + [R.RetryEvent(now, R.FailedOnce, x.id, Some(number))];
          pending := pending + 1;
          scheduler.ScheduleAfter(delay, PQ.Call(Retry(p, number)));
          return;
        }
        payments := payments[p := payments[p].(outcome := Some(R.PermanentlyFailed))];
        attempts := attempts + [R.Attempt(x.id, number, now, false, Some(reason), None, 0)];
        events := events + [R.RetryEvent(now, R.FailedForGood, x.id, Some(number))];
        return;
      }
      effects := effects + [p];
      payments := payments[p := payments[p].(outcome := Some(R.Succeeded))];
      attempts := attempts + [R.Attempt(x.id, number, now, true, None, None, limit - (number - 1))];
      events := events + [R.RetryEvent(now, R.Success, x.id, Some(number))];
    }

    method ServeOne()
      requires Wired() && PQ.WellFormed(queue.Model()) && queue.waiting != []
      modifies this, queue, scheduler
      ensures Model() == PQ.Serve(old(Model()), R.CLIENT)
    {
      var k := queue.StartNext();
      Attempt(queue.jobs[k].payment);
      queue.FinishJob(k);
    }

    method ServeMany(n: nat)
      requires Wired() && PQ.WellFormed(queue.Model()) && n <= |queue.waiting|
      modifies this, queue, scheduler
      ensures Model() == PQ.ServeMany(old(Model()), R.CLIENT, n)
    {
      for i := 0 to n
        invariant PQ.WellFormed(queue.Model()) && n - i <= |queue.waiting|
        invariant PQ.ServeMany(Model(), R.CLIENT, n - i) == PQ.ServeMany(old(Model()), R.CLIENT, n)
      {
        ServeOne();
      }
    }

    method ProcessTick()
      requires Wired() && PQ.WellFormed(queue.Model())
      modifies this, queue, scheduler
      ensures Model() == PQ.ProcessTick(old(Model()), R.CLIENT)
    {
      queue.tickScheduled := false;
      ServeMany(Min(queue.capacity, |queue.waiting|));
      if queue.waiting != [] {
        queue.Wake();
      }
    }

    method RunNext() returns (ran: bool)
      requires Wired() && PQ.WellFormed(queue.Model())
      modifies this, queue, scheduler
      ensures ran <==> old(scheduler.queue) != []
      ensures Model() == PQ.Step(old(Model()), R.CLIENT)
    {
      if scheduler.queue == [] {
        return false;
      }
      ran := true;
      var taken := scheduler.Take();
      match taken
      case None =>
      case Some(e) =>
        match e.action {
          case Tick => ProcessTick();
          case Call(Submit(s)) => var p := Submit(s);
          case Call(Retry(p, number)) => RetryDue(p, number);
        }
        scheduler.Executed(e);
    }

    /** Run until nothing is pending. */
    method Run()
      requires Wired() && Sound(Model())
      modifies this, queue, scheduler
      ensures Model() == RunRetries(old(Model()))
      ensures scheduler.queue == []
    {
      ghost var start := Model();
      while scheduler.queue != []
        invariant Sound(Model())
        invariant RunRetries(Model()) == RunRetries(start)
        decreases RetryLoadAsNat(Model())
      {
        RunGoesOn(Model());
        var ran := RunNext();
      }
    }
  }
}
