/** The dead-letter queue and the processor that feeds it, as mutable objects. */
module DeadLetterObjects {
  import opened Wrappers
  import opened SchedulerObject
  import opened PaymentQueueObject
  import opened Submissions
  import PQ = PaymentQueues
  import D = DeadLetters
  import opened DeadLetterInvariant
  import opened DeadLetterRuns

  /** Append-only storage that takes each payment identifier once. */
  class DeadLetterQueue {
    var entries: seq<D.Entry>
    var ids: set<string>

    ghost predicate Valid()
      reads this
    {
      D.OncePerId(entries) && ids == D.IdsOf(entries)
    }

    constructor ()
      ensures Valid() && entries == [] && ids == {}
    {
      entries, ids := [], {};
    }

    method Isolate(entry: D.Entry) returns (stored: bool)
      modifies this
      ensures stored <==> entry.id !in old(ids)
      ensures stored ==> entries == old(entries) + [entry] && ids == old(ids) + {entry.id}
      ensures !stored ==> entries == old(entries) && ids == old(ids)
      ensures old(Valid()) ==> Valid()
    {
      if entry.id in ids {
        return false;
      }
      D.IdsOfAppend(entries, entry);
      ids := ids + {entry.id};
      entries := entries + [entry];
      stored := true;
    }
  }

  class DeadLetterProcessor {
    const scheduler: EventScheduler<PQ.Action<Callback>>
    const queue: PaymentQueue<Callback>
    const deadLetters: DeadLetterQueue
    const limit: nat
    const delay: nat
    ghost const stored: seq<D.Entry>
    var payments: seq<D.Payment>
    var results: seq<D.Result>
    var pending: int
    ghost var effects: seq<nat>

    ghost function Model(): Engine
      reads this, queue, queue.scheduler, deadLetters
    {
      PQ.Machine(queue.Model(),
                 D.State(limit, delay, payments, results, pending, stored, deadLetters.entries, deadLetters.ids, effects))
    }

    ghost predicate Wired()
      reads this, queue
    {
      queue.scheduler == scheduler
    }

    constructor (queue: PaymentQueue<Callback>, deadLetters: DeadLetterQueue, limit: nat, delay: nat)
      requires deadLetters.Valid()
      ensures Wired() && this.queue == queue && this.deadLetters == deadLetters
      ensures Model() == PQ.Machine(queue.Model(), D.Create(limit, delay, deadLetters.entries))
    {
      this.scheduler, this.queue, this.deadLetters := queue.scheduler, queue, deadLetters;
      this.limit, this.delay, this.stored := limit, delay, deadLetters.entries;
      payments, results, pending, effects := [], [], 0, [];
    }

    method Submit(s: Submission) returns (p: nat)
      requires Wired() && PQ.WellFormed(queue.Model())
      modifies this, queue, scheduler
      ensures p == |old(payments)|
      ensures Model() == PQ.Perform(old(Model()), D.CLIENT, Callback.Submit(s))
    {
      p := |payments|;
      payments := payments + [D.Payment(s, 0, 0, false, false)];
      queue.Enqueue(p);
      EnqueueAllOne(old(queue.Model()), p);
    }

    /** The closure scheduled for a retry. */
    method RetryDue(p: nat, attempt: nat)
      requires Wired() && PQ.WellFormed(queue.Model())
      modifies this, queue, scheduler
      ensures Model() == PQ.Perform(old(Model()), D.CLIENT, Retry(p, attempt))
    {
      if p < |payments| {
        pending := pending - 1;
        if !payments[p].isolated && !payments[p].completed {
          queue.Enqueue(p);
          EnqueueAllOne(old(queue.Model()), p);
        }
      }
    }

    method Isolate(p: nat, reason: Reason, diagnostic: string)
      requires Wired() && p < |payments|
      modifies this, deadLetters
      ensures Model() == old(Model()).(g := D.Isolate(old(Model().g), p, reason, diagnostic, scheduler.clock))
    {
      var x := payments[p];
      var stored := deadLetters.Isolate(
        D.Entry(x.submission.id, x.submission.requestId, reason, x.retryCount, scheduler.clock, x.submission.state, diagnostic));
      if stored {
        payments := payments[p := x.(isolated := true)];
        results := results + [D.Result(scheduler.clock, x.submission.id, D.MovedToDlq, x.attempts)];
      }
    }

    /** The closure handed to the queue: one attempt at payment `p`. */
    method Attempt(p: nat)
      requires Wired()
      modifies this, scheduler, deadLetters
      ensures var reply := D.Work(old(Model().g), p, old(scheduler.clock));
              && Model().g == reply.state
              && queue.Model() == old(queue.Model()).(agenda := PQ.ScheduleAll(old(scheduler.Model()), reply.requests))
    {
      if p >= |payments| || payments[p].isolated || payments[p].completed {
        return;
      }
      payments := payments[p := payments[p].(attempts := payments[p].attempts + 1)];
      var x := payments[p];
      var s := x.submission;
      if s.permanent.Some? {
        var text := if s.diagnostic.Some? && s.diagnostic.value != "" then s.diagnostic.value
                    else ReasonText(s.permanent.value);
        Isolate(p, s.permanent.value, text);
        return;
      }
      if x.attempts <= |s.failures| {
        if x.retryCount >= limit {
          Isolate(p, RetryLimitExceeded, s.failures[x.attempts - 1]);
          return;
        }
        payments := payments[p := x.(retryCount := x.retryCount + 1)];
        results := results + [D.Result(scheduler.clock, s.id, D.RetryScheduled, x.attempts)];
        pending := pending + 1;
        scheduler.ScheduleAfter(delay, PQ.Call(Retry(p, x.attempts)));
        return;
      }
      effects := effects + [p];
      payments := payments[p := x.(completed := true)];
      results := results + [D.Result(scheduler.clock, s.id, D.Succeeded, x.attempts)];
    }

    method ServeOne()
      requires Wired() && PQ.WellFormed(queue.Model()) && queue.waiting != []
      modifies this, queue, scheduler, deadLetters
      ensures Model() == PQ.Serve(old(Model()), D.CLIENT)
    {
      var k := queue.StartNext();
      Attempt(queue.jobs[k].payment);
      queue.FinishJob(k);
    }

    method ServeMany(n: nat)
      requires Wired() && PQ.WellFormed(queue.Model()) && n <= |queue.waiting|
      modifies this, queue, scheduler, deadLetters
      ensures Model() == PQ.ServeMany(old(Model()), D.CLIENT, n)
    {
      for i := 0 to n
        invariant PQ.WellFormed(queue.Model()) && n - i <= |queue.waiting|
        invariant PQ.ServeMany(Model(), D.CLIENT, n - i) == PQ.ServeMany(old(Model()), D.CLIENT, n)
      {
        ServeOne();
      }
    }

    method ProcessTick()
      requires Wired() && PQ.WellFormed(queue.Model())
      modifies this, queue, scheduler, deadLetters
      ensures Model() == PQ.ProcessTick(old(Model()), D.CLIENT)
    {
      queue.tickScheduled := false;
      ServeMany(Min(queue.capacity, |queue.waiting|));
      if queue.waiting != [] {
        queue.Wake();
      }
    }

    method RunNext() returns (ran: bool)
      requires Wired() && PQ.WellFormed(queue.Model())
      modifies this, queue, scheduler, deadLetters
      ensures ran <==> old(scheduler.queue) != []
      ensures Model() == PQ.Step(old(Model()), D.CLIENT)
    {
      if scheduler.queue == [] {
        return false;
      }
      ran := true;
      var taken := scheduler.Take();
      match taken
      case None =>
      case Some(e) =>
        match e.action {
          case Tick => ProcessTick();
          case Call(Submit(s)) => var p := Submit(s);
          case Call(Retry(p, attempt)) => RetryDue(p, attempt);
        }
        scheduler.Executed(e);
    }

    /** Run until nothing is pending. */
    method Run()
      requires Wired() && Inv(Model())
      modifies this, queue, scheduler, deadLetters
      ensures Model() == DeadLetterRuns.Run(old(Model()))
      ensures scheduler.queue == []
    {
      ghost var start := Model();
      while scheduler.queue != []
        invariant Inv(Model())
        invariant DeadLetterRuns.Run(Model()) == DeadLetterRuns.Run(start)
        decreases LoadAsNat(Model())
      {
        StepKeeps(Model());
        LoadIsNat(Model());
        LoadIsNat(PQ.Step(Model(), D.CLIENT));
        var ran := RunNext();
      }
    }
  }
}
