/** The retry engine's list of events: one for each attempt, one for each arrival at the queue, in time. */
module RetryTimeline {
  import opened Wrappers
  import opened PaymentQueues
  import opened QueueTurns
  import opened RetryDiary
  import R = Retries

  predicate OfAttempt(e: R.RetryEvent) {
    e.verb == R.FailedOnce || e.verb == R.FailedForGood || e.verb == R.Success
  }

  /** The events that tell of attempts, and those that tell of arrivals. */
  ghost function Attempts(events: seq<R.RetryEvent>): seq<R.RetryEvent> {
    if events == [] then []
    else
      var init, last := events[..|events| - 1], events[|events| - 1];
      Attempts(init) + (if OfAttempt(last) then [last] else [])
  }

  ghost function Arrivals(events: seq<R.RetryEvent>): seq<R.RetryEvent> {
    if events == [] then []
    else
      var init, last := events[..|events| - 1], events[|events| - 1];
      Arrivals(init) + (if OfAttempt(last) then [] else [last])
  }

  lemma OneMore(events: seq<R.RetryEvent>, e: R.RetryEvent)
    ensures Attempts(events + [e]) == Attempts(events) + (if OfAttempt(e) then [e] else [])
    ensures Arrivals(events + [e]) == Arrivals(events) + (if OfAttempt(e) then [] else [e])
  {
    assert (events + [e])[..|events|] == events;
  }

  /** Which attempt, of whom, when, and how it ended. */
  ghost predicate TellsAttempt(e: R.RetryEvent, a: R.Attempt) {
    && e.time == a.at && e.id == a.id && e.number == Some(a.number)
    && (e.verb == R.Success <==> a.succeeded)
    && (e.verb == R.FailedOnce <==> a.retryAt.Some?)
  }

  /** A first arrival is that of a submission, any other that of a retry with the number of the attempt to come. */
  ghost predicate TellsArrival(e: R.RetryEvent, jobs: seq<Job>, k: nat, payments: seq<R.Payment>)
    requires k < |jobs|
  {
    var p := jobs[k].payment;
    && p < |payments| && e.time == jobs[k].queuedAt && e.id == payments[p].id
    && (e.verb == if Visits(jobs, k, p) == 0 then R.Queued else R.RetryDue)
    && (e.number == if Visits(jobs, k, p) == 0 then None else Some(Visits(jobs, k, p) + 1))
  }

  ghost predicate TellsAttempts(told: seq<R.RetryEvent>, attempts: seq<R.Attempt>) {
    |told| == |attempts| && forall i :: 0 <= i < |told| ==> OfAttempt(told[i]) && TellsAttempt(told[i], attempts[i])
  }

  ghost predicate TellsArrivals(told: seq<R.RetryEvent>, jobs: seq<Job>, payments: seq<R.Payment>) {
    |told| == |jobs| && forall k :: 0 <= k < |told| ==> TellsArrival(told[k], jobs, k, payments)
  }

  ghost predicate Chronological(events: seq<R.RetryEvent>, now: nat) {
    && (forall i, j :: 0 <= i < j < |events| ==> events[i].time <= events[j].time)
    && (forall i :: 0 <= i < |events| ==> events[i].time <= now)
  }

  ghost predicate Timeline(jobs: seq<Job>, g: R.State, now: nat) {
    && TellsAttempts(Attempts(g.events), g.attempts)
    && TellsArrivals(Arrivals(g.events), jobs, g.payments)
    && Chronological(g.events, now)
  }

  lemma {:induction false} ArrivalsContinue(told: seq<R.RetryEvent>, jobs: seq<Job>, jobs': seq<Job>, g: R.State, g': R.State)
    requires TellsArrivals(told, jobs, g.payments) && Continues(jobs, jobs') && |jobs'| == |jobs| && SamePayments(g, g')
    ensures TellsArrivals(told, jobs', g'.payments)
  {
    forall k | 0 <= k < |told| ensures TellsArrival(told[k], jobs', k, g'.payments) {
      var p := jobs[k].payment;
      assert TellsArrival(told[k], jobs, k, g.payments) && Resumes(jobs[k], jobs'[k]);
      assert SameWork(g.payments[p], g'.payments[p]);
      VisitsContinue(jobs, jobs', k, p);
    }
  }

  // ----- An attempt -----

  lemma WorkTells(g: R.State, p: nat, now: nat)
    requires p < |g.payments| && g.payments[p].attempts <= g.limit
    ensures var g' := R.Work(g, p, now).state;
            && |g'.events| == |g.events| + 1 && g'.events[..|g.events|] == g.events
            && |g'.attempts| == |g.attempts| + 1 && g'.attempts[..|g.attempts|] == g.attempts
            && var e := g'.events[|g.events|];
            && e.time == now && OfAttempt(e) && TellsAttempt(e, g'.attempts[|g.attempts|])
  {
  }

  lemma {:induction false} AttemptTimeline(jobs: seq<Job>, jobs': seq<Job>, g: R.State, g': R.State, now: nat)
    requires Timeline(jobs, g, now) && Continues(jobs, jobs') && |jobs'| == |jobs| && SamePayments(g, g')
    requires |g'.events| == |g.events| + 1 && g'.events[..|g.events|] == g.events
    requires |g'.attempts| == |g.attempts| + 1 && g'.attempts[..|g.attempts|] == g.attempts
    requires var e := g'.events[|g.events|]; e.time == now && OfAttempt(e) && TellsAttempt(e, g'.attempts[|g.attempts|])
    ensures Timeline(jobs', g', now)
  {
    var e := g'.events[|g.events|];
    assert g'.events == g.events + [e] && g'.attempts == g.attempts + [g'.attempts[|g.attempts|]];
    OneMore(g.events, e);
    ArrivalsContinue(Arrivals(g.events), jobs, jobs', g, g');
  }

  // ----- An arrival -----

  lemma {:induction false} ArrivalsJoin(told: seq<R.RetryEvent>, jobs: seq<Job>, j: Job, g: R.State, g': R.State,
                                        e: R.RetryEvent)
    requires TellsArrivals(told, jobs, g.payments) && SamePayments(g, g')
    requires TellsArrival(e, jobs + [j], |jobs|, g'.payments)
    ensures TellsArrivals(told + [e], jobs + [j], g'.payments)
  {
    var jobs' := jobs + [j];
    forall k | 0 <= k < |told| ensures TellsArrival(told[k], jobs', k, g'.payments) {
      var p := jobs[k].payment;
      assert TellsArrival(told[k], jobs, k, g.payments);
      assert SameWork(g.payments[p], g'.payments[p]);
      VisitsContinue(jobs, jobs', k, p);
    }
  }

  lemma {:induction false} ArrivalTimeline(jobs: seq<Job>, j: Job, g: R.State, g': R.State, now: nat, e: R.RetryEvent)
    requires Timeline(jobs, g, now) && SamePayments(g, g') && g'.attempts == g.attempts && g'.events == g.events + [e]
    requires e.time == now && !OfAttempt(e) && TellsArrival(e, jobs + [j], |jobs|, g'.payments)
    ensures Timeline(jobs + [j], g', now)
  {
    OneMore(g.events, e);
    ArrivalsJoin(Arrivals(g.events), jobs, j, g, g', e);
  }
}
