/**
 Whose turn a job of the payment queue is: the jobs of one payment follow each
 other, each but the first called for by a retry.
 */
module QueueTurns {
  import opened Wrappers
  import opened Scheduling
  import opened PaymentQueues
  import opened QueueLatency
  import opened Submissions

  type Events = seq<Event<Action<Callback>>>

  /** How many of the first `i` jobs are of payment `p`. */
  function Visits(jobs: seq<Job>, i: nat, p: nat): nat
    requires i <= |jobs|
  {
    if i == 0 then 0 else Visits(jobs, i - 1, p) + (if jobs[i - 1].payment == p then 1 else 0)
  }

  /** A later table of jobs: what was in it is still there, and what had started had started then. */
  ghost predicate Continues(jobs: seq<Job>, jobs': seq<Job>) {
    && |jobs| <= |jobs'|
    && forall i :: 0 <= i < |jobs| ==> Resumes(jobs[i], jobs'[i])
  }

  ghost predicate Resumes(j: Job, j': Job) {
    && j'.payment == j.payment && j'.queuedAt == j.queuedAt && j'.position == j.position
    && (j.startedAt.Some? ==> j'.startedAt == j.startedAt)
  }

  lemma {:induction false} VisitsContinue(jobs: seq<Job>, jobs': seq<Job>, i: nat, p: nat)
    requires Continues(jobs, jobs') && i <= |jobs|
    ensures Visits(jobs', i, p) == Visits(jobs, i, p)
    decreases i
  {
    if i > 0 {
      assert Resumes(jobs[i - 1], jobs'[i - 1]);
      VisitsContinue(jobs, jobs', i - 1, p);
    }
  }

  lemma {:induction false} VisitsGrow(jobs: seq<Job>, i: nat, j: nat, p: nat)
    requires i <= j <= |jobs|
    ensures Visits(jobs, i, p) <= Visits(jobs, j, p)
    decreases j
  {
    if i < j {
      VisitsGrow(jobs, i, j - 1, p);
    }
  }

  lemma {:induction false} NeverVisited(jobs: seq<Job>, i: nat, p: nat)
    requires i <= |jobs| && forall k :: 0 <= k < |jobs| ==> jobs[k].payment < p
    ensures Visits(jobs, i, p) == 0
    decreases i
  {
    if i > 0 {
      NeverVisited(jobs, i - 1, p);
    }
  }

  // ----- Turns -----

  predicate IsRetry(e: Event<Action<Callback>>) {
    e.action.Call? && e.action.callback.Retry?
  }

  ghost predicate Known(jobs: seq<Job>, count: nat) {
    forall k :: 0 <= k < |jobs| ==> jobs[k].payment < count
  }

  /** A payment tried `tried` times has been served as often, and waits for at most one more try, which the limit allows. */
  ghost predicate InTurn(jobs: seq<Job>, first: nat, p: nat, tried: nat, limit: nat)
    requires first <= |jobs|
  {
    && tried == Visits(jobs, first, p) <= Visits(jobs, |jobs|, p) <= tried + 1
    && (Visits(jobs, |jobs|, p) > tried ==> tried <= limit)
  }

  /** A pending retry is of a payment that waits nowhere, and names its last try. */
  ghost predicate RetryInTurn(e: Event<Action<Callback>>, jobs: seq<Job>, tried: seq<nat>, limit: nat) {
    IsRetry(e) ==>
      var Retry(p, n) := e.action.callback;
      p < |tried| && 0 < n == tried[p] == Visits(jobs, |jobs|, p) && n <= limit
  }

  predicate SamePayment(e: Event<Action<Callback>>, f: Event<Action<Callback>>) {
    IsRetry(e) && IsRetry(f) && e.action.callback.payment == f.action.callback.payment
  }

  ghost predicate OneRetryEach(events: Events) {
    forall e, f :: e in events && f in events && SamePayment(e, f) ==> e == f
  }

  /** The jobs, of which `first` have been served, the pending events and the number of tries of each payment agree. */
  ghost predicate Turns(jobs: seq<Job>, first: nat, events: Events, tried: seq<nat>, limit: nat) {
    && first <= |jobs| && Known(jobs, |tried|)
    && (forall p :: 0 <= p < |tried| ==> InTurn(jobs, first, p, tried[p], limit))
    && (forall e :: e in events ==> RetryInTurn(e, jobs, tried, limit))
    && OneRetryEach(events)
  }

  /** The same retries are pending. */
  ghost predicate SameRetries(events: Events, events': Events) {
    forall e :: IsRetry(e) ==> (e in events <==> e in events')
  }

  ghost predicate OneRetryMore(events: Events, events': Events, more: Event<Action<Callback>>) {
    forall e :: IsRetry(e) ==> (e in events' <==> e in events || e == more)
  }

  ghost predicate OneRetryLess(events: Events, events': Events, taken: Event<Action<Callback>>) {
    forall e :: IsRetry(e) ==> (e in events' <==> e in events && e != taken)
  }

  lemma {:induction false} TurnsFrame(jobs: seq<Job>, first: nat, events: Events, events': Events, tried: seq<nat>, limit: nat)
    requires Turns(jobs, first, events, tried, limit) && SameRetries(events, events')
    ensures Turns(jobs, first, events', tried, limit)
  {
    forall e | e in events' ensures RetryInTurn(e, jobs, tried, limit) {
      assert IsRetry(e) ==> e in events;
    }
  }

  // ----- A job is served -----

  ghost predicate ServedNext(jobs: seq<Job>, first: nat, jobs': seq<Job>) {
    first < |jobs| && |jobs'| == |jobs| && Continues(jobs, jobs')
  }

  lemma {:induction false} ServedInTurn(jobs: seq<Job>, first: nat, jobs': seq<Job>, p: nat, tried: nat, limit: nat)
    requires ServedNext(jobs, first, jobs') && InTurn(jobs, first, p, tried, limit)
    ensures InTurn(jobs', first + 1, p, if jobs[first].payment == p then tried + 1 else tried, limit)
    ensures jobs[first].payment == p ==> tried + 1 == Visits(jobs', |jobs'|, p) && tried <= limit
  {
    assert Resumes(jobs[first], jobs'[first]);
    VisitsContinue(jobs, jobs', first, p);
    VisitsContinue(jobs, jobs', |jobs|, p);
    VisitsGrow(jobs', first + 1, |jobs'|, p);
  }

  lemma {:induction false} ServedTurns(jobs: seq<Job>, first: nat, jobs': seq<Job>, events: Events, tried: seq<nat>, limit: nat)
    requires Turns(jobs, first, events, tried, limit) && ServedNext(jobs, first, jobs')
    ensures jobs[first].payment < |tried| && tried[jobs[first].payment] <= limit
    ensures var p := jobs[first].payment; Turns(jobs', first + 1, events, tried[p := tried[p] + 1], limit)
    ensures var p := jobs[first].payment; tried[p] + 1 == Visits(jobs', |jobs'|, p)
    ensures forall e :: e in events && IsRetry(e) ==> e.action.callback.payment != jobs[first].payment
  {
    var p := jobs[first].payment;
    ServedInTurn(jobs, first, jobs', p, tried[p], limit);
    VisitsContinue(jobs, jobs', |jobs|, p);
    forall e | e in events && IsRetry(e) ensures e.action.callback.payment != p {
      assert RetryInTurn(e, jobs, tried, limit);
    }
    var tried' := tried[p := tried[p] + 1];
    forall r | 0 <= r < |tried'| ensures InTurn(jobs', first + 1, r, tried'[r], limit) {
      ServedInTurn(jobs, first, jobs', r, tried[r], limit);
    }
    forall e | e in events ensures RetryInTurn(e, jobs', tried', limit) {
      assert RetryInTurn(e, jobs, tried, limit);
      if IsRetry(e) {
        VisitsContinue(jobs, jobs', |jobs|, e.action.callback.payment);
      }
    }
    ServedKnown(jobs, jobs', |tried|);
  }

  lemma {:induction false} ServedKnown(jobs: seq<Job>, jobs': seq<Job>, count: nat)
    requires Known(jobs, count) && Continues(jobs, jobs') && |jobs'| == |jobs|
    ensures Known(jobs', count)
  {
    forall k | 0 <= k < |jobs'| ensures jobs'[k].payment < count {
      assert Resumes(jobs[k], jobs'[k]);
    }
  }

  lemma {:induction false} RetryTurns(jobs: seq<Job>, first: nat, events: Events, events': Events, tried: seq<nat>, limit: nat,
                   e: Event<Action<Callback>>)
    requires Turns(jobs, first, events, tried, limit)
    requires IsRetry(e) && OneRetryMore(events, events', e) && RetryInTurn(e, jobs, tried, limit)
    requires forall f :: f in events && IsRetry(f) ==> f.action.callback.payment != e.action.callback.payment
    ensures Turns(jobs, first, events', tried, limit)
  {
    forall f | f in events' ensures RetryInTurn(f, jobs, tried, limit) {
      assert IsRetry(f) ==> f in events || f == e;
    }
  }

  // ----- A job is added -----

  lemma {:induction false} JoinedVisits(jobs: seq<Job>, j: Job, p: nat)
    ensures Visits(jobs + [j], |jobs|, p) == Visits(jobs, |jobs|, p)
    ensures Visits(jobs + [j], |jobs| + 1, p) == Visits(jobs, |jobs|, p) + (if j.payment == p then 1 else 0)
  {
    VisitsContinue(jobs, jobs + [j], |jobs|, p);
  }

  lemma {:induction false} JoinedInTurn(jobs: seq<Job>, first: nat, j: Job, p: nat, tried: nat, limit: nat)
    requires first <= |jobs| && InTurn(jobs, first, p, tried, limit)
    requires j.payment == p ==> tried == Visits(jobs, |jobs|, p) && tried <= limit
    ensures InTurn(jobs + [j], first, p, tried, limit)
  {
    VisitsContinue(jobs, jobs + [j], first, p);
    JoinedVisits(jobs, j, p);
  }

  lemma {:induction false} NewInTurn(jobs: seq<Job>, first: nat, j: Job, p: nat, limit: nat)
    requires first <= |jobs| && Known(jobs, p) && j.payment == p
    ensures InTurn(jobs + [j], first, p, 0, limit)
  {
    NeverVisited(jobs, first, p);
    NeverVisited(jobs, |jobs|, p);
    VisitsContinue(jobs, jobs + [j], first, p);
    JoinedVisits(jobs, j, p);
  }

  /** A new payment joins. */
  lemma {:induction false} SubmittedTurns(jobs: seq<Job>, first: nat, events: Events, tried: seq<nat>, limit: nat, j: Job)
    requires Turns(jobs, first, events, tried, limit) && j.payment == |tried|
    ensures Turns(jobs + [j], first, events, tried + [0], limit)
  {
    var tried' := tried + [0];
    forall p | 0 <= p < |tried'| ensures InTurn(jobs + [j], first, p, tried'[p], limit) {
      if p < |tried| {
        JoinedInTurn(jobs, first, j, p, tried[p], limit);
      } else {
        NewInTurn(jobs, first, j, p, limit);
      }
    }
    forall e | e in events ensures RetryInTurn(e, jobs + [j], tried', limit) {
      assert RetryInTurn(e, jobs, tried, limit);
      if IsRetry(e) {
        JoinedVisits(jobs, j, e.action.callback.payment);
      }
    }
  }

  /** A retry falls due and its payment joins again. */
  lemma {:induction false} RetriedTurns(jobs: seq<Job>, first: nat, events: Events, events': Events, tried: seq<nat>,
                                        limit: nat,
                     e: Event<Action<Callback>>, j: Job)
    requires Turns(jobs, first, events, tried, limit)
    requires e in events && IsRetry(e) && OneRetryLess(events, events', e) && j.payment == e.action.callback.payment
    ensures e.action.callback.payment < |tried| && e.action.callback.attempt == Visits(jobs, |jobs|, j.payment)
    ensures Turns(jobs + [j], first, events', tried, limit)
  {
    assert RetryInTurn(e, jobs, tried, limit);
    forall p | 0 <= p < |tried| ensures InTurn(jobs + [j], first, p, tried[p], limit) {
      JoinedInTurn(jobs, first, j, p, tried[p], limit);
    }
    forall f | f in events' ensures RetryInTurn(f, jobs + [j], tried, limit) {
      if IsRetry(f) {
        assert f in events && f != e;
        assert RetryInTurn(f, jobs, tried, limit);
        JoinedVisits(jobs, j, f.action.callback.payment);
      }
    }
  }

  // ----- What the queue does -----

  /** The events pending after the requests of an attempt. */
  ghost predicate Brings(events: Events, events': Events, requests: seq<Later<Callback>>, now: nat) {
    if requests == [] then SameRetries(events, events')
    else |requests| == 1 && exists e :: AskedFor(events, events', requests[0], now, e)
  }

  ghost predicate AskedFor(events: Events, events': Events, request: Later<Callback>, now: nat, e: Event<Action<Callback>>) {
    e.action == Call(request.callback) && e.time == now + request.delay && e in events' && OneRetryMore(events, events', e)
  }

  lemma RequestsPend(a: Agenda<Action<Callback>>, requests: seq<Later<Callback>>)
    requires Valid(a) && |requests| <= 1
    ensures Brings(a.queue, ScheduleAll(a, requests).queue, requests, a.now)
  {
    if requests != [] {
      var call: Action<Callback> := Call(requests[0].callback);
      ScheduleAfterValid(a, requests[0].delay, call);
      assert requests[1..] == [];
      assert ScheduleAll(a, requests) == ScheduleAfter(a, requests[0].delay, call);
      assert AskedFor(a.queue, ScheduleAll(a, requests).queue, requests[0], a.now, Event(a.now + requests[0].delay, a.nextOrder, call));
    }
  }

  lemma ServeIs<G>(m: Machine<G, Callback>, c: Client<G, Callback>)
    requires Fifo(m.q) && m.q.waiting != [] && Valid(m.q.agenda)
    ensures var n, k := Serve(m, c), First(m.q);
            && 0 <= k < |m.q.jobs| && m.q.waiting[0] == k && First(n.q) == k + 1
            && n.q.agenda.now == m.q.agenda.now
            && ServedNext(m.q.jobs, k, n.q.jobs) && n.q.jobs[k].startedAt == Some(m.q.agenda.now)
            && var reply := c.work(m.g, m.q.jobs[k].payment, m.q.agenda.now);
            && n.g == reply.state && n.q.agenda == ScheduleAll(m.q.agenda, reply.requests)
  {
    ScheduleAllKeeps(m.q.agenda, c.work(m.g, m.q.jobs[m.q.waiting[0]].payment, m.q.agenda.now).requests);
  }

  ghost function Joining(q: Queue<Callback>, payment: nat): Job {
    Job(payment, q.agenda.now, |q.waiting| + 1, None, None)
  }

  lemma PerformIs<G>(m: Machine<G, Callback>, c: Client<G, Callback>, x: Callback, p: nat)
    requires WellFormed(m.q) && c.call(m.g, x, m.q.agenda.now).payments == [p]
    ensures Perform(m, c, x) == Machine(Enqueue(m.q, p), c.call(m.g, x, m.q.agenda.now).state)
  {
    assert EnqueueAll(m.q, [p]) == EnqueueAll(Enqueue(m.q, p), []);
  }
}
