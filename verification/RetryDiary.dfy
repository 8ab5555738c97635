/**
 What the retry engine records: every attempt with the retry it asked for,
 told from the jobs of the queue, the pending events and the scripts.
 */
module RetryDiary {
  import opened Wrappers
  import opened PaymentQueues
  import opened QueueTurns
  import opened Submissions
  import R = Retries

  ghost function Tried(payments: seq<R.Payment>): (r: seq<nat>)
    ensures |r| == |payments| && forall p :: 0 <= p < |r| ==> r[p] == payments[p].attempts
  {
    seq(|payments|, p requires 0 <= p < |payments| => payments[p].attempts)
  }

  // ----- What an attempt is to say -----

  /**
   The attempt is the next of the payment `x` after `visits` others: it fails
   for the reason that the script has in its place, or succeeds behind the
   script's end, and asks for a retry a delay later if it fails within the limit.
   */
  ghost predicate Told(a: R.Attempt, x: R.Payment, visits: nat, limit: nat, delay: nat) {
    var number := visits + 1;
    && a.id == x.id && a.number == number <= limit + 1
    && a.succeeded == (number > |x.script|)
    && (a.reason == if number <= |x.script| then Some(x.script[visits]) else None)
    && (a.retryAt == if number <= |x.script| && number <= limit then Some(a.at + delay) else None)
    && a.remaining == limit - number + 1
  }

  /** The i-th attempt is of the i-th job, made when that was served. */
  ghost predicate AttemptTold(jobs: seq<Job>, g: R.State, i: nat)
    requires i < |jobs| && i < |g.attempts|
  {
    var p := jobs[i].payment;
    && p < |g.payments| && jobs[i].startedAt == Some(g.attempts[i].at)
    && Told(g.attempts[i], g.payments[p], Visits(jobs, i, p), g.limit, g.delay)
  }

  ghost predicate AttemptsTold(jobs: seq<Job>, g: R.State) {
    |g.attempts| <= |jobs| && forall i :: 0 <= i < |g.attempts| ==> AttemptTold(jobs, g, i)
  }

  // ----- What becomes of a retry -----

  /** The retry that attempt `a` of payment `p` asked for is pending at the time it was asked for. */
  ghost predicate Outstanding(a: R.Attempt, p: nat, events: Events) {
    exists e :: e in events && e.action == Call(Retry(p, a.number)) && Some(e.time) == a.retryAt
  }

  /** Job `k` is the retry that attempt `a` of payment `p` asked for, joined at the time it was asked for. */
  ghost predicate Answers(a: R.Attempt, p: nat, jobs: seq<Job>, k: nat) {
    k < |jobs| && jobs[k].payment == p && Visits(jobs, k, p) == a.number && Some(jobs[k].queuedAt) == a.retryAt
  }

  ghost predicate Answered(a: R.Attempt, p: nat, jobs: seq<Job>) {
    exists k: nat :: Answers(a, p, jobs, k)
  }

  ghost predicate Redeemed(a: R.Attempt, p: nat, jobs: seq<Job>, events: Events) {
    a.retryAt.Some? ==> Outstanding(a, p, events) || Answered(a, p, jobs)
  }

  ghost predicate AllRedeemed(jobs: seq<Job>, events: Events, attempts: seq<R.Attempt>) {
    |attempts| <= |jobs| && forall i :: 0 <= i < |attempts| ==> Redeemed(attempts[i], jobs[i].payment, jobs, events)
  }

  ghost predicate Diary(jobs: seq<Job>, first: nat, events: Events, g: R.State) {
    && Turns(jobs, first, events, Tried(g.payments), g.limit)
    && |g.attempts| == first && AttemptsTold(jobs, g)
    && AllRedeemed(jobs, events, g.attempts)
  }

  // ----- What is told stays true -----

  lemma {:induction false} AnswerContinues(a: R.Attempt, p: nat, jobs: seq<Job>, jobs': seq<Job>)
    requires Answered(a, p, jobs) && Continues(jobs, jobs')
    ensures Answered(a, p, jobs')
  {
    var k: nat :| Answers(a, p, jobs, k);
    assert Resumes(jobs[k], jobs'[k]);
    VisitsContinue(jobs, jobs', k, p);
    assert Answers(a, p, jobs', k);
  }

  lemma {:induction false} RedeemedContinues(jobs: seq<Job>, jobs': seq<Job>, events: Events, events': Events,
                                             attempts: seq<R.Attempt>)
    requires AllRedeemed(jobs, events, attempts) && Continues(jobs, jobs')
    requires forall e :: e in events && IsRetry(e) ==> e in events'
    ensures AllRedeemed(jobs', events', attempts)
  {
    forall i | 0 <= i < |attempts| ensures Redeemed(attempts[i], jobs'[i].payment, jobs', events') {
      var a, p := attempts[i], jobs[i].payment;
      assert Resumes(jobs[i], jobs'[i]) && Redeemed(a, p, jobs, events);
      if a.retryAt.Some? {
        if Outstanding(a, p, events) {
          var e :| e in events && e.action == Call(Retry(p, a.number)) && Some(e.time) == a.retryAt;
          assert IsRetry(e) && e in events';
        } else {
          AnswerContinues(a, p, jobs, jobs');
        }
      }
    }
  }

  /** The payments are still there, under their names and with their scripts. */
  ghost predicate SamePayments(g: R.State, g': R.State) {
    && |g.payments| <= |g'.payments| && g'.limit == g.limit && g'.delay == g.delay
    && forall p :: 0 <= p < |g.payments| ==> SameWork(g.payments[p], g'.payments[p])
  }

  ghost predicate SameWork(x: R.Payment, y: R.Payment) {
    y.id == x.id && y.script == x.script
  }

  lemma {:induction false} ToldContinues(jobs: seq<Job>, jobs': seq<Job>, g: R.State, g': R.State)
    requires AttemptsTold(jobs, g) && Continues(jobs, jobs') && SamePayments(g, g') && g'.attempts == g.attempts
    ensures AttemptsTold(jobs', g')
  {
    forall i | 0 <= i < |g.attempts| ensures AttemptTold(jobs', g', i) {
      assert AttemptTold(jobs, g, i) && Resumes(jobs[i], jobs'[i]);
      VisitsContinue(jobs, jobs', i, jobs[i].payment);
      assert SameWork(g.payments[jobs[i].payment], g'.payments[jobs[i].payment]);
    }
  }

  lemma {:induction false} DiaryFrame(jobs: seq<Job>, first: nat, events: Events, events': Events, g: R.State)
    requires Diary(jobs, first, events, g) && SameRetries(events, events')
    ensures Diary(jobs, first, events', g)
  {
    TurnsFrame(jobs, first, events, events', Tried(g.payments), g.limit);
    RedeemedContinues(jobs, jobs, events, events', g.attempts);
  }

  // ----- One attempt -----

  /** Attempt `visits + 1` at payment `p` leaves `g'` and asks for a retry if its record says so. */
  ghost predicate Attempted(g: R.State, g': R.State, p: nat, now: nat, requests: seq<Later<Callback>>)
    requires p < |g.payments|
  {
    && SamePayments(g, g') && Tried(g'.payments) == Tried(g.payments)[p := g.payments[p].attempts + 1]
    && |g'.attempts| == |g.attempts| + 1 && g'.attempts[..|g.attempts|] == g.attempts
    && var a := g'.attempts[|g.attempts|];
    && a.at == now && Told(a, g.payments[p], g.payments[p].attempts, g.limit, g.delay)
    && (requests == if a.retryAt.Some? then [Later(g.delay, Retry(p, a.number))] else [])
  }

  lemma WorkAttempts(g: R.State, p: nat, now: nat)
    requires p < |g.payments| && g.payments[p].attempts <= g.limit
    ensures Attempted(g, R.Work(g, p, now).state, p, now, R.Work(g, p, now).requests)
  {
  }

  lemma {:induction false} ToldMore(jobs: seq<Job>, g: R.State, g': R.State)
    requires SamePayments(g, g') && |g'.attempts| == |g.attempts| + 1 && g'.attempts[..|g.attempts|] == g.attempts
    requires AttemptsTold(jobs, g) && |g.attempts| < |jobs| && AttemptTold(jobs, g', |g.attempts|)
    ensures AttemptsTold(jobs, g')
  {
    forall i | 0 <= i < |g'.attempts| ensures AttemptTold(jobs, g', i) {
      if i < |g.attempts| {
        assert AttemptTold(jobs, g, i) && g'.attempts[..|g.attempts|][i] == g'.attempts[i];
        assert SameWork(g.payments[jobs[i].payment], g'.payments[jobs[i].payment]);
      }
    }
  }

  lemma {:induction false} RedeemedMore(jobs: seq<Job>, events: Events, attempts: seq<R.Attempt>, attempts': seq<R.Attempt>)
    requires AllRedeemed(jobs, events, attempts) && |attempts| < |jobs|
    requires |attempts'| == |attempts| + 1 && attempts'[..|attempts|] == attempts
    requires Redeemed(attempts'[|attempts|], jobs[|attempts|].payment, jobs, events)
    ensures AllRedeemed(jobs, events, attempts')
  {
    forall i | 0 <= i < |attempts'| ensures Redeemed(attempts'[i], jobs[i].payment, jobs, events) {
      if i < |attempts| {
        assert attempts'[..|attempts|][i] == attempts'[i];
      }
    }
  }

  lemma {:induction false} AttemptTurns(jobs: seq<Job>, first: nat, jobs': seq<Job>, events: Events, events': Events,
                                        g: R.State, g': R.State,
                     now: nat, requests: seq<Later<Callback>>)
    requires Diary(jobs, first, events, g) && ServedNext(jobs, first, jobs')
    requires jobs[first].payment < |g.payments| && Attempted(g, g', jobs[first].payment, now, requests)
    requires Brings(events, events', requests, now)
    ensures Turns(jobs', first + 1, events', Tried(g'.payments), g'.limit)
  {
    var p, tried := jobs[first].payment, Tried(g.payments);
    ServedTurns(jobs, first, jobs', events, tried, g.limit);
    if requests == [] {
      TurnsFrame(jobs', first + 1, events, events', Tried(g'.payments), g.limit);
    } else {
      var e :| AskedFor(events, events', requests[0], now, e);
      RetryTurns(jobs', first + 1, events, events', Tried(g'.payments), g.limit, e);
    }
  }

  lemma {:induction false} AttemptRedeemed(jobs: seq<Job>, events: Events, events': Events, g: R.State, g': R.State, now: nat,
                        requests: seq<Later<Callback>>)
    requires AllRedeemed(jobs, events, g.attempts) && |g.attempts| < |jobs|
    requires jobs[|g.attempts|].payment < |g.payments| && Attempted(g, g', jobs[|g.attempts|].payment, now, requests)
    requires Brings(events, events', requests, now)
    ensures AllRedeemed(jobs, events', g'.attempts)
  {
    var a, p := g'.attempts[|g.attempts|], jobs[|g.attempts|].payment;
    RedeemedContinues(jobs, jobs, events, events', g.attempts);
    if a.retryAt.Some? {
      var e :| AskedFor(events, events', requests[0], now, e);
      assert e.action == Call(Retry(p, a.number)) && Some(e.time) == a.retryAt;
      assert Outstanding(a, p, events');
    }
    RedeemedMore(jobs, events', g.attempts, g'.attempts);
  }

  /** A job is served and its attempt recorded. */
  lemma {:induction false} AttemptDiary(jobs: seq<Job>, first: nat, jobs': seq<Job>, events: Events, events': Events,
                                        g: R.State, g': R.State,
                     now: nat, requests: seq<Later<Callback>>)
    requires Diary(jobs, first, events, g) && ServedNext(jobs, first, jobs') && jobs'[first].startedAt == Some(now)
    requires jobs[first].payment < |g.payments| && Attempted(g, g', jobs[first].payment, now, requests)
    requires Brings(events, events', requests, now)
    ensures Diary(jobs', first + 1, events', g')
  {
    AttemptTurns(jobs, first, jobs', events, events', g, g', now, requests);
    assert Resumes(jobs[first], jobs'[first]);
    RedeemedContinues(jobs, jobs', events, events, g.attempts);
    AttemptRedeemed(jobs', events, events', g, g', now, requests);
    ToldContinues(jobs, jobs', g, g);
    VisitsContinue(jobs, jobs', first, jobs[first].payment);
    assert InTurn(jobs, first, jobs[first].payment, Tried(g.payments)[jobs[first].payment], g.limit);
    ToldMore(jobs', g, g');
  }
}
