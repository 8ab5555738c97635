/**
 What the dead-letter engine reports: a result for each attempt but the ones
 that found their identifier taken, and the time of each entry it added.
 */
module DeadLetterDiary {
  import opened Wrappers
  import opened PaymentQueues
  import opened QueueTurns
  import opened Submissions
  import opened DeadLetters
  import I = DeadLetterInvariant

  ghost function Tried(payments: seq<Payment>): (r: seq<nat>)
    ensures |r| == |payments| && forall p :: 0 <= p < |r| ==> r[p] == payments[p].attempts
  {
    seq(|payments|, p requires 0 <= p < |payments| => payments[p].attempts)
  }

  // ----- What a result is to say -----

  /** An attempt of that number at the submission is to isolate it: it can never be processed, or fails with no retry left. */
  predicate Hopeless(s: Submission, number: nat, limit: nat) {
    s.permanent.Some? || limit < number <= |s.failures|
  }

  /** The result of that attempt: isolated if hopeless, succeeded behind the script's end, to be retried otherwise. */
  predicate Reports(r: Result, s: Submission, number: nat, limit: nat) {
    && r.id == s.id && r.number == number
    && (r.outcome == MovedToDlq <==> Hopeless(s, number, limit))
    && (r.outcome == Succeeded <==> s.permanent.None? && number > |s.failures|)
  }

  /** The attempt made for job `i` was hopeless and yet the payment is not isolated: its identifier was taken. */
  ghost predicate Silent(jobs: seq<Job>, i: nat, payments: seq<Payment>, limit: nat)
    requires i < |jobs|
  {
    var p := jobs[i].payment;
    p < |payments| && !payments[p].isolated && Hopeless(payments[p].submission, Visits(jobs, i, p) + 1, limit)
  }

  /** The jobs among the first `n` whose attempts were reported. */
  ghost function Reported(jobs: seq<Job>, n: nat, payments: seq<Payment>, limit: nat): (r: seq<nat>)
    requires n <= |jobs|
    ensures forall i :: 0 <= i < |r| ==> r[i] < n
  {
    if n == 0 then []
    else Reported(jobs, n - 1, payments, limit) + (if Silent(jobs, n - 1, payments, limit) then [] else [n - 1])
  }

  ghost predicate ResultTold(r: Result, jobs: seq<Job>, i: nat, payments: seq<Payment>, limit: nat)
    requires i < |jobs|
  {
    var p := jobs[i].payment;
    && p < |payments| && jobs[i].startedAt == Some(r.time)
    && Reports(r, payments[p].submission, Visits(jobs, i, p) + 1, limit)
  }

  ghost predicate ResultsTold(results: seq<Result>, jobs: seq<Job>, first: nat, payments: seq<Payment>, limit: nat)
    requires first <= |jobs|
  {
    var told := Reported(jobs, first, payments, limit);
    |results| == |told| && forall k :: 0 <= k < |told| ==> ResultTold(results[k], jobs, told[k], payments, limit)
  }

  // ----- What an entry is to say -----

  ghost function Isolations(results: seq<Result>): seq<Result> {
    if results == [] then []
    else
      var init, last := results[..|results| - 1], results[|results| - 1];
      Isolations(init) + (if last.outcome == MovedToDlq then [last] else [])
  }

  /** Each entry that was added names a payment that a result reports isolated, at that time and in that order. */
  ghost predicate EntriesTold(g: State) {
    var moved := Isolations(g.results);
    && |g.entries| == |g.stored| + |moved|
    && forall k :: 0 <= k < |moved| ==>
         g.entries[|g.stored| + k].id == moved[k].id && g.entries[|g.stored| + k].isolatedAt == moved[k].time
  }

  lemma OneMoreResult(results: seq<Result>, r: Result)
    ensures Isolations(results + [r]) == Isolations(results) + (if r.outcome == MovedToDlq then [r] else [])
  {
    assert (results + [r])[..|results|] == results;
  }

  // ----- One attempt -----

  /** What an attempt at an unsettled payment leaves. */
  ghost predicate Attempted(g: State, g': State, p: nat, now: nat)
    requires p < |g.payments|
  {
    var s, number := g.payments[p].submission, g.payments[p].attempts + 1;
    && |g'.payments| == |g.payments| && g'.payments == g.payments[p := g'.payments[p]] && g'.limit == g.limit
    && g'.payments[p].submission == s && g'.payments[p].attempts == number && g'.stored == g.stored
    && if Hopeless(s, number, g.limit) && !g'.payments[p].isolated
       then g'.results == g.results && g'.entries == g.entries
       else
         && |g'.results| == |g.results| + 1 && g'.results[..|g.results|] == g.results
         && var r := g'.results[|g.results|];
         && r.time == now && Reports(r, s, number, g.limit)
         && if r.outcome == MovedToDlq
            then
              && |g'.entries| == |g.entries| + 1 && g'.entries[..|g.entries|] == g.entries
              && g'.entries[|g.entries|].id == r.id && g'.entries[|g.entries|].isolatedAt == now
            else g'.entries == g.entries
  }

  lemma WorkAttempts(g: State, p: nat, now: nat, ran: nat)
    requires p < |g.payments| && I.Fated(g.payments[p], g.limit, g.deadIds, 1, ran)
    ensures Attempted(g, Work(g, p, now).state, p, now)
  {
  }

  lemma WorkTellsEntries(g: State, g': State, p: nat, now: nat)
    requires EntriesTold(g) && p < |g.payments| && Attempted(g, g', p, now)
    ensures EntriesTold(g')
  {
    if g'.results != g.results {
      assert g'.results == g.results + [g'.results[|g.results|]];
      OneMoreResult(g.results, g'.results[|g.results|]);
    }
  }

  // ----- Who was silent stays silent -----

  /** An unsettled payment has not had a hopeless attempt. */
  lemma NotYetHopeless(x: Payment, limit: nat, deadIds: set<string>, ran: nat, number: nat)
    requires I.Fated(x, limit, deadIds, 1, ran) && 1 <= number <= x.attempts
    ensures !Hopeless(x.submission, number, limit)
  {
  }

  /** The payments but `p` as they were, and `p` without a hopeless attempt so far. */
  ghost predicate SameVerdicts(jobs: seq<Job>, n: nat, payments: seq<Payment>, payments': seq<Payment>, limit: nat)
    requires n <= |jobs|
  {
    forall i :: 0 <= i < n ==> (Silent(jobs, i, payments, limit) <==> Silent(jobs, i, payments', limit))
  }

  lemma {:induction false} SameReported(jobs: seq<Job>, n: nat, payments: seq<Payment>, payments': seq<Payment>, limit: nat)
    requires n <= |jobs| && SameVerdicts(jobs, n, payments, payments', limit)
    ensures Reported(jobs, n, payments', limit) == Reported(jobs, n, payments, limit)
    decreases n
  {
    if n > 0 {
      assert Silent(jobs, n - 1, payments, limit) <==> Silent(jobs, n - 1, payments', limit);
      SameReported(jobs, n - 1, payments, payments', limit);
    }
  }

  lemma {:induction false} ReportedContinues(jobs: seq<Job>, jobs': seq<Job>, n: nat, payments: seq<Payment>, limit: nat)
    requires n <= |jobs| && Continues(jobs, jobs')
    ensures Reported(jobs', n, payments, limit) == Reported(jobs, n, payments, limit)
    decreases n
  {
    if n > 0 {
      assert Resumes(jobs[n - 1], jobs'[n - 1]);
      VisitsContinue(jobs, jobs', n - 1, jobs[n - 1].payment);
      ReportedContinues(jobs, jobs', n - 1, payments, limit);
    }
  }

  lemma {:induction false} ResultsContinue(results: seq<Result>, jobs: seq<Job>, jobs': seq<Job>, first: nat,
                                           payments: seq<Payment>, limit: nat)
    requires first <= |jobs| && ResultsTold(results, jobs, first, payments, limit) && Continues(jobs, jobs')
    ensures ResultsTold(results, jobs', first, payments, limit)
  {
    ReportedContinues(jobs, jobs', first, payments, limit);
    var told := Reported(jobs, first, payments, limit);
    forall k | 0 <= k < |told| ensures ResultTold(results[k], jobs', told[k], payments, limit) {
      assert ResultTold(results[k], jobs, told[k], payments, limit) && Resumes(jobs[told[k]], jobs'[told[k]]);
      VisitsContinue(jobs, jobs', told[k], jobs[told[k]].payment);
    }
  }

  ghost predicate SameSubmissions(payments: seq<Payment>, payments': seq<Payment>) {
    && |payments| <= |payments'|
    && forall p :: 0 <= p < |payments| ==> payments'[p].submission == payments[p].submission
  }

  lemma {:induction false} ResultsStay(results: seq<Result>, jobs: seq<Job>, first: nat, payments: seq<Payment>,
                                       payments': seq<Payment>, limit: nat)
    requires first <= |jobs| && ResultsTold(results, jobs, first, payments, limit)
    requires SameSubmissions(payments, payments') && SameVerdicts(jobs, first, payments, payments', limit)
    ensures ResultsTold(results, jobs, first, payments', limit)
  {
    SameReported(jobs, first, payments, payments', limit);
    var told := Reported(jobs, first, payments, limit);
    forall k | 0 <= k < |told| ensures ResultTold(results[k], jobs, told[k], payments', limit) {
      assert ResultTold(results[k], jobs, told[k], payments, limit);
    }
  }
}
