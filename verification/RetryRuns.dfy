/**
 Every run of the retry engine ends and settles every payment, whatever the
 identifiers: it is alike to a run with new names, which goes in lock step with
 a dead-letter engine.
 */
module RetryRuns {
  import opened Wrappers
  import opened Scheduling
  import opened PaymentQueues
  import opened Submissions
  import opened DeadLetterInvariant
  import opened DeadLetterRuns
  import opened DeadLetterTheorems
  import opened RetryNaming
  import opened LockStep
  import R = Retries
  import D = DeadLetters

  // ----- The shadow of a retry engine -----

  /** `k` is the engine with other names, `n` a dead-letter engine in step with it in which no identifier is taken. */
  ghost predicate Shadows(m: Retrier, k: Retrier, n: Engine) {
    && WellFormed(m.q) && Alike(m, k) && InStep(k, n) && Inv(n)
    && Free(Roll(n), n.g.limit, n.g.stored) && Plain(Coming(n.q.agenda))
  }

  ghost predicate Sound(m: Retrier) {
    exists k: Retrier, n: Engine :: Shadows(m, k, n)
  }

  lemma SubmittedFree(n: Engine)
    requires Free(Roll(n), n.g.limit, n.g.stored)
    ensures FreeIds(n)
  {
    FreeBefore(Submitted(n.g.payments), Roll(n), n.g.limit, n.g.stored);
  }

  // ----- A name nobody has -----

  ghost function Longest(roll: seq<Submission>, stored: seq<D.Entry>): nat {
    if roll != [] then Max(|roll[|roll| - 1].id|, Longest(roll[..|roll| - 1], stored))
    else if stored != [] then Max(|stored[|stored| - 1].id|, Longest([], stored[..|stored| - 1]))
    else 0
  }

  lemma {:induction false} NothingLonger(roll: seq<Submission>, stored: seq<D.Entry>)
    ensures forall i :: 0 <= i < |roll| ==> |roll[i].id| <= Longest(roll, stored)
    ensures forall i :: 0 <= i < |stored| ==> |stored[i].id| <= Longest(roll, stored)
    decreases |roll|, |stored|
  {
    if roll != [] {
      NothingLonger(roll[..|roll| - 1], stored);
    } else if stored != [] {
      NothingLonger([], stored[..|stored| - 1]);
    }
  }

  ghost function Renamed(s: Submission, n: Engine): Submission {
    s.(id := seq(Longest(Roll(n), n.g.stored) + 1, _ => 'x'), permanent := None)
  }

  ghost predicate New(s: Submission, roll: seq<Submission>, stored: seq<D.Entry>) {
    && (forall i :: 0 <= i < |roll| ==> roll[i].id != s.id)
    && !Stored(s.id, stored)
  }

  lemma RenamedIsNew(s: Submission, n: Engine)
    ensures New(Renamed(s, n), Roll(n), n.g.stored)
  {
    NothingLonger(Roll(n), n.g.stored);
    forall i | 0 <= i < |n.g.stored| ensures EntryIds(n.g.stored)[i] != Renamed(s, n).id {
    }
  }

  /** A new name somewhere in the roll takes nobody's place. */
  lemma FreeWith(before: seq<Submission>, s: Submission, after: seq<Submission>, limit: nat, stored: seq<D.Entry>)
    requires Free(before + after, limit, stored) && New(s, before + after, stored)
    ensures Free(before + [s] + after, limit, stored)
  {
    var old', roll := before + after, before + [s] + after;
    forall i | 0 <= i < |roll|
      ensures i == |before| || roll[i] == old'[if i < |before| then i else i - 1]
    {
    }
  }

  // ----- Operations -----

  lemma SubmitShadows(m: Retrier, k: Retrier, n: Engine, s: Submission)
    requires Shadows(m, k, n)
    ensures var op, op' := CallNow(Submit(s)), CallNow(Submit(Renamed(s, n)));
            Shadows(Do(m, R.CLIENT, op), Do(k, R.CLIENT, op'), Do(n, D.CLIENT, op'))
  {
    var t := Renamed(s, n);
    DoAlike(m, k, CallNow(Submit(s)), CallNow(Submit(t)));
    DoKeeps(n, CallNow(Submit(t)));
    SubmitInStep(k, n, t);
    SubmitRoll(n, t);
    RenamedIsNew(s, n);
    FreeWith(Submitted(n.g.payments), t, Coming(n.q.agenda), n.g.limit, n.g.stored);
  }

  lemma ScheduledFree(n: Engine, t: int, s: Submission)
    requires Inv(n) && Free(Roll(n), n.g.limit, n.g.stored) && New(s, Roll(n), n.g.stored)
    requires ScheduleAt(n.q.agenda, t, Call(Submit(s))).Some?
    ensures var a := ScheduleAt(n.q.agenda, t, Call(Submit(s))).value; Free(Roll(At(n, a)), n.g.limit, n.g.stored)
  {
    var x, y := ComingScheduled(n.q.agenda, t, s);
    var before := Submitted(n.g.payments) + x;
    assert Roll(n) == before + y;
    FreeWith(before, s, y, n.g.limit, n.g.stored);
    assert Submitted(n.g.payments) + (x + [s] + y) == before + [s] + y;
  }

  lemma ComingScheduled(a: Agenda<Action<Callback>>, t: int, s: Submission) returns (x: seq<Submission>, y: seq<Submission>)
    requires ScheduleAt(a, t, Call(Submit(s))).Some?
    ensures Coming(a) == x + y && Coming(ScheduleAt(a, t, Call(Submit(s))).value) == x + [s] + y
  {
    var call: Action<Callback> := Call(Submit(s));
    x, y := CollectSplit(a.queue, Event(t, a.nextOrder, call), SubmissionOf);
  }

  lemma ScheduleShadows(m: Retrier, k: Retrier, n: Engine, t: int, s: Submission)
    requires Shadows(m, k, n)
    ensures var op, op' := ScheduleCall(t, Submit(s)), ScheduleCall(t, Submit(Renamed(s, n)));
            Shadows(Do(m, R.CLIENT, op), Do(k, R.CLIENT, op'), Do(n, D.CLIENT, op'))
  {
    var s' := Renamed(s, n);
    DoAlike(m, k, ScheduleCall(t, Submit(s)), ScheduleCall(t, Submit(s')));
    DoKeeps(n, ScheduleCall(t, Submit(s')));
    if ScheduleAt(n.q.agenda, t, Call(Submit(s'))).Some? {
      RenamedIsNew(s, n);
      ScheduledFree(n, t, s');
      ScheduleInStep(k, n, t, s');
    }
  }

  lemma AdvanceShadows(m: Retrier, k: Retrier, n: Engine, t: int)
    requires Shadows(m, k, n)
    ensures var op := AdvanceClock(t); Shadows(Do(m, R.CLIENT, op), Do(k, R.CLIENT, op), Do(n, D.CLIENT, op))
  {
    DoAlike(m, k, AdvanceClock(t), AdvanceClock(t));
    DoKeeps(n, AdvanceClock(t));
    AtInStep(k, n, Advance(n.q.agenda, t));
  }

  lemma StepShadows(m: Retrier, k: Retrier, n: Engine)
    requires Shadows(m, k, n)
    ensures Shadows(Step(m, R.CLIENT), Step(k, R.CLIENT), Step(n, D.CLIENT))
  {
    StepAlike(m, k);
    StepKeeps(n);
    SubmittedFree(n);
    StepInStep(k, n);
    if n.q.agenda.queue != [] {
      TakeNextValid(n.q.agenda);
    }
    StepRoll(n);
  }

  /** Every submission, now or later, and every event keeps the engine sound. */
  lemma DoSound(m: Retrier, op: Op<Callback>)
    requires Sound(m) && Submits(op)
    ensures Sound(Do(m, R.CLIENT, op))
  {
    var k: Retrier, n: Engine :| Shadows(m, k, n);
    match op
    case CallNow(x) => SubmitShadows(m, k, n, x.submission);
    case ScheduleCall(t, x) => ScheduleShadows(m, k, n, t, x.submission);
    case AdvanceClock(t) => AdvanceShadows(m, k, n, t);
    case RunNext => StepShadows(m, k, n);
  }

  lemma BeginSound(capacity: nat, limit: nat, delay: nat, now: nat)
    requires capacity > 0
    ensures Sound(BeginRetries(capacity, limit, delay, now))
  {
    var m := BeginRetries(capacity, limit, delay, now);
    BeginInv(capacity, limit, delay, now, []);
    BeginShadows(m, Begin(capacity, limit, delay, now, []));
  }

  /** Two engines that have seen nothing. */
  lemma BeginShadows(m: Retrier, n: Engine)
    requires Inv(n) && n.g.payments == [] && n.q.agenda.queue == [] && WellFormed(m.q) && InStep(m, n)
    ensures Shadows(m, m, n)
  {
    assert Submitted(n.g.payments) == [] && Coming(n.q.agenda) == [];
    assert Alike(m, m);
  }

  lemma {:induction false} ExecSound(capacity: nat, limit: nat, delay: nat, now: nat, ops: seq<Op<Callback>>)
    requires capacity > 0 && OnlySubmissions(ops)
    ensures Sound(Exec(BeginRetries(capacity, limit, delay, now), R.CLIENT, ops))
    decreases |ops|
  {
    if ops == [] {
      BeginSound(capacity, limit, delay, now);
    } else {
      ExecSound(capacity, limit, delay, now, ops[..|ops| - 1]);
      DoSound(Exec(BeginRetries(capacity, limit, delay, now), R.CLIENT, ops[..|ops| - 1]), ops[|ops| - 1]);
    }
  }

  // ----- The work left -----

  function Attempts(script: seq<string>, limit: nat): nat {
    Min(|script|, limit) + 1
  }

  ghost function LeftToDo(payments: seq<R.Payment>, limit: nat): int {
    if payments == [] then 0
    else
      var x := payments[|payments| - 1];
      LeftToDo(payments[..|payments| - 1], limit) + Attempts(x.script, limit) - x.attempts
  }

  ghost function ToCome(q: Events, limit: nat): nat {
    if q == [] then 0
    else
      (if q[0].action.Call? && q[0].action.callback.Submit? then Attempts(q[0].action.callback.submission.failures, limit) else 0)
      + ToCome(q[1..], limit)
  }

  ghost function RetryLoad(m: Retrier): int {
    2 * LeftToDo(m.g.payments, m.g.limit) + 2 * ToCome(m.q.agenda.queue, m.g.limit) - |m.q.waiting|
  }

  lemma {:induction false} SameLeft(xs: seq<R.Payment>, ys: seq<R.Payment>, zs: seq<D.Payment>, limit: nat)
    requires |xs| == |ys| == |zs|
    requires forall p :: 0 <= p < |xs| ==> AlikePayment(xs[p], ys[p]) && PaymentsMatch(ys[p], zs[p])
    ensures LeftToDo(xs, limit) == Remaining(zs, limit)
    decreases |xs|
  {
    if xs != [] {
      var p := |xs| - 1;
      SameLeft(xs[..p], ys[..p], zs[..p], limit);
      assert AlikePayment(xs[p], ys[p]) && PaymentsMatch(ys[p], zs[p]);
    }
  }

  lemma {:induction false} SameToCome(q: Events, r: Events, limit: nat)
    requires AlikeEvents(q, r) && Plain(Collect(r, SubmissionOf))
    ensures ToCome(q, limit) == FinalSum(Collect(r, SubmissionOf), limit)
    decreases |q|
  {
    if q != [] {
      assert AlikeEvent(q[0], r[0]) && AlikeEvents(q[1..], r[1..]);
      var rest := Collect(r[1..], SubmissionOf);
      assert Collect(r, SubmissionOf) == SubmissionOf(r[0]) + rest;
      PlainTail(SubmissionOf(r[0]), rest);
      SameToCome(q[1..], r[1..], limit);
      if SubmissionOf(r[0]) == [] {
        assert [] + rest == rest;
      } else {
        FinalSumHead(r[0].action.callback.submission, rest, limit);
      }
    }
  }

  lemma PlainTail(x: seq<Submission>, y: seq<Submission>)
    requires Plain(x + y)
    ensures Plain(x) && Plain(y)
  {
    assert forall i :: 0 <= i < |x| ==> x[i] == (x + y)[i];
    assert forall i :: 0 <= i < |y| ==> y[i] == (x + y)[|x| + i];
  }

  lemma SameLoad(m: Retrier, k: Retrier, n: Engine)
    requires Shadows(m, k, n)
    ensures RetryLoad(m) == Load(n) >= 0
  {
    SameLeft(m.g.payments, k.g.payments, n.g.payments, m.g.limit);
    SameToCome(m.q.agenda.queue, n.q.agenda.queue, m.g.limit);
    LoadIsNat(n);
  }

  /** An event keeps the engine sound and leaves less to do. */
  lemma StepNearer(m: Retrier)
    requires Sound(m) && m.q.agenda.queue != []
    ensures Sound(Step(m, R.CLIENT)) && 0 <= RetryLoad(Step(m, R.CLIENT)) < RetryLoad(m)
  {
    var k: Retrier, n: Engine :| Shadows(m, k, n);
    StepShadows(m, k, n);
    SameLoad(m, k, n);
    SameLoad(Step(m, R.CLIENT), Step(k, R.CLIENT), Step(n, D.CLIENT));
    StepKeeps(n);
  }

  ghost function RetryLoadAsNat(m: Retrier): nat {
    if RetryLoad(m) >= 0 then RetryLoad(m) else 0
  }

  lemma StepCloser(m: Retrier)
    requires Sound(m) && m.q.agenda.queue != []
    ensures Sound(Step(m, R.CLIENT)) && RetryLoadAsNat(Step(m, R.CLIENT)) < RetryLoadAsNat(m)
  {
    StepNearer(m);
  }

  /** `run`: events until none is pending.  It ends whatever was submitted. */
  ghost function RunRetries(m: Retrier): (r: Retrier)
    requires Sound(m)
    ensures Sound(r) && r.q.agenda.queue == []
    decreases RetryLoadAsNat(m)
  {
    if m.q.agenda.queue == [] then m
    else
      StepCloser(m);
      RunRetries(Step(m, R.CLIENT))
  }

  lemma RunUnfolds(m: Retrier)
    requires Sound(m) && m.q.agenda.queue != [] && Sound(Step(m, R.CLIENT))
    ensures RunRetries(Step(m, R.CLIENT)) == RunRetries(m)
  {
  }

  lemma RunGoesOn(m: Retrier)
    requires Sound(m) && m.q.agenda.queue != []
    ensures var next := Step(m, R.CLIENT);
            Sound(next) && RunRetries(next) == RunRetries(m) && RetryLoadAsNat(next) < RetryLoadAsNat(m)
  {
    StepCloser(m);
    RunUnfolds(m);
  }

  // ----- What a run comes to -----

  /** The failure scripts of everything submitted or scheduled to be submitted, in the order of submission. */
  ghost function Scripts(m: Retrier): seq<seq<string>> {
    seq(|m.g.payments|, p requires 0 <= p < |m.g.payments| => m.g.payments[p].script) + Collect(m.q.agenda.queue, ScriptOf)
  }

  ghost function ScriptOf(e: Event<Action<Callback>>): seq<seq<string>> {
    if e.action.Call? && e.action.callback.Submit? then [e.action.callback.submission.failures] else []
  }

  ghost function Failures(roll: seq<Submission>): (r: seq<seq<string>>)
    ensures |r| == |roll| && forall i :: 0 <= i < |roll| ==> r[i] == roll[i].failures
  {
    seq(|roll|, i requires 0 <= i < |roll| => roll[i].failures)
  }

  lemma {:induction false} SameScripts(q: Events, r: Events)
    requires AlikeEvents(q, r)
    ensures Collect(q, ScriptOf) == Failures(Collect(r, SubmissionOf))
    decreases |q|
  {
    if q != [] {
      assert AlikeEvent(q[0], r[0]) && AlikeEvents(q[1..], r[1..]);
      SameScripts(q[1..], r[1..]);
      assert ScriptOf(q[0]) == Failures(SubmissionOf(r[0]));
    }
  }

  lemma ScriptsAreFailures(m: Retrier, k: Retrier, n: Engine)
    requires Shadows(m, k, n)
    ensures Scripts(m) == Failures(Roll(n))
  {
    SameScripts(m.q.agenda.queue, n.q.agenda.queue);
    forall p | 0 <= p < |m.g.payments| ensures m.g.payments[p].script == Submitted(n.g.payments)[p].failures {
      assert AlikePayment(m.g.payments[p], k.g.payments[p]) && PaymentsMatch(k.g.payments[p], n.g.payments[p]);
    }
  }

  lemma StepScripts(m: Retrier)
    requires Sound(m) && m.q.agenda.queue != []
    ensures Scripts(Step(m, R.CLIENT)) == Scripts(m) && Step(m, R.CLIENT).g.limit == m.g.limit
  {
    var k: Retrier, n: Engine :| Shadows(m, k, n);
    StepShadows(m, k, n);
    ScriptsAreFailures(m, k, n);
    ScriptsAreFailures(Step(m, R.CLIENT), Step(k, R.CLIENT), Step(n, D.CLIENT));
    TakeNextValid(n.q.agenda);
    StepRoll(n);
  }

  lemma {:induction false} RunScripts(m: Retrier)
    requires Sound(m)
    ensures Scripts(RunRetries(m)) == Scripts(m) && RunRetries(m).g.limit == m.g.limit
    decreases RetryLoadAsNat(m)
  {
    if m.q.agenda.queue != [] {
      RunGoesOn(m);
      StepScripts(m);
      RunScripts(Step(m, R.CLIENT));
    }
  }

  /** The payment's last word: all its attempts made, succeeded exactly within the limit, its work run once or never. */
  ghost predicate LastWord(x: R.Payment, script: seq<string>, limit: nat, ran: nat) {
    && x.script == script && x.attempts == Attempts(script, limit)
    && x.outcome == Some(if |script| <= limit then R.Succeeded else R.PermanentlyFailed)
    && ran == if |script| <= limit then 1 else 0
  }

  lemma IdleHasLastWord(m: Retrier, p: nat)
    requires Sound(m) && m.q.agenda.queue == [] && p < |m.g.payments|
    ensures LastWord(m.g.payments[p], m.g.payments[p].script, m.g.limit, multiset(m.g.effects)[p])
  {
    var k: Retrier, n: Engine :| Shadows(m, k, n);
    SubmittedFree(n);
    RetrySettled(k, n, p);
    assert AlikePayment(m.g.payments[p], k.g.payments[p]);
  }

  /**
   Every run of the retry engine ends with every submission, made or scheduled,
   settled in the order of submission: one attempt more than the failures or
   the limit, whichever is less; succeeded exactly if the failures were within
   the limit; its work run exactly once if so and never otherwise.
   */
  lemma EveryRetryRunSettles(m: Retrier)
    requires Sound(m)
    ensures var r := RunRetries(m);
            && r.q.agenda.queue == [] && |r.g.payments| == |Scripts(m)|
            && forall p :: 0 <= p < |Scripts(m)| ==>
                 LastWord(r.g.payments[p], Scripts(m)[p], m.g.limit, multiset(r.g.effects)[p])
  {
    var r := RunRetries(m);
    RunScripts(m);
    assert Collect(r.q.agenda.queue, ScriptOf) == [];
    forall p | 0 <= p < |Scripts(m)|
      ensures LastWord(r.g.payments[p], Scripts(m)[p], m.g.limit, multiset(r.g.effects)[p])
    {
      IdleHasLastWord(r, p);
      assert Scripts(r)[p] == r.g.payments[p].script;
    }
  }

  /** Hence, whatever operations led to a state in which nothing is pending, its payments are settled. */
  lemma RetriesSettle(capacity: nat, limit: nat, delay: nat, now: nat, ops: seq<Op<Callback>>, p: nat)
    requires capacity > 0 && OnlySubmissions(ops)
    requires var m := Exec(BeginRetries(capacity, limit, delay, now), R.CLIENT, ops);
             m.q.agenda.queue == [] && p < |m.g.payments|
    ensures var m := Exec(BeginRetries(capacity, limit, delay, now), R.CLIENT, ops);
            LastWord(m.g.payments[p], m.g.payments[p].script, m.g.limit, multiset(m.g.effects)[p])
  {
    ExecSound(capacity, limit, delay, now, ops);
    IdleHasLastWord(Exec(BeginRetries(capacity, limit, delay, now), R.CLIENT, ops), p);
  }
}
