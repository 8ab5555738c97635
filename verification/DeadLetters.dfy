/** The dead-letter engine as values: bounded retries, then permanent isolation. */
module DeadLetters {
  import opened PaymentQueues
  import opened Submissions

  datatype Entry = Entry(
    id: string,
    requestId: string,
    reason: Reason,
    retryCount: nat,
    isolatedAt: nat,
    state: WorkflowState,
    diagnostic: string)

  datatype Payment = Payment(
    submission: Submission,
    attempts: nat,
    retryCount: nat,
    completed: bool,
    isolated: bool)

  datatype Outcome = RetryScheduled | Succeeded | MovedToDlq

  datatype Result = Result(time: nat, id: string, outcome: Outcome, number: nat)

  /**
   `stored` is what the dead-letter queue held when the processor was created;
   `effects` lists the payments whose work callback has run.
   */
  datatype State = State(
    limit: nat,
    delay: nat,
    payments: seq<Payment>,
    results: seq<Result>,
    pending: int,
    stored: seq<Entry>,
    entries: seq<Entry>,
    deadIds: set<string>,
    effects: seq<nat>)

  function IdsOf(entries: seq<Entry>): set<string> {
    set i | 0 <= i < |entries| :: entries[i].id
  }

  lemma IdsOfAppend(entries: seq<Entry>, e: Entry)
    ensures IdsOf(entries + [e]) == IdsOf(entries) + {e.id}
  {
    assert (entries + [e])[|entries|] == e;
    assert forall i :: 0 <= i < |entries| ==> (entries + [e])[i] == entries[i];
  }

  /** What a dead-letter queue can hold: each payment identifier once. */
  predicate OncePerId(entries: seq<Entry>) {
    forall i, j :: 0 <= i < j < |entries| ==> entries[i].id != entries[j].id
  }

  /** A new processor in front of a dead-letter queue that holds `stored`. */
  function Create(limit: nat, delay: nat, stored: seq<Entry>): State {
    State(limit, delay, [], [], 0, stored, stored, IdsOf(stored), [])
  }

  /** A payment identifier is stored at most once; a second isolation changes nothing. */
  function Isolate(g: State, p: nat, reason: Reason, diagnostic: string, now: nat): State
    requires p < |g.payments|
  {
    var x := g.payments[p];
    if x.submission.id in g.deadIds then g
    else
      var entry := Entry(x.submission.id, x.submission.requestId, reason, x.retryCount, now, x.submission.state, diagnostic);
      g.(deadIds := g.deadIds + {x.submission.id},
         entries := g.entries + [entry],
         payments := g.payments[p := x.(isolated := true)],
         results := g.results + [Result(now, x.submission.id, MovedToDlq, x.attempts)])
  }

  function Work(g: State, p: nat, now: nat): Reply<State, Callback> {
    if p >= |g.payments| || g.payments[p].isolated || g.payments[p].completed then Reply(g, [])
    else
      var x := g.payments[p].(attempts := g.payments[p].attempts + 1);
      var g1 := g.(payments := g.payments[p := x]);
      var s := x.submission;
      if s.permanent.Some? then
        var text := if s.diagnostic.Some? && s.diagnostic.value != "" then s.diagnostic.value
                    else ReasonText(s.permanent.value);
        Reply(Isolate(g1, p, s.permanent.value, text, now), [])
      else if x.attempts <= |s.failures| then
        if x.retryCount >= g.limit then
          Reply(Isolate(g1, p, RetryLimitExceeded, s.failures[x.attempts - 1], now), [])
        else
          Reply(g1.(payments := g.payments[p := x.(retryCount := x.retryCount + 1)],
                    results := g.results + [Result(now, s.id, RetryScheduled, x.attempts)],
                    pending := g.pending + 1),
                [Later(g.delay, Retry(p, x.attempts))])
      else
        Reply(g1.(payments := g.payments[p := x.(completed := true)],
                  results := g.results + [Result(now, s.id, Succeeded, x.attempts)],
                  effects := g.effects + [p]),
              [])
  }

  function Call(g: State, x: Callback, now: nat): Admission<State> {
    match x
    case Submit(s) =>
      Admission(g.(payments := g.payments + [Payment(s, 0, 0, false, false)]), [|g.payments|])
    case Retry(p, _) =>
      if p >= |g.payments| then Admission(g, [])
      else
        Admission(g.(pending := g.pending - 1),
                  if g.payments[p].isolated || g.payments[p].completed then [] else [p])
  }

  const CLIENT: Client<State, Callback> := Client(Work, Call)
}
