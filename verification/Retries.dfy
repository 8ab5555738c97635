/** The retry engine as values: what one attempt and one scheduled callback do to its state. */
module Retries {
  import opened Wrappers
  import opened PaymentQueues
  import opened Submissions

  datatype Outcome = Succeeded | PermanentlyFailed

  datatype Payment = Payment(id: string, script: seq<string>, attempts: nat, outcome: Option<Outcome>)

  datatype Attempt = Attempt(
    id: string,
    number: nat,
    at: nat,
    succeeded: bool,
    reason: Option<string>,
    retryAt: Option<nat>,
    remaining: int)

  datatype Verb = Queued | FailedOnce | RetryDue | FailedForGood | Success

  datatype RetryEvent = RetryEvent(time: nat, verb: Verb, id: string, number: Option<nat>)

  /** `effects` lists the payments whose work callback has run. */
  datatype State = State(
    limit: nat,
    delay: nat,
    payments: seq<Payment>,
    attempts: seq<Attempt>,
    events: seq<RetryEvent>,
    pending: int,
    effects: seq<nat>)

  function Create(limit: nat, delay: nat): State {
    State(limit, delay, [], [], [], 0, [])
  }

  /** One attempt at payment `p`: the work callback handed to the queue. */
  function Work(g: State, p: nat, now: nat): Reply<State, Callback> {
    if p >= |g.payments| then Reply(g, [])
    else
      var x := g.payments[p];
      var number := x.attempts + 1;
      if number <= |x.script| then
        var reason := x.script[number - 1];
        var remaining := g.limit - (number - 1);
        if remaining > 0 then
          var retryAt := now + g.delay;
          Reply(g.(payments := g.payments[p := x.(attempts := number)],
                   attempts := g.attempts + [Attempt(x.id, number, now, false, Some(reason), Some(retryAt), remaining)],
                   events := g.events + [RetryEvent(now, FailedOnce, x.id, Some(number))],
                   pending := g.pending + 1),
                [Later(g.delay, Retry(p, number))])
        else
          Reply(g.(payments := g.payments[p := x.(attempts := number, outcome := Some(PermanentlyFailed))],
                   attempts := g.attempts + [Attempt(x.id, number, now, false, Some(reason), None, 0)],
                   events := g.events + [RetryEvent(now, FailedForGood, x.id, Some(number))]),
                [])
      else
        Reply(g.(payments := g.payments[p := x.(attempts := number, outcome := Some(Succeeded))],
                 attempts := g.attempts + [Attempt(x.id, number, now, true, None, None, g.limit - (number - 1))],
                 events := g.events + [RetryEvent(now, Success, x.id, Some(number))],
                 effects := g.effects + [p]),
              [])
  }

  /** A submission or a retry falling due; both put the payment on the queue. */
  function Call(g: State, x: Callback, now: nat): Admission<State> {
    match x
    case Submit(s) =>
      Admission(g.(payments := g.payments + [Payment(s.id, s.failures, 0, None)],
                   events := g.events + [RetryEvent(now, Queued, s.id, None)]),
                [|g.payments|])
    case Retry(p, number) =>
      if p >= |g.payments| then Admission(g, [])
      else
        Admission(g.(pending := g.pending - 1,
                     events := g.events + [RetryEvent(now, RetryDue, g.payments[p].id, Some(number + 1))]),
                  [p])
  }

  const CLIENT: Client<State, Callback> := Client(Work, Call)
}
