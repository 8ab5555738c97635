/**
 What holds of a dead-letter engine that is the only user of its queue, at
 every event boundary and for any payment identifiers, repeated ones included.
 */
module DeadLetterInvariant {
  import opened Wrappers
  import opened Scheduling
  import opened PaymentQueues
  import opened Submissions
  import opened DeadLetters

  type Engine = Machine<State, Callback>

  // ----- The fate of one payment -----

  /** Permanently unprocessable, or failing more often than the retries allow. */
  predicate Doomed(s: Submission, limit: nat) {
    s.permanent.Some? || |s.failures| > limit
  }

  /** The attempt that settles the payment. */
  function Final(s: Submission, limit: nat): nat {
    if s.permanent.Some? then 1 else Min(|s.failures|, limit) + 1
  }

  /** `live` counts the payment's queued jobs and pending retries, `ran` the runs of its work. */
  ghost predicate Fated(x: Payment, limit: nat, deadIds: set<string>, live: nat, ran: nat) {
    var final := Final(x.submission, limit);
    && x.attempts <= final
    && live == (if x.attempts < final then 1 else 0)
    && x.retryCount == Min(x.attempts, final - 1)
    && ran == (if x.completed then 1 else 0)
    && (x.completed <==> x.attempts == final && !Doomed(x.submission, limit))
    && (x.isolated ==> x.attempts == final && Doomed(x.submission, limit))
    && (x.attempts == final && Doomed(x.submission, limit) ==> x.submission.id in deadIds)
  }

  /** Work that is due leaves the payment either settled or with exactly one retry requested. */
  lemma WorkFates(g: State, p: nat, now: nat, ran: nat)
    requires p < |g.payments| && Fated(g.payments[p], g.limit, g.deadIds, 1, ran)
    ensures var reply := Work(g, p, now);
            var g' := reply.state;
            && |g'.payments| == |g.payments| && g'.limit == g.limit && g'.delay == g.delay
            && (forall i :: 0 <= i < |g.payments| && i != p ==> g'.payments[i] == g.payments[i])
            && g.deadIds <= g'.deadIds
            && g'.payments[p].submission == g.payments[p].submission
            && g'.payments[p].attempts == g.payments[p].attempts + 1
            && g'.effects == g.effects + (if g'.payments[p].completed then [p] else [])
            && Fated(g'.payments[p], g'.limit, g'.deadIds, |reply.requests|, ran + |g'.effects| - |g.effects|)
            && (reply.requests == [] || reply.requests == [Later(g.delay, Retry(p, g'.payments[p].attempts))])
            && g'.pending == g.pending + |reply.requests|
  {
  }

  // ----- Who is queued or waiting for a retry -----

  ghost function RetryOf(e: Event<Action<Callback>>): seq<nat> {
    if e.action.Call? && e.action.callback.Retry? then [e.action.callback.payment] else []
  }

  ghost function Retrying(a: Agenda<Action<Callback>>): seq<nat> {
    Collect(a.queue, RetryOf)
  }

  ghost function Lined(q: Queue<Callback>): (r: seq<nat>)
    requires WellFormed(q)
    ensures |r| == |q.waiting|
  {
    seq(|q.waiting|, i requires 0 <= i < |q.waiting| => q.jobs[q.waiting[i]].payment)
  }

  ghost function Live(q: Queue<Callback>): multiset<nat>
    requires WellFormed(q)
  {
    multiset(Lined(q)) + multiset(Retrying(q.agenda))
  }

  ghost function Requested(requests: seq<Later<Callback>>): seq<nat> {
    if requests == [] then []
    else (if requests[0].callback.Retry? then [requests[0].callback.payment] else []) + Requested(requests[1..])
  }

  lemma AppendMultisets(x: seq<nat>, y: seq<nat>)
    ensures multiset(x + y) == multiset(x) + multiset(y)
  {
  }

  lemma ScheduleOneRetry(a: Agenda<Action<Callback>>, request: Later<Callback>)
    ensures var e := Event(a.now + request.delay, a.nextOrder, Call(request.callback));
            multiset(Retrying(ScheduleAfter(a, request.delay, Call(request.callback)))) ==
            multiset(Retrying(a)) + multiset(RetryOf(e))
  {
    CollectInsert(a.queue, Event(a.now + request.delay, a.nextOrder, Call(request.callback)), RetryOf);
  }

  lemma {:induction false} ScheduleAllRetries(a: Agenda<Action<Callback>>, requests: seq<Later<Callback>>)
    ensures multiset(Retrying(ScheduleAll(a, requests))) == multiset(Retrying(a)) + multiset(Requested(requests))
    decreases |requests|
  {
    if requests != [] {
      var e := Event(a.now + requests[0].delay, a.nextOrder, Call(requests[0].callback));
      ScheduleOneRetry(a, requests[0]);
      ScheduleAllRetries(ScheduleAfter(a, requests[0].delay, Call(requests[0].callback)), requests[1..]);
      AppendMultisets(RetryOf(e), Requested(requests[1..]));
    }
  }

  lemma WakeRetries(q: Queue<Callback>)
    ensures Retrying(Wake(q).agenda) == Retrying(q.agenda)
  {
    if !q.tickScheduled {
      CollectInsert(q.agenda.queue, Event(q.agenda.now + 1, q.agenda.nextOrder, Tick), RetryOf);
    }
  }

  lemma EnqueueLive(q: Queue<Callback>, p: nat)
    requires WellFormed(q)
    ensures Live(Enqueue(q, p)) == Live(q) + multiset{p}
    ensures Retrying(Enqueue(q, p).agenda) == Retrying(q.agenda)
  {
    WakeRetries(Join(q, p));
    assert Lined(Enqueue(q, p)) == Lined(q) + [p];
    AppendMultisets(Lined(q), [p]);
  }

  lemma HeadLined(q: Queue<Callback>)
    requires WellFormed(q) && q.waiting != []
    ensures multiset(Lined(q)) == multiset{q.jobs[q.waiting[0]].payment} + multiset(Lined(q)[1..])
  {
    assert Lined(q) == [q.jobs[q.waiting[0]].payment] + Lined(q)[1..];
  }

  lemma ServeLive(m: Engine, c: Client<State, Callback>)
    requires WellFormed(m.q) && m.q.waiting != []
    ensures var p := m.q.jobs[m.q.waiting[0]].payment;
            var requests := c.work(m.g, p, m.q.agenda.now).requests;
            && Live(Serve(m, c).q) + multiset{p} == Live(m.q) + multiset(Requested(requests))
            && multiset(Retrying(Serve(m, c).q.agenda)) == multiset(Retrying(m.q.agenda)) + multiset(Requested(requests))
  {
    var p := m.q.jobs[m.q.waiting[0]].payment;
    ScheduleAllRetries(m.q.agenda, c.work(m.g, p, m.q.agenda.now).requests);
    assert Lined(Serve(m, c).q) == Lined(m.q)[1..];
    HeadLined(m.q);
  }

  // ----- Progress -----

  ghost predicate Progress(g: State, live: multiset<nat>, retries: nat) {
    && (forall p :: 0 <= p < |g.payments| ==> Fated(g.payments[p], g.limit, g.deadIds, live[p], multiset(g.effects)[p]))
    && (forall p :: p >= |g.payments| ==> live[p] == 0 && multiset(g.effects)[p] == 0)
    && g.pending == retries
  }

  lemma WorkProgress(g: State, p: nat, now: nat, live: multiset<nat>, retries: nat, live': multiset<nat>, retries': nat)
    requires Progress(g, live, retries) && p in live
    requires var requests := Work(g, p, now).requests;
             && live' + multiset{p} == live + multiset(Requested(requests))
             && retries' == retries + |Requested(requests)|
    ensures p < |g.payments| && Fated(g.payments[p], g.limit, g.deadIds, 1, multiset(g.effects)[p])
    ensures Progress(Work(g, p, now).state, live', retries')
  {
    assert live[p] == 1;
    WorkFates(g, p, now, multiset(g.effects)[p]);
    var reply := Work(g, p, now);
    RequestedIs(reply.requests, p);
    WorkOthers(g, reply.state, p, live, live', |reply.requests|);
  }

  lemma RequestedIs(requests: seq<Later<Callback>>, p: nat)
    requires requests == [] || (|requests| == 1 && requests[0].callback.Retry? && requests[0].callback.payment == p)
    ensures Requested(requests) == if requests == [] then [] else [p]
  {
    if requests != [] {
      assert requests[1..] == [];
    }
  }

  /** One payment has been worked on; the others keep their fate. */
  lemma WorkOthers(g: State, g': State, p: nat, live: multiset<nat>, live': multiset<nat>, requested: nat)
    requires p < |g.payments| == |g'.payments| && g'.limit == g.limit && g.deadIds <= g'.deadIds
    requires forall i :: 0 <= i < |g.payments| ==> Fated(g.payments[i], g.limit, g.deadIds, live[i], multiset(g.effects)[i])
    requires forall i :: i >= |g.payments| ==> live[i] == 0 && multiset(g.effects)[i] == 0
    requires forall i :: 0 <= i < |g.payments| && i != p ==> g'.payments[i] == g.payments[i]
    requires g'.effects == g.effects || g'.effects == g.effects + [p]
    requires requested <= 1 && live[p] == 1
    requires live' + multiset{p} == live + multiset(if requested == 0 then [] else [p])
    requires Fated(g'.payments[p], g'.limit, g'.deadIds, requested, multiset(g.effects)[p] + |g'.effects| - |g.effects|)
    ensures forall i :: 0 <= i < |g'.payments| ==> Fated(g'.payments[i], g'.limit, g'.deadIds, live'[i], multiset(g'.effects)[i])
    ensures forall i :: i >= |g'.payments| ==> live'[i] == 0 && multiset(g'.effects)[i] == 0
  {
    forall i: nat
      ensures live'[i] == if i == p then requested else live[i]
      ensures multiset(g'.effects)[i] == multiset(g.effects)[i] + (if i == p then |g'.effects| - |g.effects| else 0)
    {
      assert (live' + multiset{p})[i] == live'[i] + multiset{p}[i];
    }
  }

  // ----- The dead-letter queue and the isolated payments -----

  ghost function OwnDeadId(x: Payment): multiset<string> {
    if x.isolated then multiset{x.submission.id} else multiset{}
  }

  ghost function IsolatedIds(payments: seq<Payment>): multiset<string> {
    if payments == [] then multiset{}
    else IsolatedIds(payments[..|payments| - 1]) + OwnDeadId(payments[|payments| - 1])
  }

  ghost function EntryIds(entries: seq<Entry>): seq<string> {
    seq(|entries|, i requires 0 <= i < |entries| => entries[i].id)
  }

  /** Behind the entries found at the start, one for each isolated payment; no identifier twice. */
  ghost predicate Registry(g: State) {
    && g.stored <= g.entries
    && multiset(EntryIds(g.entries)) == multiset(EntryIds(g.stored)) + IsolatedIds(g.payments)
    && OnceEach(EntryIds(g.entries), g.deadIds)
  }

  ghost predicate OnceEach(ids: seq<string>, known: set<string>) {
    forall id :: multiset(ids)[id] == if id in known then 1 else 0
  }

  lemma {:induction false} OnceEachId(entries: seq<Entry>)
    requires OncePerId(entries)
    ensures OnceEach(EntryIds(entries), IdsOf(entries))
    decreases |entries|
  {
    if entries != [] {
      var init, last := entries[..|entries| - 1], entries[|entries| - 1];
      OnceEachId(init);
      assert EntryIds(entries) == EntryIds(init) + [last.id];
      assert IdsOf(entries) == IdsOf(init) + {last.id};
      assert last.id !in IdsOf(init);
    }
  }

  lemma Shuffle(a: multiset<string>, b: multiset<string>, x: multiset<string>, y: multiset<string>, rest: multiset<string>)
    requires a + x == b + y
    ensures (a + rest) + x == (b + rest) + y
    ensures (rest + a) + x == (rest + b) + y
  {
    assert (a + rest) + x == (a + x) + rest && (rest + a) + x == (a + x) + rest;
    assert (b + rest) + y == (b + y) + rest && (rest + b) + y == (b + y) + rest;
  }

  lemma {:induction false} IsolatedUpdate(payments: seq<Payment>, p: nat, x: Payment)
    requires p < |payments|
    ensures IsolatedIds(payments[p := x]) + OwnDeadId(payments[p]) == IsolatedIds(payments) + OwnDeadId(x)
    decreases |payments|
  {
    var init, last := payments[..|payments| - 1], payments[|payments| - 1];
    if p < |init| {
      IsolatedUpdate(init, p, x);
      assert payments[p := x][..|init|] == init[p := x];
      Shuffle(IsolatedIds(init[p := x]), IsolatedIds(init), OwnDeadId(payments[p]), OwnDeadId(x), OwnDeadId(last));
    } else {
      assert payments[p := x][..|init|] == init;
      Shuffle(OwnDeadId(x), OwnDeadId(payments[p]), OwnDeadId(payments[p]), OwnDeadId(x), IsolatedIds(init));
    }
  }

  lemma IsolatedAppends(g: State, g': State, p: nat, x: Payment, id: string)
    requires p < |g.payments| && !g.payments[p].isolated && x.isolated && x.submission.id == id
    requires g'.payments == g.payments[p := x]
    ensures IsolatedIds(g'.payments) == IsolatedIds(g.payments) + multiset{id}
  {
    IsolatedUpdate(g.payments, p, x);
  }

  lemma EntryAppends(g: State, g': State, entry: Entry)
    requires g'.entries == g.entries + [entry]
    ensures multiset(EntryIds(g'.entries)) == multiset(EntryIds(g.entries)) + multiset{entry.id}
  {
    assert EntryIds(g'.entries) == EntryIds(g.entries) + [entry.id];
  }

  lemma IsolateRegistry(g: State, g': State, p: nat, x: Payment, entry: Entry)
    requires Registry(g) && p < |g.payments| && !g.payments[p].isolated
    requires x.isolated && x.submission.id == entry.id && entry.id !in g.deadIds
    requires g'.payments == g.payments[p := x] && g'.entries == g.entries + [entry] && g'.deadIds == g.deadIds + {entry.id}
    requires g'.stored == g.stored
    ensures Registry(g')
  {
    IsolatedAppends(g, g', p, x, entry.id);
    EntryAppends(g, g', entry);
  }

  lemma SameRegistry(g: State, g': State, p: nat, x: Payment)
    requires Registry(g) && p < |g.payments| && !g.payments[p].isolated && !x.isolated
    requires g'.payments == g.payments[p := x] && g'.entries == g.entries && g'.deadIds == g.deadIds
    requires g'.stored == g.stored
    ensures Registry(g')
  {
    IsolatedSame(g.payments, p, x);
  }

  lemma IsolatedSame(payments: seq<Payment>, p: nat, x: Payment)
    requires p < |payments| && !payments[p].isolated && !x.isolated
    ensures IsolatedIds(payments[p := x]) == IsolatedIds(payments)
  {
    IsolatedUpdate(payments, p, x);
    assert IsolatedIds(payments[p := x]) + multiset{} == IsolatedIds(payments[p := x]);
    assert IsolatedIds(payments) + multiset{} == IsolatedIds(payments);
  }

  lemma WorkRegistry(g: State, p: nat, now: nat)
    requires Registry(g) && p < |g.payments| && !g.payments[p].isolated
    ensures Registry(Work(g, p, now).state)
  {
    var g' := Work(g, p, now).state;
    var x := g'.payments[p];
    assert g'.payments == g.payments[p := x];
    if x.isolated {
      IsolateRegistry(g, g', p, x, g'.entries[|g.entries|]);
    } else {
      SameRegistry(g, g', p, x);
    }
  }

  // ----- The work left -----

  ghost function Remaining(payments: seq<Payment>, limit: nat): int {
    if payments == [] then 0
    else
      var x := payments[|payments| - 1];
      Remaining(payments[..|payments| - 1], limit) + Final(x.submission, limit) - x.attempts
  }

  lemma {:induction false} RemainingUpdate(payments: seq<Payment>, p: nat, x: Payment, limit: nat)
    requires p < |payments| && x.submission == payments[p].submission
    ensures Remaining(payments[p := x], limit) == Remaining(payments, limit) + payments[p].attempts - x.attempts
    decreases |payments|
  {
    var init := payments[..|payments| - 1];
    if p < |init| {
      RemainingUpdate(init, p, x, limit);
      assert payments[p := x][..|init|] == init[p := x];
    } else {
      assert payments[p := x][..|init|] == init;
    }
  }

  ghost function SubmissionOf(e: Event<Action<Callback>>): seq<Submission> {
    if e.action.Call? && e.action.callback.Submit? then [e.action.callback.submission] else []
  }

  /** Submissions still to come. */
  ghost function Coming(a: Agenda<Action<Callback>>): seq<Submission> {
    Collect(a.queue, SubmissionOf)
  }

  ghost function FinalSum(submissions: seq<Submission>, limit: nat): nat {
    if submissions == [] then 0 else Final(submissions[0], limit) + FinalSum(submissions[1..], limit)
  }

  ghost function Load(m: Engine): int {
    2 * Remaining(m.g.payments, m.g.limit) + 2 * FinalSum(Coming(m.q.agenda), m.g.limit) - |m.q.waiting|
  }

  ghost predicate OnlyRetries(requests: seq<Later<Callback>>) {
    forall i :: 0 <= i < |requests| ==> requests[i].callback.Retry?
  }

  lemma ScheduleRetryComing(a: Agenda<Action<Callback>>, delay: nat, x: Callback)
    requires x.Retry?
    ensures Coming(ScheduleAfter(a, delay, Call(x))) == Coming(a)
  {
    var time := a.now + delay;
    CollectInsert(a.queue, Event(time, a.nextOrder, Call(x)), SubmissionOf);
  }

  lemma {:induction false} ScheduleAllComing(a: Agenda<Action<Callback>>, requests: seq<Later<Callback>>)
    requires OnlyRetries(requests)
    ensures Coming(ScheduleAll(a, requests)) == Coming(a)
    decreases |requests|
  {
    if requests != [] {
      ScheduleRetryComing(a, requests[0].delay, requests[0].callback);
      ScheduleAllComing(ScheduleAfter(a, requests[0].delay, Call(requests[0].callback)), requests[1..]);
    }
  }

  lemma WakeComing(q: Queue<Callback>)
    ensures Coming(Wake(q).agenda) == Coming(q.agenda)
  {
    if !q.tickScheduled {
      CollectInsert(q.agenda.queue, Event(q.agenda.now + 1, q.agenda.nextOrder, Tick), SubmissionOf);
    }
  }

  // ----- The engine -----

  ghost predicate EngineInv(m: Engine) {
    && WellFormed(m.q)
    && Progress(m.g, Live(m.q), |Retrying(m.q.agenda)|)
    && Registry(m.g)
  }

  lemma CardinalityAfter(x: seq<nat>, y: seq<nat>, z: seq<nat>)
    requires multiset(x) == multiset(y) + multiset(z)
    ensures |x| == |y| + |z|
  {
    assert |multiset(x)| == |x| && |multiset(y)| == |y| && |multiset(z)| == |z|;
  }

  lemma HeadIsLive(q: Queue<Callback>)
    requires WellFormed(q) && q.waiting != []
    ensures q.jobs[q.waiting[0]].payment in Live(q)
  {
    assert Lined(q)[0] == q.jobs[q.waiting[0]].payment;
    assert Lined(q)[0] in multiset(Lined(q));
  }

  lemma ServeProgress(m: Engine)
    requires EngineInv(m) && m.q.waiting != []
    ensures EngineInv(Serve(m, CLIENT))
    ensures var p := m.q.jobs[m.q.waiting[0]].payment;
            p < |m.g.payments| && Fated(m.g.payments[p], m.g.limit, m.g.deadIds, 1, multiset(m.g.effects)[p])
  {
    var p, now := m.q.jobs[m.q.waiting[0]].payment, m.q.agenda.now;
    var m' := Serve(m, CLIENT);
    HeadIsLive(m.q);
    ServeLive(m, CLIENT);
    CardinalityAfter(Retrying(m'.q.agenda), Retrying(m.q.agenda), Requested(Work(m.g, p, now).requests));
    WorkProgress(m.g, p, now, Live(m.q), |Retrying(m.q.agenda)|, Live(m'.q), |Retrying(m'.q.agenda)|);
    WorkRegistry(m.g, p, now);
  }

  lemma ServeLoad(m: Engine)
    requires WellFormed(m.q) && m.q.waiting != []
    requires var p := m.q.jobs[m.q.waiting[0]].payment;
             p < |m.g.payments| && Fated(m.g.payments[p], m.g.limit, m.g.deadIds, 1, multiset(m.g.effects)[p])
    ensures Load(Serve(m, CLIENT)) == Load(m) - 1
    ensures Serve(m, CLIENT).g.limit == m.g.limit
  {
    var p, now := m.q.jobs[m.q.waiting[0]].payment, m.q.agenda.now;
    var reply := Work(m.g, p, now);
    WorkFates(m.g, p, now, multiset(m.g.effects)[p]);
    assert reply.state.payments == m.g.payments[p := reply.state.payments[p]];
    RemainingUpdate(m.g.payments, p, reply.state.payments[p], m.g.limit);
    ScheduleAllComing(m.q.agenda, reply.requests);
  }

  /** `n` attempts later the engine is sound and that much nearer to its end. */
  ghost predicate Nearer(m: Engine, r: Engine, n: int) {
    EngineInv(r) && Load(r) == Load(m) - n
  }

  lemma NearerStill(m: Engine, mid: Engine, r: Engine, n: int, k: int)
    requires Nearer(m, mid, n) && Nearer(mid, r, k)
    ensures Nearer(m, r, n + k)
  {
  }

  lemma ServeKeeps(m: Engine)
    requires EngineInv(m) && m.q.waiting != []
    ensures Nearer(m, Serve(m, CLIENT), 1) && |Serve(m, CLIENT).q.waiting| == |m.q.waiting| - 1
  {
    ServeProgress(m);
    ServeLoad(m);
  }

  lemma ServeManyUnfolds(m: Engine, n: nat)
    requires WellFormed(m.q) && 0 < n <= |m.q.waiting| && |Serve(m, CLIENT).q.waiting| == |m.q.waiting| - 1
    ensures ServeMany(m, CLIENT, n) == ServeMany(Serve(m, CLIENT), CLIENT, n - 1)
  {
  }

  lemma ServeThenMany(m: Engine, n: nat)
    requires EngineInv(m) && 0 < n <= |m.q.waiting|
    requires WellFormed(Serve(m, CLIENT).q) && n - 1 <= |Serve(m, CLIENT).q.waiting|
    requires Nearer(Serve(m, CLIENT), ServeMany(Serve(m, CLIENT), CLIENT, n - 1), n - 1)
    ensures Nearer(m, ServeMany(m, CLIENT, n), n)
  {
    ServeKeeps(m);
    ServeManyUnfolds(m, n);
    NearerStill(m, Serve(m, CLIENT), ServeMany(Serve(m, CLIENT), CLIENT, n - 1), 1, n - 1);
  }

  lemma ServeNone(m: Engine)
    requires EngineInv(m)
    ensures Nearer(m, ServeMany(m, CLIENT, 0), 0)
  {
  }

  lemma {:induction false} ServeManyKeeps(m: Engine, n: nat)
    requires EngineInv(m) && n <= |m.q.waiting|
    ensures Nearer(m, ServeMany(m, CLIENT, n), n)
    decreases n
  {
    if n == 0 {
      ServeNone(m);
    } else {
      ServeKeeps(m);
      ServeManyKeeps(Serve(m, CLIENT), n - 1);
      ServeThenMany(m, n);
    }
  }

  lemma TickKeeps(m: Engine)
    requires EngineInv(m) && m.q.capacity > 0 && m.q.waiting != []
    ensures EngineInv(ProcessTick(m, CLIENT)) && Load(ProcessTick(m, CLIENT)) < Load(m)
  {
    var m1 := m.(q := m.q.(tickScheduled := false));
    assert Lined(m1.q) == Lined(m.q);
    var n := Min(m.q.capacity, |m.q.waiting|);
    ServeManyKeeps(m1, n);
    var m2 := ServeMany(m1, CLIENT, n);
    WakeRetries(m2.q);
    WakeComing(m2.q);
    assert Lined(Wake(m2.q)) == Lined(m2.q);
  }
}
