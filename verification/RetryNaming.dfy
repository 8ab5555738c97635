/** The retry engine never looks at a payment identifier: runs that differ only in names go alike. */
module RetryNaming {
  import opened Wrappers
  import opened Scheduling
  import opened PaymentQueues
  import opened Submissions
  import opened Retries

  type Retrier = Machine<State, Callback>

  type Events = seq<Event<Action<Callback>>>

  // ----- Alike up to names -----

  ghost predicate AlikeCallback(x: Callback, y: Callback) {
    match (x, y)
    case (Submit(s), Submit(t)) => s.failures == t.failures
    case (Retry(_, _), Retry(_, _)) => x == y
    case _ => false
  }

  ghost predicate AlikeAction(a: Action<Callback>, b: Action<Callback>) {
    match (a, b)
    case (Tick, Tick) => true
    case (Call(x), Call(y)) => AlikeCallback(x, y)
    case _ => false
  }

  ghost predicate AlikeEvent(e: Event<Action<Callback>>, f: Event<Action<Callback>>) {
    e.time == f.time && e.order == f.order && AlikeAction(e.action, f.action)
  }

  ghost predicate AlikeEvents(q: Events, r: Events) {
    |q| == |r| && forall i :: 0 <= i < |q| ==> AlikeEvent(q[i], r[i])
  }

  ghost predicate AlikeAgenda(a: Agenda<Action<Callback>>, b: Agenda<Action<Callback>>) {
    a.now == b.now && a.nextOrder == b.nextOrder && a.history == b.history && AlikeEvents(a.queue, b.queue)
  }

  ghost predicate AlikeQueue(q: Queue<Callback>, r: Queue<Callback>) {
    AlikeAgenda(q.agenda, r.agenda) && r.(agenda := q.agenda) == q
  }

  ghost predicate AlikePayment(x: Payment, y: Payment) {
    x.(id := y.id) == y
  }

  ghost predicate AlikeAttempt(a: Attempt, b: Attempt) {
    a.(id := b.id) == b
  }

  ghost predicate AlikeState(g: State, h: State) {
    && g.limit == h.limit && g.delay == h.delay && g.pending == h.pending && g.effects == h.effects
    && |g.payments| == |h.payments| && |g.attempts| == |h.attempts|
    && (forall p :: 0 <= p < |g.payments| ==> AlikePayment(g.payments[p], h.payments[p]))
    && (forall i :: 0 <= i < |g.attempts| ==> AlikeAttempt(g.attempts[i], h.attempts[i]))
  }

  ghost predicate Alike(m: Retrier, n: Retrier) {
    AlikeQueue(m.q, n.q) && AlikeState(m.g, n.g)
  }

  // ----- The agenda -----

  lemma {:induction false} PositionAlike(q: Events, r: Events, e: Event<Action<Callback>>, f: Event<Action<Callback>>)
    requires AlikeEvents(q, r) && AlikeEvent(e, f)
    ensures Position(q, e) == Position(r, f)
    decreases |q|
  {
    if q != [] {
      assert AlikeEvent(q[0], r[0]);
      assert AlikeEvents(q[1..], r[1..]);
      PositionAlike(q[1..], r[1..], e, f);
    }
  }

  lemma InsertAlike(q: Events, r: Events, e: Event<Action<Callback>>, f: Event<Action<Callback>>)
    requires AlikeEvents(q, r) && AlikeEvent(e, f)
    ensures AlikeEvents(Insert(q, e), Insert(r, f))
  {
    PositionAlike(q, r, e, f);
  }

  lemma ScheduleAfterAlike(a: Agenda<Action<Callback>>, b: Agenda<Action<Callback>>, delay: nat,
                           x: Action<Callback>, y: Action<Callback>)
    requires AlikeAgenda(a, b) && AlikeAction(x, y)
    ensures AlikeAgenda(ScheduleAfter(a, delay, x), ScheduleAfter(b, delay, y))
  {
    var time := a.now + delay;
    ScheduleAtAlike(a, b, time, x, y);
    assert ScheduleAt(a, time, x) == Some(ScheduleAfter(a, delay, x));
    assert ScheduleAt(b, time, y) == Some(ScheduleAfter(b, delay, y));
  }

  lemma PushAlike(a: Agenda<Action<Callback>>, b: Agenda<Action<Callback>>,
                  e: Event<Action<Callback>>, f: Event<Action<Callback>>)
    requires AlikeAgenda(a, b) && AlikeEvent(e, f)
    ensures AlikeAgenda(a.(queue := Insert(a.queue, e), nextOrder := a.nextOrder + 1),
                        b.(queue := Insert(b.queue, f), nextOrder := b.nextOrder + 1))
  {
    InsertAlike(a.queue, b.queue, e, f);
  }

  lemma ScheduleAtAlike(a: Agenda<Action<Callback>>, b: Agenda<Action<Callback>>, time: int,
                        x: Action<Callback>, y: Action<Callback>)
    requires AlikeAgenda(a, b) && AlikeAction(x, y)
    ensures ScheduleAt(a, time, x).Some? <==> ScheduleAt(b, time, y).Some?
    ensures ScheduleAt(a, time, x).Some? ==> AlikeAgenda(ScheduleAt(a, time, x).value, ScheduleAt(b, time, y).value)
  {
    if ScheduleAt(a, time, x).Some? {
      PushAlike(a, b, Event(time, a.nextOrder, x), Event(time, b.nextOrder, y));
    }
  }

  lemma {:induction false} ScheduleAllAlike(a: Agenda<Action<Callback>>, b: Agenda<Action<Callback>>, requests: seq<Later<Callback>>)
    requires AlikeAgenda(a, b)
    ensures AlikeAgenda(ScheduleAll(a, requests), ScheduleAll(b, requests))
    decreases |requests|
  {
    if requests != [] {
      var call: Action<Callback> := Call(requests[0].callback);
      ScheduleAfterAlike(a, b, requests[0].delay, call, call);
      ScheduleAllAlike(ScheduleAfter(a, requests[0].delay, call), ScheduleAfter(b, requests[0].delay, call), requests[1..]);
    }
  }

  lemma TakeAlike(a: Agenda<Action<Callback>>, b: Agenda<Action<Callback>>)
    requires AlikeAgenda(a, b)
    ensures match TakeNext(a)
            case Empty => TakeNext(b).Empty?
            case Late(rest) => TakeNext(b).Late? && AlikeAgenda(rest, TakeNext(b).rest)
            case Due(e, rest) =>
              && TakeNext(b).Due? && AlikeAgenda(rest, TakeNext(b).rest)
              && AlikeEvent(e, TakeNext(b).event)
  {
    if a.queue != [] {
      assert AlikeEvent(a.queue[0], b.queue[0]);
      assert AlikeEvents(a.queue[1..], b.queue[1..]);
    }
  }

  // ----- One attempt -----

  lemma WorkAlike(g: State, h: State, p: nat, now: nat)
    requires AlikeState(g, h)
    ensures Work(g, p, now).requests == Work(h, p, now).requests
    ensures AlikeState(Work(g, p, now).state, Work(h, p, now).state)
  {
    if p < |g.payments| {
      assert AlikePayment(g.payments[p], h.payments[p]);
    }
  }

  lemma ServeAlike(m: Retrier, n: Retrier)
    requires WellFormed(m.q) && WellFormed(n.q) && m.q.waiting != [] && Alike(m, n)
    ensures Alike(Serve(m, CLIENT), Serve(n, CLIENT))
  {
    var p, now := m.q.jobs[m.q.waiting[0]].payment, m.q.agenda.now;
    WorkAlike(m.g, n.g, p, now);
    ScheduleAllAlike(m.q.agenda, n.q.agenda, Work(m.g, p, now).requests);
  }

  lemma {:induction false} ServeManyAlike(m: Retrier, n: Retrier, k: nat)
    requires WellFormed(m.q) && WellFormed(n.q) && k <= |m.q.waiting| && Alike(m, n)
    ensures Alike(ServeMany(m, CLIENT, k), ServeMany(n, CLIENT, k))
    decreases k
  {
    if k > 0 {
      ServeAlike(m, n);
      ServeManyAlike(Serve(m, CLIENT), Serve(n, CLIENT), k - 1);
    }
  }

  lemma WakeAlike(q: Queue<Callback>, r: Queue<Callback>)
    requires AlikeQueue(q, r)
    ensures AlikeQueue(Wake(q), Wake(r))
  {
    ScheduleAfterAlike(q.agenda, r.agenda, 1, Tick, Tick);
  }

  lemma TickAlike(m: Retrier, n: Retrier)
    requires WellFormed(m.q) && WellFormed(n.q) && Alike(m, n)
    ensures Alike(ProcessTick(m, CLIENT), ProcessTick(n, CLIENT))
  {
    var m1, n1 := m.(q := m.q.(tickScheduled := false)), n.(q := n.q.(tickScheduled := false));
    var k := Min(m.q.capacity, |m.q.waiting|);
    ServeManyAlike(m1, n1, k);
    WakeAlike(ServeMany(m1, CLIENT, k).q, ServeMany(n1, CLIENT, k).q);
  }

  // ----- Callbacks -----

  lemma {:induction false} EnqueueAllAlike(q: Queue<Callback>, r: Queue<Callback>, payments: seq<nat>)
    requires WellFormed(q) && WellFormed(r) && AlikeQueue(q, r)
    ensures AlikeQueue(EnqueueAll(q, payments), EnqueueAll(r, payments))
    decreases |payments|
  {
    if payments != [] {
      WakeAlike(Join(q, payments[0]), Join(r, payments[0]));
      EnqueueAllAlike(Enqueue(q, payments[0]), Enqueue(r, payments[0]), payments[1..]);
    }
  }

  lemma CallAlike(g: State, h: State, x: Callback, y: Callback, now: nat)
    requires AlikeState(g, h) && AlikeCallback(x, y)
    ensures Retries.Call(g, x, now).payments == Retries.Call(h, y, now).payments
    ensures AlikeState(Retries.Call(g, x, now).state, Retries.Call(h, y, now).state)
  {
  }

  lemma PerformAlike(m: Retrier, n: Retrier, x: Callback, y: Callback)
    requires WellFormed(m.q) && WellFormed(n.q) && Alike(m, n) && AlikeCallback(x, y)
    ensures Alike(Perform(m, CLIENT, x), Perform(n, CLIENT, y))
  {
    CallAlike(m.g, n.g, x, y, m.q.agenda.now);
    EnqueueAllAlike(m.q, n.q, Retries.Call(m.g, x, m.q.agenda.now).payments);
  }

  lemma RecordedAlike(m: Retrier, n: Retrier, e: Event<Action<Callback>>, f: Event<Action<Callback>>)
    requires WellFormed(m.q) && WellFormed(n.q) && Alike(m, n) && AlikeEvent(e, f)
    ensures Alike(Recorded(m, e), Recorded(n, f))
  {
  }

  lemma StepAlike(m: Retrier, n: Retrier)
    requires WellFormed(m.q) && WellFormed(n.q) && Alike(m, n)
    ensures Alike(Step(m, CLIENT), Step(n, CLIENT))
  {
    TakeAlike(m.q.agenda, n.q.agenda);
    match TakeNext(m.q.agenda)
    case Empty =>
    case Late(_) =>
    case Due(e, rest) =>
      var f, m1, n1 := TakeNext(n.q.agenda).event, At(m, rest), At(n, TakeNext(n.q.agenda).rest);
      if e.action.Tick? {
        TickAlike(m1, n1);
        RecordedAlike(ProcessTick(m1, CLIENT), ProcessTick(n1, CLIENT), e, f);
      } else {
        PerformAlike(m1, n1, e.action.callback, f.action.callback);
        RecordedAlike(Perform(m1, CLIENT, e.action.callback), Perform(n1, CLIENT, f.action.callback), e, f);
      }
  }

  ghost predicate AlikeOp(o: Op<Callback>, o': Op<Callback>) {
    match (o, o')
    case (CallNow(x), CallNow(y)) => AlikeCallback(x, y)
    case (ScheduleCall(t, x), ScheduleCall(u, y)) => t == u && AlikeCallback(x, y)
    case (AdvanceClock(t), AdvanceClock(u)) => t == u
    case (RunNext, RunNext) => true
    case _ => false
  }

  lemma AdvanceAlike(a: Agenda<Action<Callback>>, b: Agenda<Action<Callback>>, time: int)
    requires AlikeAgenda(a, b)
    ensures AlikeAgenda(Advance(a, time), Advance(b, time))
  {
    assert a.queue != [] ==> AlikeEvent(a.queue[0], b.queue[0]);
  }

  /** Names change nothing: alike operations on alike engines leave alike engines. */
  lemma DoAlike(m: Retrier, n: Retrier, o: Op<Callback>, o': Op<Callback>)
    requires WellFormed(m.q) && WellFormed(n.q) && Alike(m, n) && AlikeOp(o, o')
    ensures Alike(Do(m, CLIENT, o), Do(n, CLIENT, o'))
  {
    match o
    case CallNow(x) => PerformAlike(m, n, x, o'.callback);
    case ScheduleCall(t, x) => ScheduleAtAlike(m.q.agenda, n.q.agenda, t, Call(x), Call(o'.callback));
    case AdvanceClock(t) => AdvanceAlike(m.q.agenda, n.q.agenda, t);
    case RunNext => StepAlike(m, n);
  }
}
