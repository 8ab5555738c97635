/**
 The exact latency of the payment queue: from the moment a job joins, its start
 time is fixed by its position, the capacity and the next tick, whatever the
 work callbacks schedule and whatever arrives later.
 */
module QueueLatency {
  import opened Wrappers
  import opened Scheduling
  import opened PaymentQueues

  ghost function TickOf<X>(e: Event<Action<X>>): seq<nat> {
    if e.action.Tick? then [e.time] else []
  }

  /** The times of the pending ticks. */
  ghost function Ticks<X>(a: Agenda<Action<X>>): seq<nat> {
    Collect(a.queue, (e: Event<Action<X>>) => TickOf(e))
  }

  /** The first job still waiting. */
  ghost function First<X>(q: Queue<X>): int {
    |q.jobs| - |q.waiting|
  }

  /** Jobs wait in arrival order, and all earlier ones have been completed in arrival order. */
  ghost predicate Fifo<X>(q: Queue<X>) {
    && WellFormed(q)
    && |q.waiting| <= |q.jobs|
    && |q.completed| == First(q)
    && (forall i :: 0 <= i < |q.waiting| ==> q.waiting[i] == First(q) + i)
    && (forall i :: 0 <= i < |q.completed| ==> q.completed[i] == i)
    && (forall k :: 0 <= k < |q.jobs| ==> (q.jobs[k].startedAt.Some? <==> k < First(q)))
  }

  ghost predicate Clocked<X>(q: Queue<X>) {
    Valid(q.agenda) && OnTime(q.agenda)
  }

  /** One tick is pending, now or in a minute, exactly when somebody waits. */
  ghost predicate Ticking<X>(q: Queue<X>) {
    && q.capacity > 0
    && (q.tickScheduled <==> q.waiting != [])
    && (!q.tickScheduled ==> Ticks(q.agenda) == [])
    && (q.tickScheduled ==> |Ticks(q.agenda)| == 1 && q.agenda.now <= Ticks(q.agenda)[0] <= q.agenda.now + 1)
  }

  ghost predicate Inv<X>(q: Queue<X>) {
    Fifo(q) && Clocked(q) && Ticking(q)
  }

  // ----- Scheduling does not disturb the ticks -----

  lemma CallAddsNoTick<X>(a: Agenda<Action<X>>, delay: nat, x: X)
    ensures Ticks(ScheduleAfter(a, delay, Call(x))) == Ticks(a)
  {
    var time, call: Action<X> := a.now + delay, Call(x);
    CollectInsert(a.queue, Event(time, a.nextOrder, call), (e: Event<Action<X>>) => TickOf(e));
  }

  lemma {:induction false} ScheduleAllTicks<X>(a: Agenda<Action<X>>, requests: seq<Later<X>>)
    requires Valid(a) && OnTime(a)
    ensures var r := ScheduleAll(a, requests); Valid(r) && OnTime(r) && r.now == a.now && Ticks(r) == Ticks(a)
    decreases |requests|
  {
    if requests != [] {
      var call: Action<X> := Call(requests[0].callback);
      ScheduleAfterValid(a, requests[0].delay, call);
      CallAddsNoTick(a, requests[0].delay, requests[0].callback);
      ScheduleAllTicks(ScheduleAfter(a, requests[0].delay, call), requests[1..]);
    }
  }

  lemma SingletonMultiset(s: seq<nat>, x: nat)
    requires multiset(s) == multiset{x}
    ensures s == [x]
  {
    assert |multiset(s)| == 1;
    assert s[0] in multiset(s);
  }

  lemma WakeTicks<X>(q: Queue<X>)
    requires Clocked(q) && !q.tickScheduled && Ticks(q.agenda) == []
    ensures Clocked(Wake(q)) && Ticks(Wake(q).agenda) == [q.agenda.now + 1]
  {
    ScheduleAfterValid(q.agenda, 1, Tick);
    var e: Event<Action<X>> := Event(q.agenda.now + 1, q.agenda.nextOrder, Tick);
    CollectInsert(q.agenda.queue, e, (e: Event<Action<X>>) => TickOf(e));
    assert multiset(Ticks(Wake(q).agenda)) == multiset{q.agenda.now + 1};
    SingletonMultiset(Ticks(Wake(q).agenda), q.agenda.now + 1);
  }

  // ----- Joining -----

  lemma JoinFifo<X>(q: Queue<X>, payment: nat)
    requires Fifo(q)
    ensures Fifo(Join(q, payment)) && First(Join(q, payment)) == First(q)
  {
  }

  lemma EnqueueInv<X>(q: Queue<X>, payment: nat)
    requires Inv(q)
    ensures Inv(Enqueue(q, payment))
    ensures var r := Enqueue(q, payment);
            && First(r) == First(q) && r.jobs[..|q.jobs|] == q.jobs && r.capacity == q.capacity
            && r.agenda.now == q.agenda.now
            && (q.waiting != [] ==> Ticks(r.agenda) == Ticks(q.agenda))
            && (q.waiting == [] ==> Ticks(r.agenda) == [q.agenda.now + 1])
  {
    JoinFifo(q, payment);
    if !q.tickScheduled {
      WakeTicks(Join(q, payment));
    }
  }

  lemma {:induction false} EnqueueAllInv<X>(q: Queue<X>, payments: seq<nat>)
    requires Inv(q)
    ensures Inv(EnqueueAll(q, payments))
    decreases |payments|
  {
    if payments != [] {
      EnqueueInv(q, payments[0]);
      EnqueueAllInv(Enqueue(q, payments[0]), payments[1..]);
    }
  }

  // ----- Ticks -----

  /** `n` jobs have been served at the current instant; the rest of the line has only moved up. */
  ghost predicate Served<X>(q: Queue<X>, r: Queue<X>, n: nat) {
    && |r.jobs| == |q.jobs| && r.capacity == q.capacity && r.tickScheduled == q.tickScheduled
    && r.agenda.now == q.agenda.now
    && First(r) == First(q) + n
    && Ticks(r.agenda) == Ticks(q.agenda)
    && (forall k :: 0 <= k < |q.jobs| ==>
          r.jobs[k] == if First(q) <= k < First(q) + n
                       then q.jobs[k].(startedAt := Some(q.agenda.now), completedAt := Some(q.agenda.now))
                       else q.jobs[k])
  }

  lemma ServeOne<G, X>(m: Machine<G, X>, c: Client<G, X>)
    requires Fifo(m.q) && Clocked(m.q) && m.q.waiting != []
    ensures var r := Serve(m, c); Fifo(r.q) && Clocked(r.q) && Served(m.q, r.q, 1)
  {
    var k := m.q.waiting[0];
    ScheduleAllTicks(m.q.agenda, c.work(m.g, m.q.jobs[k].payment, m.q.agenda.now).requests);
  }

  lemma {:induction false} ServeManyFifo<G, X>(m: Machine<G, X>, c: Client<G, X>, n: nat)
    requires Fifo(m.q) && Clocked(m.q) && n <= |m.q.waiting|
    ensures var r := ServeMany(m, c, n); Fifo(r.q) && Clocked(r.q) && Served(m.q, r.q, n)
    decreases n
  {
    if n > 0 {
      ServeOne(m, c);
      var m1 := Serve(m, c);
      ServeManyFifo(m1, c, n - 1);
    }
  }

  /** The tick that is due serves the front of the line and leaves a tick behind iff somebody still waits. */
  lemma TickInv<G, X>(m: Machine<G, X>, c: Client<G, X>)
    requires Fifo(m.q) && Clocked(m.q) && m.q.capacity > 0 && Ticks(m.q.agenda) == []
    ensures Inv(ProcessTick(m, c).q)
  {
    var m1 := m.(q := m.q.(tickScheduled := false));
    var n := Min(m.q.capacity, |m.q.waiting|);
    ServeManyFifo(m1, c, n);
    var r := ServeMany(m1, c, n);
    if r.q.waiting != [] {
      WakeTicks(r.q);
    }
  }

  lemma TickServes<G, X>(m: Machine<G, X>, c: Client<G, X>)
    requires Fifo(m.q) && Clocked(m.q) && m.q.capacity > 0 && Ticks(m.q.agenda) == []
    ensures TickEffect(m.q, ProcessTick(m, c).q)
  {
    var m1 := m.(q := m.q.(tickScheduled := false));
    var n := Min(m.q.capacity, |m.q.waiting|);
    ServeManyFifo(m1, c, n);
    ServedIsEffect(m.q, ServeMany(m1, c, n).q);
  }

  lemma ServedIsEffect<X>(q: Queue<X>, r: Queue<X>)
    requires Served(q.(tickScheduled := false), r, Min(q.capacity, |q.waiting|)) && Clocked(r) && Ticks(q.agenda) == []
    ensures TickEffect(q, if r.waiting == [] then r else Wake(r))
  {
    if r.waiting != [] {
      WakeTicks(r);
    }
  }

  /** What a tick at the current instant does to the line. */
  ghost predicate TickEffect<X>(q: Queue<X>, r: Queue<X>) {
    var n := Min(q.capacity, |q.waiting|);
    && |r.jobs| == |q.jobs| && r.capacity == q.capacity
    && First(r) == First(q) + n
    && (r.waiting != [] ==> Ticks(r.agenda) == [q.agenda.now + 1])
    && (forall k :: 0 <= k < |q.jobs| ==>
          r.jobs[k] == if First(q) <= k < First(q) + n
                       then q.jobs[k].(startedAt := Some(q.agenda.now), completedAt := Some(q.agenda.now))
                       else q.jobs[k])
  }

  // ----- Every operation -----

  lemma {:induction false} TickIsPending<X>(q: seq<Event<Action<X>>>, t: nat)
    requires t in Collect(q, (e: Event<Action<X>>) => TickOf(e))
    ensures exists e :: e in q && e.time == t
    decreases |q|
  {
    var f := (e: Event<Action<X>>) => TickOf(e);
    assert Collect(q, f) == f(q[0]) + Collect(q[1..], f);
    if t in f(q[0]) {
      assert q[0] in q;
    } else {
      TickIsPending(q[1..], t);
      var e :| e in q[1..] && e.time == t;
      assert e in q;
    }
  }

  lemma TakeTicks<X>(a: Agenda<Action<X>>)
    requires a.queue != []
    ensures Ticks(a) == TickOf(a.queue[0]) + Collect(a.queue[1..], (e: Event<Action<X>>) => TickOf(e))
  {
  }

  /** When a callback is due, the pending tick is neither behind it nor more than a minute ahead. */
  lemma CallTaken<X>(q: Queue<X>)
    requires Inv(q) && TakeNext(q.agenda).Due? && TakeNext(q.agenda).event.action.Call?
    ensures Inv(q.(agenda := TakeNext(q.agenda).rest))
    ensures Ticks(TakeNext(q.agenda).rest) == Ticks(q.agenda)
    ensures q.agenda.now <= TakeNext(q.agenda).rest.now
  {
    TakeNextValid(q.agenda);
    TakeTicks(q.agenda);
    if q.tickScheduled {
      TickIsPending(TakeNext(q.agenda).rest.queue, Ticks(q.agenda)[0]);
    }
  }

  lemma TickTaken<X>(q: Queue<X>)
    requires Inv(q) && TakeNext(q.agenda).Due? && TakeNext(q.agenda).event.action.Tick?
    ensures var rest := TakeNext(q.agenda).rest;
            && Fifo(q.(agenda := rest)) && Clocked(q.(agenda := rest)) && Ticks(rest) == []
            && q.waiting != [] && Ticks(q.agenda) == [rest.now] && q.agenda.now <= rest.now
  {
    TakeNextValid(q.agenda);
    TakeTicks(q.agenda);
  }

  lemma RecordedInv<G, X>(m: Machine<G, X>, e: Event<Action<X>>)
    requires Inv(m.q)
    ensures Inv(Recorded(m, e).q)
  {
  }

  lemma StepTickInv<G, X>(m: Machine<G, X>, c: Client<G, X>)
    requires Inv(m.q) && TakeNext(m.q.agenda).Due? && TakeNext(m.q.agenda).event.action.Tick?
    ensures Inv(Step(m, c).q)
  {
    var Due(e, rest) := TakeNext(m.q.agenda);
    TickTaken(m.q);
    TickInv(At(m, rest), c);
    RecordedInv(ProcessTick(At(m, rest), c), e);
  }

  lemma PerformInv<G, X>(m: Machine<G, X>, c: Client<G, X>, x: X)
    requires Inv(m.q)
    ensures Inv(Perform(m, c, x).q)
  {
    EnqueueAllInv(m.q, c.call(m.g, x, m.q.agenda.now).payments);
  }

  lemma CallStepIs<G, X>(m: Machine<G, X>, c: Client<G, X>)
    requires WellFormed(m.q) && TakeNext(m.q.agenda).Due? && TakeNext(m.q.agenda).event.action.Call?
    ensures var Due(e, rest) := TakeNext(m.q.agenda);
            Step(m, c) == Recorded(Perform(At(m, rest), c, e.action.callback), e)
  {
  }

  lemma StepCallInv<G, X>(m: Machine<G, X>, c: Client<G, X>)
    requires Inv(m.q) && TakeNext(m.q.agenda).Due? && TakeNext(m.q.agenda).event.action.Call?
    ensures Inv(Step(m, c).q)
  {
    var Due(e, rest) := TakeNext(m.q.agenda);
    CallTaken(m.q);
    CallStepIs(m, c);
    PerformInv(At(m, rest), c, e.action.callback);
    RecordedInv(Perform(At(m, rest), c, e.action.callback), e);
  }

  lemma StepInv<G, X>(m: Machine<G, X>, c: Client<G, X>)
    requires Inv(m.q)
    ensures Inv(Step(m, c).q)
  {
    if m.q.agenda.queue != [] {
      TakeNextValid(m.q.agenda);
      if m.q.agenda.queue[0].action.Tick? {
        StepTickInv(m, c);
      } else {
        StepCallInv(m, c);
      }
    }
  }

  lemma ScheduleInv<X>(q: Queue<X>, t: int, x: X)
    requires Inv(q) && ScheduleAt(q.agenda, t, Call(x)).Some?
    ensures var a := ScheduleAt(q.agenda, t, Call(x)).value; Inv(q.(agenda := a)) && Ticks(a) == Ticks(q.agenda)
  {
    var call: Action<X> := Call(x);
    ScheduleAtValid(q.agenda, t, call);
    CollectInsert(q.agenda.queue, Event(t, q.agenda.nextOrder, call), (e: Event<Action<X>>) => TickOf(e));
  }

  lemma AdvanceInv<X>(q: Queue<X>, time: int)
    requires Inv(q)
    ensures Inv(q.(agenda := Advance(q.agenda, time)))
  {
    AdvanceValid(q.agenda, time);
    if q.tickScheduled {
      TickIsPending(q.agenda.queue, Ticks(q.agenda)[0]);
    }
  }

  lemma DoInv<G, X>(m: Machine<G, X>, c: Client<G, X>, op: Op<X>)
    requires Inv(m.q)
    ensures Inv(Do(m, c, op).q)
  {
    match op
    case CallNow(x) => EnqueueAllInv(m.q, c.call(m.g, x, m.q.agenda.now).payments);
    case ScheduleCall(t, x) => if ScheduleAt(m.q.agenda, t, Call(x)).Some? { ScheduleInv(m.q, t, x); }
    case AdvanceClock(t) => AdvanceInv(m.q, t);
    case RunNext => StepInv(m, c);
  }

  /** A scheduler on which a queue can be created: it may have callbacks pending, but no tick. */
  ghost predicate Tickless<X>(a: Agenda<Action<X>>) {
    Valid(a) && OnTime(a) && Ticks(a) == []
  }

  /** In every reachable state jobs are served in arrival order and a tick is pending exactly when somebody waits. */
  lemma {:induction false} ExecInv<G, X>(capacity: nat, a: Agenda<Action<X>>, g: G, c: Client<G, X>, ops: seq<Op<X>>)
    requires capacity > 0 && Tickless(a)
    ensures Inv(Exec(Machine(Create(capacity, a), g), c, ops).q)
    decreases |ops|
  {
    if ops != [] {
      ExecInv(capacity, a, g, c, ops[..|ops| - 1]);
      DoInv(Exec(Machine(Create(capacity, a), g), c, ops[..|ops| - 1]), c, ops[|ops| - 1]);
    }
  }

  // ----- The start time is fixed on arrival -----

  /** Job `k` started, or will start, exactly at time `d`. */
  ghost predicate StartsAt<X>(q: Queue<X>, k: nat, d: int) {
    && k < |q.jobs| && q.capacity > 0
    && (k < First(q) ==> q.jobs[k].startedAt == Some(d) && q.jobs[k].completedAt == Some(d))
    && (First(q) <= k ==> |Ticks(q.agenda)| == 1 && d == Ticks(q.agenda)[0] + (k - First(q)) / q.capacity)
  }

  lemma EnqueueStartsAt<X>(q: Queue<X>, payment: nat, k: nat, d: int)
    requires Inv(q) && StartsAt(q, k, d)
    ensures StartsAt(Enqueue(q, payment), k, d)
    ensures Enqueue(q, payment).jobs[k] == q.jobs[k]
  {
    EnqueueInv(q, payment);
    assert q.jobs[k] == Enqueue(q, payment).jobs[..|q.jobs|][k];
  }

  /** What never changes about a job once it is in the table. */
  ghost predicate SameJob<X>(q: Queue<X>, r: Queue<X>, k: nat) {
    && k < |q.jobs| && k < |r.jobs|
    && r.jobs[k].queuedAt == q.jobs[k].queuedAt && r.jobs[k].position == q.jobs[k].position
    && r.jobs[k].payment == q.jobs[k].payment
  }

  lemma {:induction false} EnqueueAllStartsAt<X>(q: Queue<X>, payments: seq<nat>, k: nat, d: int)
    requires Inv(q) && StartsAt(q, k, d)
    ensures StartsAt(EnqueueAll(q, payments), k, d) && SameJob(q, EnqueueAll(q, payments), k)
    decreases |payments|
  {
    if payments != [] {
      EnqueueInv(q, payments[0]);
      EnqueueStartsAt(q, payments[0], k, d);
      EnqueueAllStartsAt(Enqueue(q, payments[0]), payments[1..], k, d);
    }
  }

  lemma MulAtLeast(c: int, d: int)
    requires c >= 0
    ensures d >= 1 ==> c * d >= c
    ensures d <= -1 ==> c * d <= -c
  {
    if d >= 1 {
      assert c * d == c + c * (d - 1);
    } else if d <= -1 {
      assert c * d == -c + c * (d + 1);
    }
  }

  lemma QuotientIsUnique(x: int, c: nat, q: int, r: int)
    requires 0 <= r < c && x == c * q + r
    ensures x / c == q
  {
    var p := x / c;
    assert x == c * p + x % c;
    assert c * (p - q) == c * p - c * q;
    MulAtLeast(c, p - q);
  }

  lemma DivShift(i: nat, c: nat)
    requires c > 0
    ensures i < c ==> i / c == 0
    ensures i >= c ==> i / c == (i - c) / c + 1
  {
    if i < c {
      QuotientIsUnique(i, c, 0, i);
    } else {
      var q := (i - c) / c;
      assert i - c == c * q + (i - c) % c;
      assert c * (q + 1) == c * q + c;
      QuotientIsUnique(i, c, q + 1, (i - c) % c);
    }
  }

  lemma TickStartsAt<X>(q: Queue<X>, r: Queue<X>, k: nat, d: int)
    requires k < |q.jobs| && q.capacity > 0 && TickEffect(q, r)
    requires k < First(q) ==> q.jobs[k].startedAt == Some(d) && q.jobs[k].completedAt == Some(d)
    requires First(q) <= k ==> d == q.agenda.now + (k - First(q)) / q.capacity
    ensures StartsAt(r, k, d) && SameJob(q, r, k)
  {
    if First(q) <= k {
      DivShift(k - First(q), q.capacity);
    }
  }

  lemma TickDue<X>(q: Queue<X>, k: nat, d: int)
    requires Inv(q) && StartsAt(q, k, d) && TakeNext(q.agenda).Due? && TakeNext(q.agenda).event.action.Tick?
    ensures var now := TakeNext(q.agenda).rest.now;
            && (k < First(q) ==> q.jobs[k].startedAt == Some(d) && q.jobs[k].completedAt == Some(d))
            && (First(q) <= k ==> d == now + (k - First(q)) / q.capacity)
  {
    TickTaken(q);
  }

  lemma RecordedStartsAt<G, X>(q: Queue<X>, m: Machine<G, X>, e: Event<Action<X>>, k: nat, d: int)
    requires WellFormed(m.q) && StartsAt(m.q, k, d) && SameJob(q, m.q, k)
    ensures StartsAt(Recorded(m, e).q, k, d) && SameJob(q, Recorded(m, e).q, k)
  {
  }

  lemma TickStepStartsAt<G, X>(m: Machine<G, X>, c: Client<G, X>, k: nat, d: int)
    requires Fifo(m.q) && Clocked(m.q) && m.q.capacity > 0 && Ticks(m.q.agenda) == [] && k < |m.q.jobs|
    requires k < First(m.q) ==> m.q.jobs[k].startedAt == Some(d) && m.q.jobs[k].completedAt == Some(d)
    requires First(m.q) <= k ==> d == m.q.agenda.now + (k - First(m.q)) / m.q.capacity
    ensures StartsAt(ProcessTick(m, c).q, k, d) && SameJob(m.q, ProcessTick(m, c).q, k)
  {
    TickServes(m, c);
    TickStartsAt(m.q, ProcessTick(m, c).q, k, d);
  }

  lemma StepTickStartsAt<G, X>(m: Machine<G, X>, c: Client<G, X>, k: nat, d: int)
    requires Inv(m.q) && StartsAt(m.q, k, d) && TakeNext(m.q.agenda).Due? && TakeNext(m.q.agenda).event.action.Tick?
    ensures StartsAt(Step(m, c).q, k, d) && SameJob(m.q, Step(m, c).q, k)
  {
    var Due(e, rest) := TakeNext(m.q.agenda);
    TickTaken(m.q);
    TickDue(m.q, k, d);
    TickStepStartsAt(At(m, rest), c, k, d);
    RecordedStartsAt(m.q, ProcessTick(At(m, rest), c), e, k, d);
  }

  lemma PerformStartsAt<G, X>(m: Machine<G, X>, c: Client<G, X>, x: X, k: nat, d: int)
    requires Inv(m.q) && StartsAt(m.q, k, d)
    ensures StartsAt(Perform(m, c, x).q, k, d) && SameJob(m.q, Perform(m, c, x).q, k)
  {
    EnqueueAllStartsAt(m.q, c.call(m.g, x, m.q.agenda.now).payments, k, d);
  }

  lemma StepCallStartsAt<G, X>(m: Machine<G, X>, c: Client<G, X>, k: nat, d: int)
    requires Inv(m.q) && StartsAt(m.q, k, d) && TakeNext(m.q.agenda).Due? && TakeNext(m.q.agenda).event.action.Call?
    ensures StartsAt(Step(m, c).q, k, d) && SameJob(m.q, Step(m, c).q, k)
  {
    var Due(e, rest) := TakeNext(m.q.agenda);
    CallTaken(m.q);
    CallStepIs(m, c);
    PerformStartsAt(At(m, rest), c, e.action.callback, k, d);
    RecordedStartsAt(m.q, Perform(At(m, rest), c, e.action.callback), e, k, d);
  }

  lemma StepStartsAt<G, X>(m: Machine<G, X>, c: Client<G, X>, k: nat, d: int)
    requires Inv(m.q) && StartsAt(m.q, k, d)
    ensures StartsAt(Step(m, c).q, k, d) && SameJob(m.q, Step(m, c).q, k)
  {
    if m.q.agenda.queue != [] {
      TakeNextValid(m.q.agenda);
      if m.q.agenda.queue[0].action.Tick? {
        StepTickStartsAt(m, c, k, d);
      } else {
        StepCallStartsAt(m, c, k, d);
      }
    }
  }

  lemma DoStartsAt<G, X>(m: Machine<G, X>, c: Client<G, X>, op: Op<X>, k: nat, d: int)
    requires Inv(m.q) && StartsAt(m.q, k, d)
    ensures StartsAt(Do(m, c, op).q, k, d) && SameJob(m.q, Do(m, c, op).q, k)
  {
    match op
    case CallNow(x) => EnqueueAllStartsAt(m.q, c.call(m.g, x, m.q.agenda.now).payments, k, d);
    case ScheduleCall(t, x) => ScheduleStartsAt(m, c, t, x, k, d);
    case AdvanceClock(_) =>
    case RunNext => StepStartsAt(m, c, k, d);
  }

  lemma ScheduleStartsAt<G, X>(m: Machine<G, X>, c: Client<G, X>, t: int, x: X, k: nat, d: int)
    requires Inv(m.q) && StartsAt(m.q, k, d)
    ensures StartsAt(Do(m, c, ScheduleCall(t, x)).q, k, d) && SameJob(m.q, Do(m, c, ScheduleCall(t, x)).q, k)
  {
    if ScheduleAt(m.q.agenda, t, Call(x)).Some? {
      ScheduleInv(m.q, t, x);
    }
  }

  function CeilDiv(a: nat, b: nat): nat
    requires b > 0
  {
    (a + b - 1) / b
  }

  /** The wait of a job at `position`, when a tick is or is not still due at the instant of its arrival. */
  function Wait(position: nat, capacity: nat, tickDueNow: bool): int
    requires capacity > 0
  {
    CeilDiv(position, capacity) - (if tickDueNow then 1 else 0)
  }

  ghost predicate TickDueNow<X>(q: Queue<X>) {
    q.agenda.now in Ticks(q.agenda)
  }

  lemma CeilOfNext(i: nat, c: nat)
    requires c > 0
    ensures CeilDiv(i + 1, c) == i / c + 1
  {
    assert i + 1 + c - 1 == i + c;
    DivShift(i + c, c);
  }

  lemma EnqueueFixesStart<X>(q: Queue<X>, payment: nat)
    requires Inv(q)
    ensures var r := Enqueue(q, payment);
            StartsAt(r, |q.jobs|, q.agenda.now + Wait(|q.waiting| + 1, q.capacity, TickDueNow(q)))
  {
    EnqueueInv(q, payment);
    CeilOfNext(|q.waiting|, q.capacity);
    DivShift(0, q.capacity);
  }

  // ----- Every job of a run -----

  /** Job `k`, which joined when a tick was or was not due, starts as long after joining as its position says. */
  ghost predicate WaitsFor<X>(q: Queue<X>, k: nat, due: bool) {
    k < |q.jobs| && q.capacity > 0 && StartsAt(q, k, q.jobs[k].queuedAt + Wait(q.jobs[k].position, q.capacity, due))
  }

  lemma EnqueueDue<X>(q: Queue<X>, payment: nat)
    requires Inv(q)
    ensures TickDueNow(Enqueue(q, payment)) <==> TickDueNow(q)
  {
    EnqueueInv(q, payment);
  }

  lemma EnqueuePlaces<X>(q: Queue<X>, payment: nat)
    requires Inv(q)
    ensures WaitsFor(Enqueue(q, payment), |q.jobs|, TickDueNow(q))
  {
    EnqueueFixesStart(q, payment);
  }

  lemma {:induction false} EnqueueAllPlaces<X>(q: Queue<X>, payments: seq<nat>, k: nat)
    requires Inv(q) && |q.jobs| <= k < |EnqueueAll(q, payments).jobs|
    ensures WaitsFor(EnqueueAll(q, payments), k, TickDueNow(q))
    decreases |payments|
  {
    if payments != [] {
      var q1 := Enqueue(q, payments[0]);
      EnqueueInv(q, payments[0]);
      if k == |q.jobs| {
        EnqueuePlaces(q, payments[0]);
        WaitsOn(q1, payments[1..], k, TickDueNow(q));
      } else {
        EnqueueDue(q, payments[0]);
        EnqueueAllPlaces(q1, payments[1..], k);
      }
    }
  }

  lemma WaitsOn<X>(q: Queue<X>, payments: seq<nat>, k: nat, due: bool)
    requires Inv(q) && WaitsFor(q, k, due)
    ensures WaitsFor(EnqueueAll(q, payments), k, due)
  {
    var d := q.jobs[k].queuedAt + Wait(q.jobs[k].position, q.capacity, due);
    EnqueueAllCapacity(q, payments);
    EnqueueAllStartsAt(q, payments, k, d);
    WaitsStill(q, EnqueueAll(q, payments), k, due, d);
  }

  lemma WaitsStill<X>(q: Queue<X>, r: Queue<X>, k: nat, due: bool, d: int)
    requires WaitsFor(q, k, due) && d == q.jobs[k].queuedAt + Wait(q.jobs[k].position, q.capacity, due)
    requires StartsAt(r, k, d) && SameJob(q, r, k) && r.capacity == q.capacity
    ensures WaitsFor(r, k, due)
  {
  }

  lemma {:induction false} EnqueueAllCapacity<X>(q: Queue<X>, payments: seq<nat>)
    requires WellFormed(q)
    ensures EnqueueAll(q, payments).capacity == q.capacity && EnqueueAll(q, payments).agenda.now == q.agenda.now
    decreases |payments|
  {
    if payments != [] {
      EnqueueAllCapacity(Enqueue(q, payments[0]), payments[1..]);
    }
  }

  lemma PerformPlaces<G, X>(m: Machine<G, X>, c: Client<G, X>, x: X, k: nat)
    requires Inv(m.q) && |m.q.jobs| <= k < |Perform(m, c, x).q.jobs|
    ensures WaitsFor(Perform(m, c, x).q, k, Perform(m, c, x).q.agenda.now in Ticks(m.q.agenda))
  {
    var payments := c.call(m.g, x, m.q.agenda.now).payments;
    EnqueueAllCapacity(m.q, payments);
    EnqueueAllPlaces(m.q, payments, k);
  }

  lemma TickAddsNothing<G, X>(m: Machine<G, X>, c: Client<G, X>)
    requires Inv(m.q) && TakeNext(m.q.agenda).Due? && TakeNext(m.q.agenda).event.action.Tick?
    ensures |Step(m, c).q.jobs| == |m.q.jobs|
  {
    TickTaken(m.q);
    TickServes(At(m, TakeNext(m.q.agenda).rest), c);
  }

  lemma RecordedWaits<G, X>(m: Machine<G, X>, e: Event<Action<X>>, k: nat, due: bool)
    requires WellFormed(m.q) && WaitsFor(m.q, k, due)
    ensures WaitsFor(Recorded(m, e).q, k, due)
  {
  }

  lemma CallPlaces<G, X>(m: Machine<G, X>, c: Client<G, X>, k: nat)
    requires Inv(m.q) && TakeNext(m.q.agenda).Due? && TakeNext(m.q.agenda).event.action.Call?
    requires |m.q.jobs| <= k < |Step(m, c).q.jobs|
    ensures WaitsFor(Step(m, c).q, k, Step(m, c).q.agenda.now in Ticks(m.q.agenda))
  {
    var Due(e, rest) := TakeNext(m.q.agenda);
    CallTaken(m.q);
    CallStepIs(m, c);
    PerformPlaces(At(m, rest), c, e.action.callback, k);
    var r := Perform(At(m, rest), c, e.action.callback);
    RecordedWaits(r, e, k, r.q.agenda.now in Ticks(rest));
  }

  /** A job that an operation adds waits as its position says, given whether a tick was pending for that instant. */
  lemma DoPlaces<G, X>(m: Machine<G, X>, c: Client<G, X>, op: Op<X>, k: nat)
    requires Inv(m.q) && |m.q.jobs| <= k < |Do(m, c, op).q.jobs|
    ensures WaitsFor(Do(m, c, op).q, k, Do(m, c, op).q.agenda.now in Ticks(m.q.agenda))
  {
    match op
    case CallNow(x) => PerformPlaces(m, c, x, k);
    case ScheduleCall(_, _) =>
    case AdvanceClock(_) =>
    case RunNext =>
      assert m.q.agenda.queue != [];
      TakeNextValid(m.q.agenda);
      if m.q.agenda.queue[0].action.Tick? {
        TickAddsNothing(m, c);
      } else {
        CallPlaces(m, c, k);
      }
  }

  /** A tick was pending for the instant at which job `k` joined. */
  ghost predicate DueOnArrival<G, X>(m: Machine<G, X>, c: Client<G, X>, ops: seq<Op<X>>, k: nat)
    requires WellFormed(m.q)
    decreases |ops|
  {
    ops != [] &&
    var before := Exec(m, c, ops[..|ops| - 1]);
    if k < |before.q.jobs| then DueOnArrival(m, c, ops[..|ops| - 1], k)
    else Exec(m, c, ops).q.agenda.now in Ticks(before.q.agenda)
  }

  lemma KeepsWaiting<G, X>(m: Machine<G, X>, c: Client<G, X>, op: Op<X>, k: nat, due: bool)
    requires Inv(m.q) && WaitsFor(m.q, k, due)
    ensures WaitsFor(Do(m, c, op).q, k, due)
  {
    DoStartsAt(m, c, op, k, m.q.jobs[k].queuedAt + Wait(m.q.jobs[k].position, m.q.capacity, due));
    DoCapacity(m, c, op);
  }

  lemma DoCapacity<G, X>(m: Machine<G, X>, c: Client<G, X>, op: Op<X>)
    requires WellFormed(m.q)
    ensures Do(m, c, op).q.capacity == m.q.capacity
  {
    match op
    case CallNow(x) => EnqueueAllCapacity(m.q, c.call(m.g, x, m.q.agenda.now).payments);
    case ScheduleCall(_, _) =>
    case AdvanceClock(_) =>
    case RunNext =>
      match TakeNext(m.q.agenda) {
        case Due(e, rest) =>
          if e.action.Call? {
            EnqueueAllCapacity(At(m, rest).q, c.call(m.g, e.action.callback, rest.now).payments);
          }
        case _ =>
      }
  }

  lemma {:induction false} ExecWaits<G, X>(capacity: nat, a: Agenda<Action<X>>, g: G, c: Client<G, X>, ops: seq<Op<X>>, k: nat)
    requires capacity > 0 && Tickless(a)
    requires k < |Exec(Machine(Create(capacity, a), g), c, ops).q.jobs|
    ensures var m := Machine(Create(capacity, a), g);
            var q := Exec(m, c, ops).q;
            WaitsFor(q, k, DueOnArrival(m, c, ops, k)) && q.capacity == capacity
    decreases |ops|
  {
    if ops != [] {
      var m, init := Machine(Create(capacity, a), g), ops[..|ops| - 1];
      var before := Exec(m, c, init);
      ExecInv(capacity, a, g, c, init);
      ExecCapacity(m, c, ops);
      if k < |before.q.jobs| {
        ExecWaits(capacity, a, g, c, init, k);
        KeepsWaiting(before, c, ops[|ops| - 1], k, DueOnArrival(m, c, init, k));
      } else {
        DoPlaces(before, c, ops[|ops| - 1], k);
      }
    }
  }

  lemma {:induction false} ExecCapacity<G, X>(m: Machine<G, X>, c: Client<G, X>, ops: seq<Op<X>>)
    requires WellFormed(m.q)
    ensures Exec(m, c, ops).q.capacity == m.q.capacity
    decreases |ops|
  {
    if ops != [] {
      ExecCapacity(m, c, ops[..|ops| - 1]);
      DoCapacity(Exec(m, c, ops[..|ops| - 1]), c, ops[|ops| - 1]);
    }
  }

  /**
   Exact latency, for every job of every run, however it joined: at position p
   it waits ceil(p / capacity) minutes, one less if a tick was still due at the
   instant it joined, whatever arrives or is retried later; and when nothing is
   pending it has been served.
   */
  lemma ExactLatency<G, X>(capacity: nat, a: Agenda<Action<X>>, g: G, c: Client<G, X>, ops: seq<Op<X>>, k: nat)
    requires capacity > 0 && Tickless(a)
    requires k < |Exec(Machine(Create(capacity, a), g), c, ops).q.jobs|
    ensures var m := Machine(Create(capacity, a), g);
            var q := Exec(m, c, ops).q;
            && (q.jobs[k].startedAt.Some? ==>
                  q.jobs[k].startedAt.value - q.jobs[k].queuedAt ==
                  Wait(q.jobs[k].position, capacity, DueOnArrival(m, c, ops, k)))
            && (q.agenda.queue == [] ==> q.jobs[k].completedAt.Some? && q.jobs[k].completedAt == q.jobs[k].startedAt)
  {
    var m := Machine(Create(capacity, a), g);
    var q := Exec(m, c, ops).q;
    ExecInv(capacity, a, g, c, ops);
    ExecWaits(capacity, a, g, c, ops, k);
    NothingWaitsWhenIdle(q, k, q.jobs[k].queuedAt + Wait(q.jobs[k].position, capacity, DueOnArrival(m, c, ops, k)));
  }

  lemma NothingWaitsWhenIdle<X>(q: Queue<X>, k: nat, d: int)
    requires Inv(q) && StartsAt(q, k, d)
    ensures q.jobs[k].startedAt.Some? ==> q.jobs[k].startedAt.value == d
    ensures q.agenda.queue == [] ==> q.jobs[k].completedAt.Some? && q.jobs[k].completedAt == q.jobs[k].startedAt
  {
  }
}
