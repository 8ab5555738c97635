/**
 The FIFO payment queue served by one-minute ticks, as values.

 A queued payment is an entry of the table `jobs`; `payment` is the handle its
 work callback was created for.  What the callbacks do is a parameter: a
 `Client` gives, for any state `G` of its own, the effect of the work of one
 payment and the effect of a scheduled callback `X`.  Work callbacks may change
 `G` and schedule callbacks; they do not raise, move the clock, or enqueue.
 */
module PaymentQueues {
  import opened Wrappers
  import opened Scheduling

  datatype Action<+X> = Tick | Call(callback: X)

  datatype Job = Job(
    payment: nat,
    queuedAt: nat,
    position: nat,
    startedAt: Option<nat>,
    completedAt: Option<nat>)

  datatype Kind = Arrived | Processing | Completed

  datatype QueueEvent = QueueEvent(time: nat, kind: Kind, payment: nat, size: nat)

  datatype Queue<+X> = Queue(
    capacity: nat,
    agenda: Agenda<Action<X>>,
    jobs: seq<Job>,
    waiting: seq<nat>,
    completed: seq<nat>,
    tickScheduled: bool,
    maxDepth: nat,
    log: seq<QueueEvent>)

  datatype Later<+X> = Later(delay: nat, callback: X)

  datatype Reply<+G, +X> = Reply(state: G, requests: seq<Later<X>>)

  datatype Admission<+G> = Admission(state: G, payments: seq<nat>)

  datatype Client<!G, !X> = Client(
    work: (G, nat, nat) -> Reply<G, X>,
    call: (G, X, nat) -> Admission<G>)

  datatype Machine<+G, +X> = Machine(q: Queue<X>, g: G)

  predicate WellFormed<X>(q: Queue<X>) {
    && (forall i :: 0 <= i < |q.waiting| ==> q.waiting[i] < |q.jobs|)
    && (forall i :: 0 <= i < |q.completed| ==> q.completed[i] < |q.jobs|)
  }

  /** A new queue on a scheduler that may already have callbacks pending. */
  function Create<X>(capacity: nat, agenda: Agenda<Action<X>>): Queue<X> {
    Queue(capacity, agenda, [], [], [], false, 0, [])
  }

  /** Ensure that the next one-minute tick is scheduled. */
  function Wake<X>(q: Queue<X>): Queue<X> {
    if q.tickScheduled then q
    else q.(tickScheduled := true, agenda := ScheduleAfter(q.agenda, 1, Tick))
  }

  function Join<X>(q: Queue<X>, payment: nat): (r: Queue<X>)
    requires WellFormed(q)
    ensures WellFormed(r)
  {
    var size := |q.waiting| + 1;
    q.(jobs := q.jobs + [Job(payment, q.agenda.now, size, None, None)],
       waiting := q.waiting + [|q.jobs|],
       maxDepth := Max(q.maxDepth, size),
       log := q.log + [QueueEvent(q.agenda.now, Arrived, payment, size)])
  }

  function Enqueue<X>(q: Queue<X>, payment: nat): (r: Queue<X>)
    requires WellFormed(q)
    ensures WellFormed(r)
  {
    Wake(Join(q, payment))
  }

  function EnqueueAll<X>(q: Queue<X>, payments: seq<nat>): (r: Queue<X>)
    requires WellFormed(q)
    ensures WellFormed(r)
    decreases |payments|
  {
    if payments == [] then q else EnqueueAll(Enqueue(q, payments[0]), payments[1..])
  }

  /** The oldest waiting job leaves the line and begins. */
  function StartNext<X>(q: Queue<X>): (r: Queue<X>)
    requires WellFormed(q) && q.waiting != []
    ensures WellFormed(r)
  {
    var k, now := q.waiting[0], q.agenda.now;
    q.(waiting := q.waiting[1..],
       jobs := q.jobs[k := q.jobs[k].(startedAt := Some(now))],
       log := q.log + [QueueEvent(now, Processing, q.jobs[k].payment, |q.waiting| - 1)])
  }

  function FinishJob<X>(q: Queue<X>, k: nat, now: nat): (r: Queue<X>)
    requires WellFormed(q) && k < |q.jobs|
    ensures WellFormed(r)
  {
    q.(jobs := q.jobs[k := q.jobs[k].(completedAt := Some(now))],
       completed := q.completed + [k],
       log := q.log + [QueueEvent(now, Completed, q.jobs[k].payment, |q.waiting|)])
  }

  function ScheduleAll<X>(a: Agenda<Action<X>>, requests: seq<Later<X>>): Agenda<Action<X>>
    decreases |requests|
  {
    if requests == [] then a
    else ScheduleAll(ScheduleAfter(a, requests[0].delay, Call(requests[0].callback)), requests[1..])
  }

  /** One turn of the tick's loop: start, work, complete. */
  function Serve<G, X>(m: Machine<G, X>, c: Client<G, X>): (r: Machine<G, X>)
    requires WellFormed(m.q) && m.q.waiting != []
    ensures WellFormed(r.q)
  {
    var k, now := m.q.waiting[0], m.q.agenda.now;
    var reply := c.work(m.g, m.q.jobs[k].payment, now);
    var q1 := StartNext(m.q);
    var q2 := q1.(agenda := ScheduleAll(q1.agenda, reply.requests));
    Machine(FinishJob(q2, k, now), reply.state)
  }

  function ServeMany<G, X>(m: Machine<G, X>, c: Client<G, X>, n: nat): (r: Machine<G, X>)
    requires WellFormed(m.q) && n <= |m.q.waiting|
    ensures WellFormed(r.q)
    ensures |r.q.waiting| == |m.q.waiting| - n && r.q.capacity == m.q.capacity
    ensures r.q.agenda.now == m.q.agenda.now
    decreases n
  {
    if n == 0 then m
    else
      ScheduleAllKeeps(m.q.agenda, c.work(m.g, m.q.jobs[m.q.waiting[0]].payment, m.q.agenda.now).requests);
      ServeMany(Serve(m, c), c, n - 1)
  }

  function ProcessTick<G, X>(m: Machine<G, X>, c: Client<G, X>): (r: Machine<G, X>)
    requires WellFormed(m.q)
    ensures WellFormed(r.q)
  {
    var m1 := m.(q := m.q.(tickScheduled := false));
    var m2 := ServeMany(m1, c, Min(m.q.capacity, |m.q.waiting|));
    if m2.q.waiting == [] then m2 else m2.(q := Wake(m2.q))
  }

  /** A scheduled callback runs; it may enqueue payments. */
  function Perform<G, X>(m: Machine<G, X>, c: Client<G, X>, x: X): (r: Machine<G, X>)
    requires WellFormed(m.q)
    ensures WellFormed(r.q)
  {
    var admission := c.call(m.g, x, m.q.agenda.now);
    Machine(EnqueueAll(m.q, admission.payments), admission.state)
  }

  function Recorded<G, X>(m: Machine<G, X>, e: Event<Action<X>>): (r: Machine<G, X>)
    requires WellFormed(m.q)
    ensures WellFormed(r.q)
  {
    m.(q := m.q.(agenda := Record(m.q.agenda, e)))
  }

  function At<G, X>(m: Machine<G, X>, a: Agenda<Action<X>>): (r: Machine<G, X>)
    requires WellFormed(m.q)
    ensures WellFormed(r.q)
  {
    m.(q := m.q.(agenda := a))
  }

  function Step<G, X>(m: Machine<G, X>, c: Client<G, X>): (r: Machine<G, X>)
    requires WellFormed(m.q)
    ensures WellFormed(r.q)
  {
    match TakeNext(m.q.agenda)
    case Empty => m
    case Late(rest) => At(m, rest)
    case Due(e, rest) =>
      match e.action
      case Tick => Recorded(ProcessTick(At(m, rest), c), e)
      case Call(x) => Recorded(Perform(At(m, rest), c, x), e)
  }

  /** What the outside world can do at an event boundary; a clock move that may not be made changes nothing. */
  datatype Op<+X> = CallNow(callback: X) | ScheduleCall(time: int, callback: X) | AdvanceClock(time: int) | RunNext

  function Do<G, X>(m: Machine<G, X>, c: Client<G, X>, op: Op<X>): (r: Machine<G, X>)
    requires WellFormed(m.q)
    ensures WellFormed(r.q)
  {
    match op
    case CallNow(x) => Perform(m, c, x)
    case ScheduleCall(t, x) =>
      var a := ScheduleAt(m.q.agenda, t, Call(x));
      if a.None? then m else At(m, a.value)
    case AdvanceClock(t) => At(m, Advance(m.q.agenda, t))
    case RunNext => Step(m, c)
  }

  function Exec<G, X>(m: Machine<G, X>, c: Client<G, X>, ops: seq<Op<X>>): (r: Machine<G, X>)
    requires WellFormed(m.q)
    ensures WellFormed(r.q)
    decreases |ops|
  {
    if ops == [] then m else Do(Exec(m, c, ops[..|ops| - 1]), c, ops[|ops| - 1])
  }

  lemma {:induction false} ScheduleAllKeeps<X>(a: Agenda<Action<X>>, requests: seq<Later<X>>)
    ensures ScheduleAll(a, requests).now == a.now
    decreases |requests|
  {
    if requests != [] {
      ScheduleAllKeeps(ScheduleAfter(a, requests[0].delay, Call(requests[0].callback)), requests[1..]);
    }
  }
}
