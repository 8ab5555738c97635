/**
 The worker pool as values: what one arrival, one dispatch, one completion and
 one scheduler event do to the whole state.

 A queued payment is a mutable object in the program; here it is an entry of
 the table `items`, and the waiting line, the workers and the completed list
 refer to it by its index, which is its arrival order.
 */
module WorkerPools {
  import opened Wrappers
  import opened Scheduling

  /** The ledger effect of one payment's work callback. */
  datatype Posting = Posting(id: string, credit: bool, cents: nat)

  datatype Action = Arrive(posting: Posting) | Complete(worker: nat)

  datatype Item = Item(
    posting: Posting,
    queuedAt: nat,
    position: nat,
    startedAt: Option<nat>,
    completedAt: Option<nat>)

  datatype Worker = Worker(current: Option<nat>, finished: nat, busyTime: nat)

  datatype Kind = Arrived | Assigned | Completed

  datatype CapacityEvent = CapacityEvent(time: nat, kind: Kind, id: string, worker: Option<nat>, depth: nat)

  datatype Pool = Pool(
    period: nat,
    agenda: Agenda<Action>,
    workers: seq<Worker>,
    items: seq<Item>,
    waiting: seq<nat>,
    completed: seq<nat>,
    posted: seq<Posting>,
    log: seq<CapacityEvent>,
    maxDepth: nat,
    area: int,
    lastChange: nat,
    firstArrival: Option<nat>)

  const IDLE := Worker(None, 0, 0)

  /** Every reference points into the table of items. */
  predicate WellFormed(s: Pool) {
    && (forall i :: 0 <= i < |s.waiting| ==> s.waiting[i] < |s.items|)
    && (forall w :: 0 <= w < |s.workers| && s.workers[w].current.Some? ==> s.workers[w].current.value < |s.items|)
    && (forall i :: 0 <= i < |s.completed| ==> s.completed[i] < |s.items|)
  }

  function Create(workerCount: nat, period: nat, agenda: Agenda<Action>): Pool {
    Pool(period, agenda, seq(workerCount, _ => IDLE), [], [], [], [], [], 0, 0, agenda.now, None)
  }

  function Busy(s: Pool, w: nat): bool
    requires w < |s.workers|
  {
    s.workers[w].current.Some?
  }

  function RecordDepth(s: Pool): Pool {
    s.(area := s.area + |s.waiting| * (s.agenda.now - s.lastChange), lastChange := s.agenda.now)
  }

  /** Hand the oldest waiting payment to worker `w` and schedule its completion. */
  function Assign(s: Pool, w: nat): (r: Pool)
    requires WellFormed(s) && s.waiting != [] && w < |s.workers|
    ensures WellFormed(r)
  {
    var s1 := RecordDepth(s);
    var k := s1.waiting[0];
    s1.(items := s1.items[k := s1.items[k].(startedAt := Some(s1.agenda.now))],
        waiting := s1.waiting[1..],
        workers := s1.workers[w := s1.workers[w].(current := Some(k))],
        log := s1.log + [CapacityEvent(s1.agenda.now, Assigned, s1.items[k].posting.id, Some(w), |s1.waiting| - 1)],
        agenda := ScheduleAfter(s1.agenda, s1.period, Complete(w)))
  }

  /** Workers from `w` on, lowest number first, take waiting payments while there are any. */
  function Dispatch(s: Pool, w: nat): (r: Pool)
    requires WellFormed(s) && w <= |s.workers|
    ensures WellFormed(r)
    decreases |s.workers| - w
  {
    if w == |s.workers| || s.waiting == [] then s
    else if Busy(s, w) then Dispatch(s, w + 1)
    else Dispatch(Assign(s, w), w + 1)
  }

  /** The new payment joins the waiting line; nobody has been dispatched yet. */
  function Join(s: Pool, p: Posting): (r: Pool)
    requires WellFormed(s)
    ensures WellFormed(r)
  {
    var now := s.agenda.now;
    var s1 := RecordDepth(s);
    var depth := |s1.waiting| + 1;
    s1.(firstArrival := if s1.firstArrival.None? then Some(now) else s1.firstArrival,
        items := s1.items + [Item(p, now, depth, None, None)],
        waiting := s1.waiting + [|s1.items|],
        maxDepth := Max(s1.maxDepth, depth),
        log := s1.log + [CapacityEvent(now, Arrived, p.id, None, depth)])
  }

  function Enqueue(s: Pool, p: Posting): (r: Pool)
    requires WellFormed(s)
    ensures WellFormed(r)
  {
    Dispatch(Join(s, p), 0)
  }

  /** Worker `w` runs the work of its payment and becomes idle; nobody has been dispatched yet. */
  function Release(s: Pool, w: nat): (r: Pool)
    requires WellFormed(s) && w < |s.workers| && Busy(s, w)
    ensures WellFormed(r)
  {
    var now := s.agenda.now;
    var me := s.workers[w];
    var k := me.current.value;
    s.(posted := s.posted + [s.items[k].posting],
       items := s.items[k := s.items[k].(completedAt := Some(now))],
       completed := s.completed + [k],
       workers := s.workers[w := Worker(None, me.finished + 1, me.busyTime + s.period)],
       log := s.log + [CapacityEvent(now, Completed, s.items[k].posting.id, Some(w), |s.waiting|)])
  }

  function Finish(s: Pool, w: nat): (r: Pool)
    requires WellFormed(s) && w < |s.workers| && Busy(s, w)
    ensures WellFormed(r)
  {
    Dispatch(Release(s, w), 0)
  }

  /** One `run_next`.  A completion for an idle worker, or an event behind the clock, raises and is lost. */
  function Step(s: Pool): (r: Pool)
    requires WellFormed(s)
    ensures WellFormed(r)
  {
    match TakeNext(s.agenda)
    case Empty => s
    case Late(rest) => s.(agenda := rest)
    case Due(e, rest) =>
      var s1 := s.(agenda := rest);
      match e.action
      case Arrive(p) => Recorded(Enqueue(s1, p), e)
      case Complete(w) => if w < |s1.workers| && Busy(s1, w) then Recorded(Finish(s1, w), e) else s1
  }

  function Recorded(s: Pool, e: Event<Action>): (r: Pool)
    requires WellFormed(s)
    ensures WellFormed(r)
  {
    s.(agenda := Record(s.agenda, e))
  }

  // ----- Runs -----

  /** What the outside world can do at an event boundary; a clock move that may not be made changes nothing. */
  datatype Op = ScheduleArrival(time: int, posting: Posting) | EnqueueNow(posting: Posting) | AdvanceClock(time: int) | RunNext

  function Do(s: Pool, op: Op): (r: Pool)
    requires WellFormed(s)
    ensures WellFormed(r)
  {
    match op
    case ScheduleArrival(t, p) =>
      var a := ScheduleAt(s.agenda, t, Arrive(p));
      if a.None? then s else s.(agenda := a.value)
    case EnqueueNow(p) => Enqueue(s, p)
    case AdvanceClock(t) => s.(agenda := Advance(s.agenda, t))
    case RunNext => Step(s)
  }

  function Exec(s: Pool, ops: seq<Op>): (r: Pool)
    requires WellFormed(s)
    ensures WellFormed(r)
    decreases |ops|
  {
    if ops == [] then s else Do(Exec(s, ops[..|ops| - 1]), ops[|ops| - 1])
  }
}
