/**
 Arbitrary runs of the scheduler: callbacks schedule what they like, move the
 clock, raise; the outside world schedules and moves the clock in between.
 */
module SchedulerRuns {
  import opened Scheduling

  datatype Act = Schedule(time: int) | MoveClock(to: int)

  /** What a callback does when it runs, and whether it raises at the end. */
  datatype Callback = Callback(acts: seq<Act>, raises: bool)

  datatype Op = Outside(act: Act) | RunNext(callback: Callback)

  /**
   The agenda, every event ever accepted, the events popped but not executed,
   and two facts about the past: whether a clock move went past a pending
   event, and whether a callback raised.
   */
  datatype Run = Run(
    agenda: Agenda<()>,
    scheduled: seq<Execution>,
    lost: seq<Execution>,
    overtaken: bool,
    raised: bool)

  function Begin(now: nat): Run {
    Run(Start(now), [], [], false, false)
  }

  function Mark(e: Event<()>): Execution {
    Execution(e.time, e.order)
  }

  predicate AnyBefore(q: seq<Event<()>>, t: int) {
    exists i :: 0 <= i < |q| && q[i].time < t
  }

  function Perform(r: Run, act: Act): Run {
    match act
    case Schedule(t) =>
      var a := ScheduleAt(r.agenda, t, ());
      if a.None? then r
      else r.(agenda := a.value, scheduled := r.scheduled + [Execution(t, r.agenda.nextOrder)])
    case MoveClock(t) =>
      if t < r.agenda.now then r
      else r.(agenda := r.agenda.(now := t), overtaken := r.overtaken || AnyBefore(r.agenda.queue, t))
  }

  function PerformAll(r: Run, acts: seq<Act>): Run
    decreases |acts|
  {
    if acts == [] then r else PerformAll(Perform(r, acts[0]), acts[1..])
  }

  function Step(r: Run, c: Callback): Run {
    match TakeNext(r.agenda)
    case Empty => r
    case Late(rest) => r.(agenda := rest, lost := r.lost + [Mark(r.agenda.queue[0])])
    case Due(e, rest) => Conclude(PerformAll(r.(agenda := rest), c.acts), e, c.raises)
  }

  /** History records only callbacks that returned. */
  function Conclude(r: Run, e: Event<()>, raises: bool): Run {
    if raises then r.(lost := r.lost + [Mark(e)], raised := true)
    else r.(agenda := Record(r.agenda, e))
  }

  function Exec(now: nat, ops: seq<Op>): Run
    decreases |ops|
  {
    if ops == [] then Begin(now)
    else
      var r := Exec(now, ops[..|ops| - 1]);
      match ops[|ops| - 1]
      case Outside(act) => Perform(r, act)
      case RunNext(c) => Step(r, c)
  }

  // ----- Invariants -----

  ghost predicate Earlier(x: Execution, y: Execution) {
    x.time < y.time || (x.time == y.time && x.order < y.order)
  }

  /** `x` lies in the past, and every pending event that can still run comes after it. */
  ghost predicate Past(x: Execution, a: Agenda<()>) {
    && x.time <= a.now && x.order < a.nextOrder
    && forall e :: e in a.queue ==> e.time < a.now || Earlier(x, Mark(e))
  }

  ghost predicate History(a: Agenda<()>) {
    && (forall i, j :: 0 <= i < j < |a.history| ==> Earlier(a.history[i], a.history[j]))
    && (forall i :: 0 <= i < |a.history| ==> Past(a.history[i], a))
  }

  ghost function Marks(e: Event<()>): seq<Execution> {
    [Mark(e)]
  }

  ghost function Pending(a: Agenda<()>): multiset<Execution> {
    multiset(Collect(a.queue, Marks))
  }

  /** Every event accepted is pending, executed, lost, or one of `running`: each in exactly one place. */
  ghost predicate Accounted(r: Run, running: multiset<Execution>) {
    && |r.scheduled| == r.agenda.nextOrder
    && (forall i :: 0 <= i < |r.scheduled| ==> r.scheduled[i].order == i)
    && multiset(r.scheduled) == Pending(r.agenda) + multiset(r.agenda.history) + multiset(r.lost) + running
  }

  ghost predicate Blamed(r: Run) {
    r.overtaken || r.raised <==> r.lost != [] || AnyBefore(r.agenda.queue, r.agenda.now)
  }

  ghost predicate Inv(r: Run) {
    && Valid(r.agenda)
    && History(r.agenda)
    && Accounted(r, multiset{})
    && Blamed(r)
  }

  // ----- One act -----

  lemma AppendAdds<T>(xs: seq<T>, x: T)
    ensures multiset(xs + [x]) == multiset(xs) + multiset{x}
  {
  }

  lemma PendingInsert(q: seq<Event<()>>, e: Event<()>)
    ensures multiset(Collect(Insert(q, e), Marks)) == multiset(Collect(q, Marks)) + multiset{Mark(e)}
  {
    CollectInsert(q, e, Marks);
  }

  lemma OneMore(all: multiset<Execution>, p: multiset<Execution>, h: multiset<Execution>, l: multiset<Execution>,
                running: multiset<Execution>, x: multiset<Execution>)
    requires all == p + h + l + running
    ensures all + x == (p + x) + h + l + running
  {
  }

  lemma ScheduleAccounted(r: Run, t: int, running: multiset<Execution>)
    requires Valid(r.agenda) && Accounted(r, running)
    ensures Accounted(Perform(r, Schedule(t)), running)
  {
    if t >= 0 && t >= r.agenda.now {
      var e := Event(t, r.agenda.nextOrder, ());
      PendingInsert(r.agenda.queue, e);
      AppendAdds(r.scheduled, Mark(e));
      OneMore(multiset(r.scheduled), Pending(r.agenda), multiset(r.agenda.history), multiset(r.lost), running,
              multiset{Mark(e)});
    }
  }

  lemma PerformPast(r: Run, act: Act, x: Execution)
    requires Valid(r.agenda) && Past(x, r.agenda)
    ensures Past(x, Perform(r, act).agenda)
  {
    if act.Schedule? && ScheduleAt(r.agenda, act.time, ()).Some? {
      ScheduleAtValid(r.agenda, act.time, ());
    }
  }

  lemma PerformValid(r: Run, act: Act, running: multiset<Execution>)
    requires Valid(r.agenda) && Accounted(r, running)
    ensures Valid(Perform(r, act).agenda) && Accounted(Perform(r, act), running)
    ensures Perform(r, act).agenda.history == r.agenda.history && Perform(r, act).raised == r.raised
  {
    match act
    case Schedule(t) =>
      ScheduleAccounted(r, t, running);
      if ScheduleAt(r.agenda, t, ()).Some? { ScheduleAtValid(r.agenda, t, ()); }
    case MoveClock(_) =>
  }

  lemma InsertedAt(q: seq<Event<()>>, e: Event<()>, i: nat)
    requires i < |Insert(q, e)|
    ensures var p := Position(q, e);
            Insert(q, e)[i] == if i < p then q[i] else if i == p then e else q[i - 1]
  {
  }

  lemma AnyBeforeInsert(q: seq<Event<()>>, e: Event<()>, t: int)
    requires t <= e.time
    ensures AnyBefore(Insert(q, e), t) <==> AnyBefore(q, t)
  {
    var p, q' := Position(q, e), Insert(q, e);
    if AnyBefore(q', t) {
      var i :| 0 <= i < |q'| && q'[i].time < t;
      InsertedAt(q, e, i);
      assert q[if i < p then i else i - 1].time < t;
    }
    if AnyBefore(q, t) {
      var i :| 0 <= i < |q| && q[i].time < t;
      InsertedAt(q, e, if i < p then i else i + 1);
      assert q'[if i < p then i else i + 1].time < t;
    }
  }

  lemma PerformBlamed(r: Run, act: Act)
    requires Blamed(r)
    ensures Blamed(Perform(r, act))
  {
    if act.Schedule? && act.time >= 0 && act.time >= r.agenda.now {
      AnyBeforeInsert(r.agenda.queue, Event(act.time, r.agenda.nextOrder, ()), r.agenda.now);
    }
  }

  lemma {:induction false} PerformAllKeeps(r: Run, acts: seq<Act>, running: multiset<Execution>)
    requires Valid(r.agenda) && Accounted(r, running) && Blamed(r)
    ensures var r' := PerformAll(r, acts);
            && Valid(r'.agenda) && Accounted(r', running) && Blamed(r')
            && r'.agenda.history == r.agenda.history && r'.raised == r.raised
    decreases |acts|
  {
    if acts != [] {
      PerformValid(r, acts[0], running);
      PerformBlamed(r, acts[0]);
      PerformAllKeeps(Perform(r, acts[0]), acts[1..], running);
    }
  }

  lemma {:induction false} PerformAllPast(r: Run, acts: seq<Act>, x: Execution, running: multiset<Execution>)
    requires Valid(r.agenda) && Accounted(r, running) && Past(x, r.agenda)
    ensures Past(x, PerformAll(r, acts).agenda)
    decreases |acts|
  {
    if acts != [] {
      PerformValid(r, acts[0], running);
      PerformPast(r, acts[0], x);
      PerformAllPast(Perform(r, acts[0]), acts[1..], x, running);
    }
  }

  // ----- One event -----

  lemma TakeFacts(a: Agenda<()>)
    requires Valid(a) && a.queue != []
    ensures Pending(a) == multiset{Mark(a.queue[0])} + multiset(Collect(a.queue[1..], Marks))
    ensures forall e :: e in a.queue[1..] ==> e in a.queue && Before(a.queue[0], e)
    ensures AnyBefore(a.queue, a.now) <==> a.queue[0].time < a.now
  {
    assert Collect(a.queue, Marks) == [Mark(a.queue[0])] + Collect(a.queue[1..], Marks);
    assert forall i :: 1 <= i < |a.queue| ==> a.queue[i] == a.queue[1..][i - 1];
  }

  lemma RestValid(a: Agenda<()>)
    requires Valid(a) && a.queue != []
    ensures Valid(a.(queue := a.queue[1..]))
    ensures a.now <= a.queue[0].time ==> Valid(a.(queue := a.queue[1..], now := a.queue[0].time))
  {
  }

  lemma LateKeepsInv(r: Run, c: Callback)
    requires Inv(r) && TakeNext(r.agenda).Late?
    ensures Inv(Step(r, c))
  {
    var r' := Step(r, c);
    TakeFacts(r.agenda);
    RestValid(r.agenda);
    assert multiset(r'.lost) == multiset(r.lost) + multiset{Mark(r.agenda.queue[0])};
  }

  /** Just after the pop: the event is on its way, everything executed is behind it. */
  lemma DueFacts(r: Run)
    requires Inv(r) && TakeNext(r.agenda).Due?
    ensures var Due(e, rest) := TakeNext(r.agenda);
            Running(r.(agenda := rest), e)
  {
    TakeFacts(r.agenda);
    RestValid(r.agenda);
    assert r.agenda.queue[0] in r.agenda.queue;
    assert TakeNext(r.agenda).rest.queue == r.agenda.queue[1..];
  }

  /** `e` is being run: everything executed is behind it, and it is accounted for as running. */
  ghost predicate Running(r: Run, e: Event<()>) {
    && Valid(r.agenda) && Accounted(r, multiset{Mark(e)}) && Blamed(r)
    && Past(Mark(e), r.agenda)
    && History(r.agenda)
    && forall i :: 0 <= i < |r.agenda.history| ==> Earlier(r.agenda.history[i], Mark(e))
  }

  lemma CallbackRuns(r: Run, e: Event<()>, acts: seq<Act>)
    requires Running(r, e)
    ensures Running(PerformAll(r, acts), e)
  {
    PerformAllKeeps(r, acts, multiset{Mark(e)});
    PerformAllPast(r, acts, Mark(e), multiset{Mark(e)});
    forall i | 0 <= i < |r.agenda.history| ensures Past(r.agenda.history[i], PerformAll(r, acts).agenda) {
      PerformAllPast(r, acts, r.agenda.history[i], multiset{Mark(e)});
    }
  }

  lemma DueKeepsInv(r: Run, c: Callback)
    requires Inv(r) && TakeNext(r.agenda).Due?
    ensures Inv(Step(r, c))
  {
    var Due(e, rest) := TakeNext(r.agenda);
    DueFacts(r);
    RunCallback(r.(agenda := rest), e, c);
  }

  lemma RunCallback(r: Run, e: Event<()>, c: Callback)
    requires Running(r, e)
    ensures Inv(Conclude(PerformAll(r, c.acts), e, c.raises))
  {
    CallbackRuns(r, e, c.acts);
    ConcludeKeepsInv(PerformAll(r, c.acts), e, c.raises);
  }

  lemma ConcludeKeepsInv(r: Run, e: Event<()>, raises: bool)
    requires Running(r, e)
    ensures Inv(Conclude(r, e, raises))
  {
    AppendAdds(r.lost, Mark(e));
    AppendAdds(r.agenda.history, Mark(e));
    SucceedHistory(r.agenda, e);
  }

  lemma SucceedHistory(a: Agenda<()>, e: Event<()>)
    requires History(a) && Past(Mark(e), a)
    requires forall i :: 0 <= i < |a.history| ==> Earlier(a.history[i], Mark(e))
    ensures History(Record(a, e))
  {
  }

  lemma ActKeepsInv(r: Run, act: Act)
    requires Inv(r)
    ensures Inv(Perform(r, act))
  {
    PerformValid(r, act, multiset{});
    PerformBlamed(r, act);
    var r' := Perform(r, act);
    forall i | 0 <= i < |r'.agenda.history| ensures Past(r'.agenda.history[i], r'.agenda) {
      PerformPast(r, act, r.agenda.history[i]);
    }
  }

  lemma {:induction false} ExecInv(now: nat, ops: seq<Op>)
    ensures Inv(Exec(now, ops))
    decreases |ops|
  {
    if ops != [] {
      var r := Exec(now, ops[..|ops| - 1]);
      ExecInv(now, ops[..|ops| - 1]);
      match ops[|ops| - 1] {
        case Outside(act) => ActKeepsInv(r, act);
        case RunNext(c) =>
          match TakeNext(r.agenda) {
            case Empty =>
            case Late(_) => LateKeepsInv(r, c);
            case Due(_, _) => DueKeepsInv(r, c);
          }
      }
    }
  }

  // ----- Results -----

  /** Whatever callbacks and clock moves do, the history is strictly increasing in (time, order). */
  lemma HistoryStrictlyIncreases(now: nat, ops: seq<Op>)
    ensures var h := Exec(now, ops).agenda.history;
            forall i, j :: 0 <= i < j < |h| ==> Earlier(h[i], h[j])
  {
    ExecInv(now, ops);
  }

  /**
   Every event ever accepted is pending, executed at its own time, or lost, and
   exactly one of these; orders are handed out without gaps.
   */
  lemma EveryEventOnce(now: nat, ops: seq<Op>)
    ensures var r := Exec(now, ops);
            && (forall i :: 0 <= i < |r.scheduled| ==> r.scheduled[i].order == i)
            && multiset(r.scheduled) == Pending(r.agenda) + multiset(r.agenda.history) + multiset(r.lost)
  {
    ExecInv(now, ops);
  }

  /**
   An event is lost only when a callback raises or a clock move passes a
   pending event; and once nothing is pending, exactly then.
   */
  lemma NothingLostUnless(now: nat, ops: seq<Op>)
    ensures var r := Exec(now, ops);
            && (!r.overtaken && !r.raised ==> r.lost == [])
            && (r.agenda.queue == [] ==> (r.lost == [] <==> !r.overtaken && !r.raised))
  {
    ExecInv(now, ops);
  }
}
