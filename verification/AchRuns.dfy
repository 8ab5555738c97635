/** Running the scheduler of the two ACH workflows until nothing is left. */
module AchRuns {
  import opened Scheduling
  import opened Ledgers
  import opened AchSchedule
  import opened AchBooks
  import opened AchInvariant
  import opened AchTheorems
  import opened AchFailures
  import A = Ach
  import R = AchReturns

  /** How many events an action can still lead to, itself included. */
  function Left(a: A.Action): nat {
    match a
    case Validate(_) => 5
    case MarkPending(_) => 4
    case Submit(_) => 3
    case Process(_) => 2
    case Complete(_) => 1
    case ValidateReturn(_) => 3
    case ProcessReturn(_) => 2
    case CompleteReturn(_) => 1
  }

  ghost function Units(e: Event<A.Action>): seq<()> {
    seq(Left(e.action), _ => ())
  }

  ghost function Work(q: Queue): nat {
    |Collect(q, Units)|
  }

  lemma WorkInserted(q: Queue, e: Event<A.Action>)
    ensures Work(Insert(q, e)) == Work(q) + Left(e.action)
  {
    CollectInsert(q, e, Units);
    assert |multiset(Collect(Insert(q, e), Units))| == |Collect(Insert(q, e), Units)|;
    assert |multiset(Collect(q, Units))| == |Collect(q, Units)| && |multiset(Units(e))| == |Units(e)|;
  }

  lemma WorkTaken(q: Queue)
    requires q != []
    ensures Work(q) == Work(q[1..]) + Left(q[0].action)
  {
  }

  /** An action schedules at most one event, of the same workflow, which leads to less. */
  ghost predicate Shrinks(q: Queue, a: A.Action, q': Queue) {
    q' == q || exists e :: q' == Insert(q, e) && Left(e.action) < Left(a) && SubjectOf(e.action) == SubjectOf(a)
  }

  lemma ShrinksBy(q: Queue, a: A.Action, e: Event<A.Action>)
    requires Left(e.action) < Left(a) && SubjectOf(e.action) == SubjectOf(a)
    ensures Shrinks(q, a, Insert(q, e))
  {
  }

  lemma ScheduleShrinks(n: A.Network, time: nat, next: A.Action, a: A.Action)
    requires Left(next) < Left(a) && SubjectOf(next) == SubjectOf(a)
    ensures Shrinks(n.agenda.queue, a, A.Schedule(n, time, next).network.agenda.queue)
  {
    ShrinksBy(n.agenda.queue, a, Event(time, n.agenda.nextOrder, next));
  }

  lemma ValidateShrinks(n: A.Network, id: string)
    requires id in n.transfers
    ensures Shrinks(n.agenda.queue, A.Validate(id), A.ValidateStep(n, id).network.agenda.queue)
  {
    ScheduleShrinks(A.Put(n, id, A.Moved(n.transfers[id], A.Validated, 1)), 2, A.MarkPending(id), A.Validate(id));
  }

  lemma SubmitShrinks(n: A.Network, id: string)
    requires id in n.transfers
    ensures Shrinks(n.agenda.queue, A.Submit(id), A.SubmitStep(n, id).network.agenda.queue)
  {
    var moved := A.Put(n, id, A.Moved(n.transfers[id], A.Submitted, 3));
    ScheduleShrinks(moved.(submissions := n.submissions + [id]), 5, A.Process(id), A.Submit(id));
  }

  lemma ProcessShrinks(n: A.Network, id: string)
    requires id in n.transfers
    ensures Shrinks(n.agenda.queue, A.Process(id), A.ProcessStep(n, id).network.agenda.queue)
  {
    ScheduleShrinks(A.Put(n, id, A.Moved(n.transfers[id], A.Processing, 5)), 10, A.Complete(id), A.Process(id));
  }

  lemma MarkPendingShrinks(n: A.Network, id: string)
    requires id in n.transfers
    ensures Shrinks(n.agenda.queue, A.MarkPending(id), A.MarkPendingStep(n, id).network.agenda.queue)
  {
    var t := n.transfers[id];
    var held := A.Put(n, id, A.Moved(t, A.Pending, 2)).(pending := n.pending + [A.HoldOf(t, |n.pending| + 1)]);
    ScheduleShrinks(held, 3, A.Submit(id), A.MarkPending(id));
  }

  lemma LaterShrinks(w: R.World, delay: nat, next: A.Action, a: A.Action)
    requires Left(next) < Left(a) && SubjectOf(next) == SubjectOf(a)
    ensures Shrinks(w.net.agenda.queue, a, R.Later(w, delay, next).net.agenda.queue)
  {
    ShrinksBy(w.net.agenda.queue, a, Event(w.net.agenda.now + delay, w.net.agenda.nextOrder, next));
  }

  lemma ValidateReturnShrinks(w: R.World, id: string)
    requires id in w.returned
    ensures Shrinks(w.net.agenda.queue, A.ValidateReturn(id), R.ValidateStep(w, id).world.net.agenda.queue)
  {
    var r := w.returned[id];
    var moved := R.Put(w, id, R.Moved(r, R.Validated, w.net.agenda.now)).(byTransfer := w.byTransfer[r.request.transfer := id]);
    LaterShrinks(moved, 1, A.ProcessReturn(id), A.ValidateReturn(id));
  }

  lemma ProcessReturnShrinks(w: R.World, id: string)
    requires id in w.returned
    ensures Shrinks(w.net.agenda.queue, A.ProcessReturn(id), R.ProcessStep(w, id).world.net.agenda.queue)
  {
    var moved := R.Put(w, id, R.Moved(w.returned[id], R.Processing, w.net.agenda.now));
    LaterShrinks(moved, 3, A.CompleteReturn(id), A.ProcessReturn(id));
  }

  lemma ExecuteShrinks(w: R.World, a: A.Action)
    requires R.Known(w, a)
    ensures Shrinks(w.net.agenda.queue, a, R.Execute(w, a).world.net.agenda.queue)
  {
    match a
    case Validate(t) => ValidateShrinks(w.net, t);
    case MarkPending(t) => MarkPendingShrinks(w.net, t);
    case Submit(t) => SubmitShrinks(w.net, t);
    case Process(t) => ProcessShrinks(w.net, t);
    case Complete(t) =>
    case ValidateReturn(r) => ValidateReturnShrinks(w, r);
    case ProcessReturn(r) => ProcessReturnShrinks(w, r);
    case CompleteReturn(r) =>
  }

  lemma ShrunkWork(q: Queue, a: A.Action, q': Queue)
    requires Shrinks(q, a, q')
    ensures Work(q') < Work(q) + Left(a)
  {
    if q' != q {
      var e :| q' == Insert(q, e) && Left(e.action) < Left(a) && SubjectOf(e.action) == SubjectOf(a);
      WorkInserted(q, e);
    }
  }

  /** Every event leaves less to do. */
  lemma RunNextShrinks(w: R.World)
    requires w.net.agenda.queue != []
    ensures Work(R.RunNext(w).world.net.agenda.queue) < Work(w.net.agenda.queue)
  {
    var q := w.net.agenda.queue;
    WorkTaken(q);
    match TakeNext(w.net.agenda)
    case Late(rest) =>
    case Due(e, rest) =>
      if R.Known(w, e.action) {
        ExecuteShrinks(R.Timed(w, rest), e.action);
        ShrunkWork(q[1..], e.action, R.Execute(R.Timed(w, rest), e.action).world.net.agenda.queue);
      }
  }

  /** The run: events one after the other, until none is left or one raises. */
  ghost function Run(w: R.World): R.Stepped
    decreases Work(w.net.agenda.queue)
  {
    if w.net.agenda.queue == [] then R.Stepped(w, false)
    else
      RunNextShrinks(w);
      var s := R.RunNext(w);
      if s.raised then s else Run(s.world)
  }

  /** The run, taken up again after every event that raises. */
  ghost function RunOut(w: R.World): R.World
    decreases Work(w.net.agenda.queue)
  {
    if w.net.agenda.queue == [] then w
    else
      RunNextShrinks(w);
      RunOut(R.RunNext(w).world)
  }

  lemma {:induction false} RunOutKeeps(w: R.World, base: seq<Entry>)
    requires Inv(w, base)
    ensures Inv(RunOut(w), base) && RunOut(w).net.agenda.queue == []
    decreases Work(w.net.agenda.queue)
  {
    if w.net.agenda.queue != [] {
      RunNextShrinks(w);
      RunNextInv(w, base);
      RunOutKeeps(R.RunNext(w).world, base);
    }
  }

  /** What has failed stays failed. */
  lemma {:induction false} RunOutFails(w: R.World, base: seq<Entry>, a: A.Action)
    requires Inv(w, base) && Failed(w, a)
    ensures Failed(RunOut(w), a)
    decreases Work(w.net.agenda.queue)
  {
    if w.net.agenda.queue != [] {
      RunNextShrinks(w);
      RunNextInv(w, base);
      RunNextFails(w, base);
      RunOutFails(R.RunNext(w).world, base, a);
    }
  }

  ghost predicate FailsNew(w: R.World, v: R.World) {
    exists a :: Failed(v, a) && !Failed(w, a)
  }

  lemma FirstRaiseFails(w: R.World, base: seq<Entry>)
    requires Inv(w, base) && w.net.agenda.queue != [] && R.RunNext(w).raised
    ensures FailsNew(w, RunOut(w))
  {
    var a := w.net.agenda.queue[0].action;
    RunNextShrinks(w);
    RunNextInv(w, base);
    TakenFails(w, base);
    RunNextFails(w, base);
    assert Failed(R.RunNext(w).world, a) && !Failed(w, a);
    RunOutFails(R.RunNext(w).world, base, a);
  }

  /** The run raises exactly when running on would leave a mark that was not there; otherwise it is the whole run. */
  lemma {:induction false} RunRaisesIff(w: R.World, base: seq<Entry>)
    requires Inv(w, base)
    ensures Run(w).raised <==> FailsNew(w, RunOut(w))
    ensures !Run(w).raised ==> Run(w).world == RunOut(w)
    ensures Inv(Run(w).world, base)
    decreases Work(w.net.agenda.queue)
  {
    if w.net.agenda.queue != [] {
      RunNextShrinks(w);
      RunNextInv(w, base);
      if R.RunNext(w).raised {
        FirstRaiseFails(w, base);
      } else {
        RunNextFails(w, base);
        RunRaisesIff(R.RunNext(w).world, base);
        assert forall a :: Failed(w, a) <==> Failed(R.RunNext(w).world, a);
      }
    }
  }

  /** From any state reached, running on settles everything, and the first run raises exactly when something newly accepted cannot be held or posted. */
  lemma RunSettles(base: seq<Entry>, now: nat, ops: seq<R.Op>, w: R.World)
    requires Reached(base, now, ops, w)
    ensures Settled(RunOut(w))
    ensures Run(w).raised <==> FailsNew(w, RunOut(w))
    ensures !Run(w).raised ==> Run(w).world == RunOut(w)
  {
    ReachedInv(base, now, ops, w);
    RunOutKeeps(w, base);
    EmptyIsSettled(RunOut(w), base);
    RunRaisesIff(w, base);
  }

  /** Nothing known has a blank description, and the ledger has room for every posting that may come. */
  ghost predicate Clear(w: R.World, base: seq<Entry>) {
    && (forall id :: id in w.net.transfers ==> !A.Flawed(w.net.transfers[id].request) && DebitDue(base, id))
    && (forall id :: id in w.returned ==> CreditDue(base, id, w.returned[id].receivedAt + 5))
  }

  lemma ClearRuns(w: R.World, base: seq<Entry>)
    requires Inv(w, base) && Clear(w, base) && w.net.agenda.queue != []
    ensures !R.RunNext(w).raised
  {
    RunNextInv(w, base);
    TakeTurn(w);
    assert Expected(w.net.agenda.queue[0], w.net.transfers, w.returned);
  }

  ghost predicate SameRequests(w: R.World, v: R.World) {
    && w.net.transfers.Keys == v.net.transfers.Keys && w.returned.Keys == v.returned.Keys
    && (forall id :: id in w.net.transfers ==> v.net.transfers[id].request == w.net.transfers[id].request)
    && (forall id :: id in w.returned ==> v.returned[id].receivedAt == w.returned[id].receivedAt)
  }

  lemma ExecuteRequests(w: R.World, a: A.Action)
    requires R.Known(w, a)
    ensures SameRequests(w, R.Execute(w, a).world)
  {
    ExecuteTouches(w, a);
    if SubjectOf(a).OfTransfer? {
      assert R.Execute(w, a).world.net.transfers[a.transfer].request == w.net.transfers[a.transfer].request;
    } else {
      assert R.Execute(w, a).world.returned[a.ret].receivedAt == w.returned[a.ret].receivedAt;
    }
  }

  lemma ExecuteIds(w: R.World, a: A.Action)
    requires R.Known(w, a)
    ensures R.Execute(w, a).world.net.ids == w.net.ids
  {
  }

  lemma TimedRequests(w: R.World, agenda: Agenda<A.Action>, v: R.World)
    requires SameRequests(R.Timed(w, agenda), v)
    ensures SameRequests(w, v)
  {
  }

  lemma RunNextRequests(w: R.World, e: Event<A.Action>, rest: Agenda<A.Action>)
    requires TakeNext(w.net.agenda) == Due(e, rest) && R.Known(R.Timed(w, rest), e.action)
    ensures SameRequests(w, R.RunNext(w).world) && R.RunNext(w).world.net.ids == w.net.ids
  {
    ExecuteRequests(R.Timed(w, rest), e.action);
    ExecuteIds(R.Timed(w, rest), e.action);
    RunNextIs(w, e, rest);
    TimedRequests(w, rest, R.RunNext(w).world);
  }

  lemma ClearStays(w: R.World, base: seq<Entry>)
    requires Inv(w, base) && Clear(w, base) && w.net.agenda.queue != []
    ensures Clear(R.RunNext(w).world, base)
  {
    TakenFails(w, base);
    var Due(e, rest) := TakeNext(w.net.agenda);
    RunNextRequests(w, e, rest);
    ClearKept(w, R.RunNext(w).world, base);
  }

  lemma ClearKept(w: R.World, v: R.World, base: seq<Entry>)
    requires Clear(w, base) && SameRequests(w, v)
    ensures Clear(v, base)
  {
  }

  lemma {:induction false} ClearRunEnds(w: R.World, base: seq<Entry>)
    requires Inv(w, base) && Clear(w, base)
    ensures !Run(w).raised
    decreases Work(w.net.agenda.queue)
  {
    if w.net.agenda.queue != [] {
      RunNextShrinks(w);
      RunNextInv(w, base);
      ClearRuns(w, base);
      ClearStays(w, base);
      ClearRunEnds(R.RunNext(w).world, base);
    }
  }

  /** If nothing received has a blank description and the ledger has room for its postings, one run settles everything. */
  lemma ClearRunSettles(base: seq<Entry>, now: nat, ops: seq<R.Op>, w: R.World)
    requires Reached(base, now, ops, w) && Clear(w, base)
    ensures !Run(w).raised && Settled(Run(w).world)
  {
    ReachedInv(base, now, ops, w);
    ClearRunEnds(w, base);
    RunSettles(base, now, ops, w);
  }
}
