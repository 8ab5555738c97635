/** What every call and every event of the two ACH workflows keeps. */
module AchInvariant {
  import opened Wrappers
  import opened Scheduling
  import opened Ledgers
  import opened AchSchedule
  import opened AchBooks
  import A = Ach
  import R = AchReturns

  ghost predicate Clocked(s: Agenda<A.Action>) {
    Valid(s) && OnTime(s)
  }

  /** Everything but the pending events. */
  ghost predicate Books(w: R.World, base: seq<Entry>) {
    Accounts(w, base) && Records(w, base)
  }

  ghost predicate Accounts(w: R.World, base: seq<Entry>) {
    && Filed(w.net.ids, w.net.transfers) && Filed(w.rids, w.returned)
    && Holding(w.net.pending, w.net.ids, w.net.transfers)
    && Balanced(w.net.entries, base, w.net.ids, w.net.transfers, w.rids, w.returned)
  }

  ghost predicate Records(w: R.World, base: seq<Entry>) {
    && LedgerRecords(w, base)
    && Returning(w.net.transfers, w.returned, w.byTransfer)
    && GoodTransfers(w.net.transfers) && GoodReturns(w.returned)
  }

  ghost predicate LedgerRecords(w: R.World, base: seq<Entry>) {
    && Sound(w.net.entries)
    && Posted(w.net.entries, base, w.net.transfers, w.returned)
    && Timely(w.net.entries, base, w.net.agenda.now, w.net.transfers)
    && OnlyIfDue(base, w.net.transfers, w.returned)
  }

  ghost predicate Inv(w: R.World, base: seq<Entry>) {
    && Clocked(w.net.agenda)
    && Mirrored(w.net.agenda.queue, w.net.transfers, w.returned)
    && Books(w, base)
  }

  /** The event `e` has just been taken. */
  ghost predicate Turn(w: R.World, e: Event<A.Action>) {
    && Clocked(w.net.agenda) && w.net.agenda.now == e.time
    && Expected(e, w.net.transfers, w.returned)
    && MirroredBut(w.net.agenda.queue, w.net.transfers, w.returned, SubjectOf(e.action))
  }

  /** Which event raises: a hold with a blank text, and a posting that the ledger refuses because of what it held at the start. */
  ghost predicate Raises(w: R.World, e: Event<A.Action>, base: seq<Entry>) {
    match e.action
    case MarkPending(id) => id in w.net.transfers && A.Flawed(w.net.transfers[id].request)
    case Complete(id) => !DebitDue(base, id)
    case CompleteReturn(id) => !CreditDue(base, id, e.time)
    case _ => false
  }

  /** The action is run, raises exactly when it should, and leaves a sound world. */
  ghost predicate WellRun(w: R.World, e: Event<A.Action>, base: seq<Entry>) {
    && R.Known(w, e.action)
    && Inv(R.Execute(w, e.action).world, base)
    && (R.Execute(w, e.action).raised <==> Raises(w, e, base))
  }

  // ----- The schedule -----

  lemma Scheduled(n: A.Network, time: nat, action: A.Action)
    requires Clocked(n.agenda) && n.agenda.now <= time
    ensures ScheduleAt(n.agenda, time, action).Some?
    ensures var agenda := ScheduleAt(n.agenda, time, action).value;
            && A.Schedule(n, time, action) == A.Stepped(n.(agenda := agenda), false)
            && Clocked(agenda) && agenda.now == n.agenda.now
            && Added(n.agenda.queue, Event(time, n.agenda.nextOrder, action), agenda.queue)
  {
    ScheduleAtValid(n.agenda, time, action);
  }

  lemma TransferAdvances(q: Queue, tr: Transfers, re: Returns, id: string, t: A.Transfer, e: Event<A.Action>, q': Queue)
    requires MirroredBut(q, tr, re, OfTransfer(id)) && Added(q, e, q')
    requires NextOf(id, t) == Some((e.action, e.time))
    ensures Mirrored(q', tr[id := t], re)
  {
    OthersKeepMirror(q, tr, re, tr[id := t], re, OfTransfer(id));
    PushMirrors(q, e, q', tr[id := t], re);
  }

  lemma TransferEnds(q: Queue, tr: Transfers, re: Returns, id: string, t: A.Transfer)
    requires MirroredBut(q, tr, re, OfTransfer(id))
    requires NextOf(id, t).None? || t.status == A.Received
    ensures Mirrored(q, tr[id := t], re)
  {
    OthersKeepMirror(q, tr, re, tr[id := t], re, OfTransfer(id));
    EndMirrors(q, tr[id := t], re, OfTransfer(id));
  }

  lemma ReturnAdvances(q: Queue, tr: Transfers, re: Returns, id: string, r: R.Return, e: Event<A.Action>, q': Queue)
    requires MirroredBut(q, tr, re, OfReturn(id)) && Added(q, e, q')
    requires NextOfReturn(id, r) == Some((e.action, e.time))
    ensures Mirrored(q', tr, re[id := r])
  {
    OthersKeepMirror(q, tr, re, tr, re[id := r], OfReturn(id));
    PushMirrors(q, e, q', tr, re[id := r]);
  }

  lemma ReturnEnds(q: Queue, tr: Transfers, re: Returns, id: string, r: R.Return)
    requires MirroredBut(q, tr, re, OfReturn(id))
    requires r.status == R.Completed || r.status == R.Rejected
    ensures Mirrored(q, tr, re[id := r])
  {
    OthersKeepMirror(q, tr, re, tr, re[id := r], OfReturn(id));
    EndMirrors(q, tr, re[id := r], OfReturn(id));
  }

  // ----- Taking an event -----

  lemma TimelyLater(entries: seq<Entry>, base: seq<Entry>, now: nat, later: nat, tr: Transfers)
    requires Timely(entries, base, now, tr) && now <= later
    ensures Timely(entries, base, later, tr)
  {
  }

  lemma LaterBooks(w: R.World, base: seq<Entry>, agenda: Agenda<A.Action>)
    requires Books(w, base) && w.net.agenda.now <= agenda.now
    ensures Books(R.Timed(w, agenda), base)
  {
    TimelyLater(w.net.entries, base, w.net.agenda.now, agenda.now, w.net.transfers);
  }

  lemma TakeTurn(w: R.World)
    requires Clocked(w.net.agenda) && Mirrored(w.net.agenda.queue, w.net.transfers, w.returned) && w.net.agenda.queue != []
    ensures TakeNext(w.net.agenda).Due?
    ensures var Due(e, rest) := TakeNext(w.net.agenda);
            Turn(R.Timed(w, rest), e) && w.net.agenda.now <= rest.now && e == w.net.agenda.queue[0]
  {
    TakeNextValid(w.net.agenda);
    var Due(e, rest) := TakeNext(w.net.agenda);
    TakeMirrors(w.net.agenda.queue, e, rest.queue, w.net.transfers, w.returned);
  }

  // ----- Moves of a transfer that touch neither hold nor ledger -----

  ghost function PutTransfer(w: R.World, id: string, t: A.Transfer): R.World {
    w.(net := A.Put(w.net, id, t))
  }

  lemma ReturnsAreKnown(w: R.World)
    requires Returning(w.net.transfers, w.returned, w.byTransfer)
    ensures ReturnsKnown(w.net.transfers, w.returned)
  {
  }

  /** From one status to another, neither of them completed. */
  ghost predicate Underway(w: R.World, id: string, t: A.Transfer) {
    && id in w.net.transfers && t.request == w.net.transfers[id].request
    && t.status != A.Completed && w.net.transfers[id].status != A.Completed
  }

  lemma MoveAccounts(w: R.World, base: seq<Entry>, id: string, t: A.Transfer)
    requires Accounts(w, base) && ReturnsKnown(w.net.transfers, w.returned)
    requires Underway(w, id, t) && InFlight(t) == InFlight(w.net.transfers[id])
    ensures Accounts(PutTransfer(w, id, t), base)
  {
    var n := w.net;
    HoldingKept(n.pending, n.ids, n.transfers, id, t);
    BalancedKept(n.entries, base, n.ids, n.transfers, w.rids, w.returned, id, t);
  }

  lemma GoodTransferPut(tr: Transfers, id: string, t: A.Transfer)
    requires GoodTransfers(tr) && GoodTransfer(id, t)
    ensures GoodTransfers(tr[id := t])
  {
  }

  lemma DueKept(base: seq<Entry>, tr: Transfers, re: Returns, id: string, t: A.Transfer)
    requires OnlyIfDue(base, tr, re)
    requires t.status == A.Completed ==> (Debited(t) <==> DebitDue(base, id))
    ensures OnlyIfDue(base, tr[id := t], re)
  {
  }

  lemma MoveRecords(w: R.World, base: seq<Entry>, id: string, t: A.Transfer)
    requires Records(w, base) && (id in w.net.transfers ==> w.net.transfers[id].status != A.Completed)
    requires t.status != A.Completed && GoodTransfer(id, t)
    ensures Records(PutTransfer(w, id, t), base)
  {
    GoodTransferPut(w.net.transfers, id, t);
    DueKept(base, w.net.transfers, w.returned, id, t);
    TransferKept(w.net.entries, base, w.net.transfers, w.returned, id, t);
    ReturningKept(w.net.transfers, w.returned, w.byTransfer, id, t);
  }

  lemma MoveBooks(w: R.World, base: seq<Entry>, id: string, t: A.Transfer)
    requires Books(w, base) && Underway(w, id, t) && InFlight(t) == InFlight(w.net.transfers[id]) && GoodTransfer(id, t)
    ensures Books(PutTransfer(w, id, t), base)
  {
    ReturnsAreKnown(w);
    MoveAccounts(w, base, id, t);
    MoveRecords(w, base, id, t);
  }

  /** The books do not look at the queue or the submissions. */
  ghost predicate SameBooks(w: R.World, w': R.World) {
    && w'.net.agenda.now == w.net.agenda.now && w'.net.entries == w.net.entries
    && w'.net.ids == w.net.ids && w'.net.transfers == w.net.transfers && w'.net.pending == w.net.pending
    && w'.rids == w.rids && w'.returned == w.returned && w'.byTransfer == w.byTransfer
  }

  lemma BooksFrame(w: R.World, w': R.World, base: seq<Entry>)
    requires Books(w, base) && SameBooks(w, w')
    ensures Books(w', base)
  {
  }

  // ----- What is known when a transfer's turn has come -----

  /** The turn of a transfer that is in order. */
  ghost predicate TransferReady(w: R.World, e: Event<A.Action>) {
    && Clocked(w.net.agenda)
    && SubjectOf(e.action).OfTransfer? && w.net.agenda.now == e.time
    && e.action.transfer in w.net.transfers && GoodTransfer(e.action.transfer, w.net.transfers[e.action.transfer])
    && NextOf(e.action.transfer, w.net.transfers[e.action.transfer]) == Some((e.action, e.time))
    && MirroredBut(w.net.agenda.queue, w.net.transfers, w.returned, OfTransfer(e.action.transfer))
  }

  lemma TransferTurn(w: R.World, e: Event<A.Action>)
    requires Turn(w, e) && GoodTransfers(w.net.transfers) && SubjectOf(e.action).OfTransfer?
    ensures TransferReady(w, e)
  {
  }

  lemma Runs(w: R.World, e: Event<A.Action>, base: seq<Entry>, s: R.Stepped)
    requires R.Known(w, e.action) && R.Execute(w, e.action) == s
    requires Inv(s.world, base) && (s.raised <==> Raises(w, e, base))
    ensures WellRun(w, e, base)
  {
  }

  /** The transfer moves on and its next step is scheduled. */
  lemma Moves(w: R.World, base: seq<Entry>, id: string, t: A.Transfer, n: A.Network, time: nat, action: A.Action)
    requires Clocked(w.net.agenda) && w.net.agenda.now <= time
    requires MirroredBut(w.net.agenda.queue, w.net.transfers, w.returned, OfTransfer(id))
    requires NextOf(id, t) == Some((action, time))
    requires n.agenda == w.net.agenda && n.transfers == w.net.transfers[id := t] && Books(w.(net := n), base)
    ensures var s := A.Schedule(n, time, action); !s.raised && Inv(w.(net := s.network), base)
  {
    Scheduled(n, time, action);
    var s := A.Schedule(n, time, action);
    TransferAdvances(w.net.agenda.queue, w.net.transfers, w.returned, id, t,
                     Event(time, n.agenda.nextOrder, action), s.network.agenda.queue);
    BooksFrame(w.(net := n), w.(net := s.network), base);
  }

  /** The action moves its transfer on to `t`, leaving `n`, and schedules the next step. */
  ghost predicate MovesOn(w: R.World, e: Event<A.Action>, n: A.Network, t: A.Transfer, time: nat, action: A.Action)
    requires R.Known(w, e.action) && SubjectOf(e.action).OfTransfer?
  {
    && n.agenda == w.net.agenda && n.transfers == w.net.transfers[e.action.transfer := t] && e.time <= time
    && NextOf(e.action.transfer, t) == Some((action, time))
    && R.Execute(w, e.action) == R.Lift(w, A.Schedule(n, time, action))
  }

  lemma RunsOn(w: R.World, e: Event<A.Action>, base: seq<Entry>, n: A.Network, t: A.Transfer, time: nat, action: A.Action)
    requires TransferReady(w, e) && !Raises(w, e, base)
    requires MovesOn(w, e, n, t, time, action) && Books(w.(net := n), base)
    ensures WellRun(w, e, base)
  {
    Moves(w, base, e.action.transfer, t, n, time, action);
    Runs(w, e, base, R.Lift(w, A.Schedule(n, time, action)));
  }

  lemma Ends(w: R.World, base: seq<Entry>, id: string, t: A.Transfer, w': R.World)
    requires Clocked(w.net.agenda) && MirroredBut(w.net.agenda.queue, w.net.transfers, w.returned, OfTransfer(id))
    requires NextOf(id, t).None?
    requires w'.net.agenda == w.net.agenda && w'.net.transfers == w.net.transfers[id := t] && w'.returned == w.returned
    requires Books(w', base)
    ensures Inv(w', base)
  {
    TransferEnds(w.net.agenda.queue, w.net.transfers, w.returned, id, t);
  }

  /** The action takes its transfer to `t`, where nothing follows, and leaves `w'`. */
  ghost predicate Stops(w: R.World, e: Event<A.Action>, w': R.World, t: A.Transfer, raised: bool)
    requires R.Known(w, e.action) && SubjectOf(e.action).OfTransfer?
  {
    && w'.net.agenda == w.net.agenda && w'.net.transfers == w.net.transfers[e.action.transfer := t]
    && w'.returned == w.returned && NextOf(e.action.transfer, t).None?
    && R.Execute(w, e.action) == R.Stepped(w', raised)
  }

  lemma RunsOut(w: R.World, e: Event<A.Action>, base: seq<Entry>, w': R.World, t: A.Transfer, raised: bool)
    requires TransferReady(w, e) && Stops(w, e, w', t, raised) && Books(w', base) && (raised <==> Raises(w, e, base))
    ensures WellRun(w, e, base)
  {
    Ends(w, base, e.action.transfer, t, w');
    Runs(w, e, base, R.Stepped(w', raised));
  }

  // ----- Validation -----

  lemma RejectedIsGood(id: string, t: A.Transfer, reason: Option<A.Reason>)
    requires GoodTransfer(id, t) && t.status == A.Received && reason.Some?
    ensures GoodTransfer(id, A.Moved(t, A.Rejected, 1).(reason := reason))
  {
  }

  lemma ValidatedIsGood(id: string, t: A.Transfer)
    requires GoodTransfer(id, t) && t.status == A.Received && A.InvalidReason(t.request).None?
    ensures GoodTransfer(id, A.Moved(t, A.Validated, 1))
  {
  }

  ghost function Refused(w: R.World, id: string): A.Transfer
    requires id in w.net.transfers
  {
    A.Moved(w.net.transfers[id], A.Rejected, 1).(reason := A.Refusal(w.net, w.net.transfers[id]))
  }

  lemma RefuseIs(w: R.World, e: Event<A.Action>)
    requires TransferReady(w, e) && e.action.Validate? && A.Refusal(w.net, w.net.transfers[e.action.transfer]).Some?
    ensures var id := e.action.transfer; Stops(w, e, PutTransfer(w, id, Refused(w, id)), Refused(w, id), false)
  {
  }

  lemma RefuseBooks(w: R.World, base: seq<Entry>, id: string)
    requires Books(w, base) && id in w.net.transfers && GoodTransfer(id, w.net.transfers[id])
    requires w.net.transfers[id].status == A.Received && A.Refusal(w.net, w.net.transfers[id]).Some?
    ensures Books(PutTransfer(w, id, Refused(w, id)), base)
  {
    RejectedIsGood(id, w.net.transfers[id], A.Refusal(w.net, w.net.transfers[id]));
    MoveBooks(w, base, id, Refused(w, id));
  }

  lemma RefuseRuns(w: R.World, e: Event<A.Action>, base: seq<Entry>)
    requires TransferReady(w, e) && Books(w, base) && e.action.Validate?
    requires A.Refusal(w.net, w.net.transfers[e.action.transfer]).Some?
    ensures WellRun(w, e, base)
  {
    var id := e.action.transfer;
    RefuseIs(w, e);
    RefuseBooks(w, base, id);
    RunsOut(w, e, base, PutTransfer(w, id, Refused(w, id)), Refused(w, id), false);
  }

  lemma AcceptIs(w: R.World, e: Event<A.Action>, moved: A.Transfer)
    requires TransferReady(w, e) && e.action.Validate? && A.Refusal(w.net, w.net.transfers[e.action.transfer]).None?
    requires moved == A.Moved(w.net.transfers[e.action.transfer], A.Validated, 1)
    ensures MovesOn(w, e, PutTransfer(w, e.action.transfer, moved).net, moved, 2, A.MarkPending(e.action.transfer))
  {
  }

  lemma AcceptBooks(w: R.World, base: seq<Entry>, id: string, moved: A.Transfer)
    requires Books(w, base) && id in w.net.transfers && GoodTransfer(id, w.net.transfers[id])
    requires w.net.transfers[id].status == A.Received && A.Refusal(w.net, w.net.transfers[id]).None?
    requires moved == A.Moved(w.net.transfers[id], A.Validated, 1)
    ensures Books(PutTransfer(w, id, moved), base)
  {
    ValidatedIsGood(id, w.net.transfers[id]);
    MoveBooks(w, base, id, moved);
  }

  lemma AcceptRuns(w: R.World, e: Event<A.Action>, base: seq<Entry>)
    requires TransferReady(w, e) && Books(w, base) && e.action.Validate?
    requires A.Refusal(w.net, w.net.transfers[e.action.transfer]).None?
    ensures WellRun(w, e, base)
  {
    var id := e.action.transfer;
    var moved := A.Moved(w.net.transfers[id], A.Validated, 1);
    AcceptIs(w, e, moved);
    AcceptBooks(w, base, id, moved);
    RunsOn(w, e, base, PutTransfer(w, id, moved).net, moved, 2, A.MarkPending(id));
  }

  // ----- Submission and processing -----

  lemma SubmittedIsGood(id: string, t: A.Transfer)
    requires GoodTransfer(id, t) && t.status == A.Pending && !A.Flawed(t.request)
    ensures GoodTransfer(id, A.Moved(t, A.Submitted, 3))
  {
  }

  lemma ProcessingIsGood(id: string, t: A.Transfer)
    requires GoodTransfer(id, t) && t.status == A.Submitted
    ensures GoodTransfer(id, A.Moved(t, A.Processing, 5))
  {
  }

  ghost function Sent(w: R.World, id: string, t: A.Transfer): R.World {
    w.(net := A.Put(w.net, id, t).(submissions := w.net.submissions + [id]))
  }

  lemma SubmitIs(w: R.World, e: Event<A.Action>, moved: A.Transfer)
    requires TransferReady(w, e) && e.action.Submit?
    requires moved == A.Moved(w.net.transfers[e.action.transfer], A.Submitted, 3)
    ensures MovesOn(w, e, Sent(w, e.action.transfer, moved).net, moved, 5, A.Process(e.action.transfer))
  {
  }

  lemma SubmitBooks(w: R.World, base: seq<Entry>, id: string, moved: A.Transfer)
    requires Books(w, base) && id in w.net.transfers && GoodTransfer(id, w.net.transfers[id])
    requires w.net.transfers[id].status == A.Pending && !A.Flawed(w.net.transfers[id].request)
    requires moved == A.Moved(w.net.transfers[id], A.Submitted, 3)
    ensures Books(Sent(w, id, moved), base)
  {
    SubmittedIsGood(id, w.net.transfers[id]);
    MoveBooks(w, base, id, moved);
    BooksFrame(PutTransfer(w, id, moved), Sent(w, id, moved), base);
  }

  lemma SubmitRuns(w: R.World, e: Event<A.Action>, base: seq<Entry>)
    requires TransferReady(w, e) && Books(w, base) && e.action.Submit?
    ensures WellRun(w, e, base)
  {
    var id := e.action.transfer;
    var moved := A.Moved(w.net.transfers[id], A.Submitted, 3);
    SubmitIs(w, e, moved);
    SubmitBooks(w, base, id, moved);
    RunsOn(w, e, base, Sent(w, id, moved).net, moved, 5, A.Process(id));
  }

  lemma ProcessIs(w: R.World, e: Event<A.Action>, moved: A.Transfer)
    requires TransferReady(w, e) && e.action.Process?
    requires moved == A.Moved(w.net.transfers[e.action.transfer], A.Processing, 5)
    ensures MovesOn(w, e, PutTransfer(w, e.action.transfer, moved).net, moved, 10, A.Complete(e.action.transfer))
  {
  }

  lemma ProcessBooks(w: R.World, base: seq<Entry>, id: string, moved: A.Transfer)
    requires Books(w, base) && id in w.net.transfers && GoodTransfer(id, w.net.transfers[id])
    requires w.net.transfers[id].status == A.Submitted
    requires moved == A.Moved(w.net.transfers[id], A.Processing, 5)
    ensures Books(PutTransfer(w, id, moved), base)
  {
    ProcessingIsGood(id, w.net.transfers[id]);
    MoveBooks(w, base, id, moved);
  }

  lemma ProcessRuns(w: R.World, e: Event<A.Action>, base: seq<Entry>)
    requires TransferReady(w, e) && Books(w, base) && e.action.Process?
    ensures WellRun(w, e, base)
  {
    var id := e.action.transfer;
    var moved := A.Moved(w.net.transfers[id], A.Processing, 5);
    ProcessIs(w, e, moved);
    ProcessBooks(w, base, id, moved);
    RunsOn(w, e, base, PutTransfer(w, id, moved).net, moved, 10, A.Complete(id));
  }

  // ----- Taking the hold -----

  lemma PendingIsGood(id: string, t: A.Transfer)
    requires GoodTransfer(id, t) && t.status == A.Validated
    ensures GoodTransfer(id, A.Moved(t, A.Pending, 2))
  {
  }

  ghost function Held(w: R.World, id: string, t: A.Transfer): R.World {
    w.(net := A.Put(w.net, id, t).(pending := w.net.pending + [A.HoldOf(t, |w.net.pending| + 1)]))
  }

  lemma HeldAccounts(w: R.World, base: seq<Entry>, id: string, t: A.Transfer)
    requires Accounts(w, base) && ReturnsKnown(w.net.transfers, w.returned) && Underway(w, id, t)
    requires InFlight(t) && !InFlight(w.net.transfers[id]) && t.request.id == id
    ensures Accounts(Held(w, id, t), base)
  {
    var n := w.net;
    HoldingTaken(n.pending, n.ids, n.transfers, A.HoldOf(t, |n.pending| + 1), t);
    BalancedKept(n.entries, base, n.ids, n.transfers, w.rids, w.returned, id, t);
  }

  lemma RecordsFrame(w: R.World, w': R.World, base: seq<Entry>)
    requires Records(w, base)
    requires w'.net.agenda.now == w.net.agenda.now && w'.net.entries == w.net.entries && w'.net.transfers == w.net.transfers
    requires w'.returned == w.returned && w'.byTransfer == w.byTransfer
    ensures Records(w', base)
  {
  }

  lemma HeldBooks(w: R.World, base: seq<Entry>, id: string, t: A.Transfer)
    requires Books(w, base) && Underway(w, id, t)
    requires InFlight(t) && !InFlight(w.net.transfers[id]) && GoodTransfer(id, t)
    ensures Books(Held(w, id, t), base)
  {
    ReturnsAreKnown(w);
    HeldAccounts(w, base, id, t);
    MoveRecords(w, base, id, t);
    RecordsFrame(PutTransfer(w, id, t), Held(w, id, t), base);
  }

  lemma FlawIs(w: R.World, e: Event<A.Action>, moved: A.Transfer)
    requires TransferReady(w, e) && e.action.MarkPending? && A.Flawed(w.net.transfers[e.action.transfer].request)
    requires moved == A.Moved(w.net.transfers[e.action.transfer], A.Pending, 2)
    ensures Stops(w, e, PutTransfer(w, e.action.transfer, moved), moved, true)
  {
  }

  lemma FlawBooks(w: R.World, base: seq<Entry>, id: string, moved: A.Transfer)
    requires Books(w, base) && id in w.net.transfers && GoodTransfer(id, w.net.transfers[id])
    requires w.net.transfers[id].status == A.Validated && A.Flawed(w.net.transfers[id].request)
    requires moved == A.Moved(w.net.transfers[id], A.Pending, 2)
    ensures Books(PutTransfer(w, id, moved), base)
  {
    PendingIsGood(id, w.net.transfers[id]);
    MoveBooks(w, base, id, moved);
  }

  lemma FlawRuns(w: R.World, e: Event<A.Action>, base: seq<Entry>)
    requires TransferReady(w, e) && Books(w, base) && e.action.MarkPending?
    requires A.Flawed(w.net.transfers[e.action.transfer].request)
    ensures WellRun(w, e, base)
  {
    var id := e.action.transfer;
    var moved := A.Moved(w.net.transfers[id], A.Pending, 2);
    FlawIs(w, e, moved);
    FlawBooks(w, base, id, moved);
    RunsOut(w, e, base, PutTransfer(w, id, moved), moved, true);
  }

  lemma HoldIs(w: R.World, e: Event<A.Action>, moved: A.Transfer)
    requires TransferReady(w, e) && e.action.MarkPending? && !A.Flawed(w.net.transfers[e.action.transfer].request)
    requires moved == A.Moved(w.net.transfers[e.action.transfer], A.Pending, 2)
    ensures MovesOn(w, e, Held(w, e.action.transfer, moved).net, moved, 3, A.Submit(e.action.transfer))
  {
  }

  lemma HoldBooks(w: R.World, base: seq<Entry>, id: string, moved: A.Transfer)
    requires Books(w, base) && id in w.net.transfers && GoodTransfer(id, w.net.transfers[id])
    requires w.net.transfers[id].status == A.Validated && !A.Flawed(w.net.transfers[id].request)
    requires moved == A.Moved(w.net.transfers[id], A.Pending, 2)
    ensures Books(Held(w, id, moved), base)
  {
    PendingIsGood(id, w.net.transfers[id]);
    HeldBooks(w, base, id, moved);
  }

  lemma HoldRuns(w: R.World, e: Event<A.Action>, base: seq<Entry>)
    requires TransferReady(w, e) && Books(w, base) && e.action.MarkPending?
    requires !A.Flawed(w.net.transfers[e.action.transfer].request)
    ensures WellRun(w, e, base)
  {
    var id := e.action.transfer;
    var moved := A.Moved(w.net.transfers[id], A.Pending, 2);
    HoldIs(w, e, moved);
    HoldBooks(w, base, id, moved);
    RunsOn(w, e, base, Held(w, id, moved).net, moved, 3, A.Submit(id));
  }

  // ----- Completion -----

  ghost function Finished(t: A.Transfer): A.Transfer {
    A.Moved(A.Moved(t, A.Completed, 10), A.Completed, 10)
  }

  lemma FinishedIsGood(id: string, t: A.Transfer)
    requires GoodTransfer(id, t) && t.status == A.Processing
    ensures GoodTransfer(id, Finished(t)) && Debited(Finished(t))
    ensures GoodTransfer(id, A.Moved(t, A.Completed, 10)) && !Debited(A.Moved(t, A.Completed, 10))
  {
  }

  /** The ledger takes the debit of a transfer that was processing, exactly when its start allowed it. */
  lemma DebitTaken(w: R.World, base: seq<Entry>, id: string)
    requires LedgerRecords(w, base) && w.net.agenda.now == 10 && id in w.net.transfers
    requires GoodTransfer(id, w.net.transfers[id]) && w.net.transfers[id].status == A.Processing
    ensures w.net.transfers[id].request.cents > 0 && !A.Blank(w.net.transfers[id].request.account)
    ensures Objection(w.net.entries, A.DebitOf(w.net.transfers[id], |w.net.entries| + 1)) == None <==> DebitDue(base, id)
  {
    assert PaymentDebit(id) in Ids(w.net.entries) <==> PaymentDebit(id) in Ids(base);
  }

  lemma PostedHolding(n: A.Network, id: string)
    requires Filed(n.ids, n.transfers) && Holding(n.pending, n.ids, n.transfers)
    requires id in n.transfers && InFlight(n.transfers[id])
    ensures var tr := n.transfers[id := Finished(n.transfers[id])];
            Holding(A.Released(n.pending, id), n.ids, tr) && Filed(n.ids, tr)
    ensures var tr := n.transfers[id := A.Moved(n.transfers[id], A.Completed, 10)];
            Holding(A.Released(n.pending, id), n.ids, tr) && Filed(n.ids, tr)
  {
    HoldingGivenUp(n.pending, n.ids, n.transfers, id, Finished(n.transfers[id]));
    HoldingGivenUp(n.pending, n.ids, n.transfers, id, A.Moved(n.transfers[id], A.Completed, 10));
  }

  lemma PostedBalanced(n: A.Network, base: seq<Entry>, rids: seq<string>, re: Returns, id: string)
    requires Filed(n.ids, n.transfers) && ReturnsKnown(n.transfers, re)
    requires Balanced(n.entries, base, n.ids, n.transfers, rids, re)
    requires id in n.transfers && !Debited(n.transfers[id]) && Debited(Finished(n.transfers[id]))
    requires n.transfers[id].request.cents > 0
    ensures var p := A.Posted(n, id); Balanced(p.entries, base, p.ids, p.transfers, rids, re)
  {
    var t := n.transfers[id];
    BalancedDebited(n.entries, base, n.ids, n.transfers, rids, re, id, Finished(t), A.DebitOf(t, |n.entries| + 1));
  }

  lemma PostedAccounts(w: R.World, base: seq<Entry>, id: string)
    requires Accounts(w, base) && ReturnsKnown(w.net.transfers, w.returned)
    requires id in w.net.transfers && InFlight(w.net.transfers[id]) && w.net.transfers[id].request.cents > 0
    requires Debited(Finished(w.net.transfers[id]))
    ensures Accounts(w.(net := A.Posted(w.net, id)), base)
  {
    PostedHolding(w.net, id);
    PostedBalanced(w.net, base, w.rids, w.returned, id);
  }

  lemma PostedLedger(w: R.World, base: seq<Entry>, id: string)
    requires LedgerRecords(w, base) && w.net.agenda.now == 10 && id in w.net.transfers
    requires w.net.transfers[id].request.cents > 0 && w.net.transfers[id].request.id == id
    requires Debited(Finished(w.net.transfers[id])) && DebitDue(base, id)
    requires Objection(w.net.entries, A.DebitOf(w.net.transfers[id], |w.net.entries| + 1)) == None
    ensures LedgerRecords(w.(net := A.Posted(w.net, id)), base)
  {
    var n, t := w.net, w.net.transfers[id];
    var debit := A.DebitOf(t, |n.entries| + 1);
    AppendSound(n.entries, debit);
    DebitPosted(n.entries, base, n.transfers, w.returned, id, Finished(t), debit);
    DueKept(base, n.transfers, w.returned, id, Finished(t));
  }

  lemma PostedRecords(w: R.World, base: seq<Entry>, id: string)
    requires Records(w, base) && w.net.agenda.now == 10 && id in w.net.transfers
    requires w.net.transfers[id].status == A.Processing && w.net.transfers[id].request.cents > 0
    requires GoodTransfer(id, Finished(w.net.transfers[id])) && Debited(Finished(w.net.transfers[id]))
    requires DebitDue(base, id)
    requires Objection(w.net.entries, A.DebitOf(w.net.transfers[id], |w.net.entries| + 1)) == None
    ensures Records(w.(net := A.Posted(w.net, id)), base)
  {
    PostedLedger(w, base, id);
    GoodTransferPut(w.net.transfers, id, Finished(w.net.transfers[id]));
    ReturningKept(w.net.transfers, w.returned, w.byTransfer, id, Finished(w.net.transfers[id]));
  }

  ghost function Dropped(w: R.World, id: string): R.World
    requires id in w.net.transfers
  {
    w.(net := A.Unposted(w.net, id))
  }

  lemma DroppedAccounts(w: R.World, base: seq<Entry>, id: string)
    requires Accounts(w, base) && ReturnsKnown(w.net.transfers, w.returned)
    requires id in w.net.transfers && InFlight(w.net.transfers[id])
    requires !Debited(A.Moved(w.net.transfers[id], A.Completed, 10))
    ensures Accounts(Dropped(w, id), base)
  {
    var n := w.net;
    PostedHolding(n, id);
    BalancedKept(n.entries, base, n.ids, n.transfers, w.rids, w.returned, id, A.Moved(n.transfers[id], A.Completed, 10));
  }

  lemma DroppedRecords(w: R.World, base: seq<Entry>, id: string)
    requires Records(w, base) && w.net.agenda.now == 10 && !DebitDue(base, id)
    requires id in w.net.transfers && w.net.transfers[id].status == A.Processing
    requires var t := A.Moved(w.net.transfers[id], A.Completed, 10); GoodTransfer(id, t) && !Debited(t)
    ensures Records(Dropped(w, id), base)
  {
    var t := A.Moved(w.net.transfers[id], A.Completed, 10);
    GoodTransferPut(w.net.transfers, id, t);
    DueKept(base, w.net.transfers, w.returned, id, t);
    TransferKept(w.net.entries, base, w.net.transfers, w.returned, id, t);
    ReturningKept(w.net.transfers, w.returned, w.byTransfer, id, t);
  }

  lemma DebitFits(w: R.World, e: Event<A.Action>, base: seq<Entry>)
    requires TransferReady(w, e) && Books(w, base) && e.action.Complete?
    ensures w.net.transfers[e.action.transfer].request.cents > 0
    ensures Objection(w.net.entries, A.DebitOf(w.net.transfers[e.action.transfer], |w.net.entries| + 1)) == None
            <==> DebitDue(base, e.action.transfer)
  {
    DebitTaken(w, base, e.action.transfer);
  }

  lemma PostIs(w: R.World, e: Event<A.Action>)
    requires TransferReady(w, e) && e.action.Complete? && w.net.transfers[e.action.transfer].request.cents > 0
    requires Objection(w.net.entries, A.DebitOf(w.net.transfers[e.action.transfer], |w.net.entries| + 1)) == None
    ensures var id := e.action.transfer;
            Stops(w, e, w.(net := A.Posted(w.net, id)), Finished(w.net.transfers[id]), false)
  {
  }

  lemma DropIs(w: R.World, e: Event<A.Action>)
    requires TransferReady(w, e) && e.action.Complete? && w.net.transfers[e.action.transfer].request.cents > 0
    requires Objection(w.net.entries, A.DebitOf(w.net.transfers[e.action.transfer], |w.net.entries| + 1)).Some?
    ensures var id := e.action.transfer;
            Stops(w, e, Dropped(w, id), A.Moved(w.net.transfers[id], A.Completed, 10), true)
  {
  }

  lemma PostBooks(w: R.World, base: seq<Entry>, id: string)
    requires Books(w, base) && w.net.agenda.now == 10 && DebitDue(base, id)
    requires id in w.net.transfers && GoodTransfer(id, w.net.transfers[id]) && w.net.transfers[id].status == A.Processing
    requires w.net.transfers[id].request.cents > 0
    requires Objection(w.net.entries, A.DebitOf(w.net.transfers[id], |w.net.entries| + 1)) == None
    ensures Books(w.(net := A.Posted(w.net, id)), base)
  {
    FinishedIsGood(id, w.net.transfers[id]);
    ReturnsAreKnown(w);
    PostedAccounts(w, base, id);
    PostedRecords(w, base, id);
  }

  lemma PostRuns(w: R.World, e: Event<A.Action>, base: seq<Entry>)
    requires TransferReady(w, e) && Books(w, base) && e.action.Complete? && DebitDue(base, e.action.transfer)
    ensures WellRun(w, e, base)
  {
    var id := e.action.transfer;
    DebitFits(w, e, base);
    PostIs(w, e);
    PostBooks(w, base, id);
    RunsOut(w, e, base, w.(net := A.Posted(w.net, id)), Finished(w.net.transfers[id]), false);
  }

  lemma DropBooks(w: R.World, base: seq<Entry>, id: string)
    requires Books(w, base) && w.net.agenda.now == 10 && !DebitDue(base, id)
    requires id in w.net.transfers && GoodTransfer(id, w.net.transfers[id]) && w.net.transfers[id].status == A.Processing
    ensures Books(Dropped(w, id), base)
  {
    FinishedIsGood(id, w.net.transfers[id]);
    ReturnsAreKnown(w);
    DroppedAccounts(w, base, id);
    DroppedRecords(w, base, id);
  }

  lemma DropRuns(w: R.World, e: Event<A.Action>, base: seq<Entry>)
    requires TransferReady(w, e) && Books(w, base) && e.action.Complete? && !DebitDue(base, e.action.transfer)
    ensures WellRun(w, e, base)
  {
    var id := e.action.transfer;
    DebitFits(w, e, base);
    DropIs(w, e);
    DropBooks(w, base, id);
    RunsOut(w, e, base, Dropped(w, id), A.Moved(w.net.transfers[id], A.Completed, 10), true);
  }

  // ----- Moves of a return -----

  /** The turn of a return that is in order. */
  ghost predicate ReturnReady(w: R.World, e: Event<A.Action>) {
    && Clocked(w.net.agenda)
    && SubjectOf(e.action).OfReturn? && w.net.agenda.now == e.time
    && e.action.ret in w.returned && GoodReturn(e.action.ret, w.returned[e.action.ret])
    && NextOfReturn(e.action.ret, w.returned[e.action.ret]) == Some((e.action, e.time))
    && MirroredBut(w.net.agenda.queue, w.net.transfers, w.returned, OfReturn(e.action.ret))
  }

  lemma ReturnTurn(w: R.World, e: Event<A.Action>)
    requires Turn(w, e) && GoodReturns(w.returned) && SubjectOf(e.action).OfReturn?
    ensures ReturnReady(w, e)
  {
  }

  lemma ReturnAccounts(w: R.World, base: seq<Entry>, id: string, r: R.Return)
    requires Accounts(w, base) && id in w.returned && !Credited(r) && !Credited(w.returned[id])
    ensures Accounts(R.Put(w, id, r), base)
  {
    BalancedReturnKept(w.net.entries, base, w.net.ids, w.net.transfers, w.rids, w.returned, id, r);
  }

  lemma GoodReturnPut(re: Returns, id: string, r: R.Return)
    requires GoodReturns(re) && GoodReturn(id, r)
    ensures GoodReturns(re[id := r])
  {
  }

  lemma ReturnDueKept(base: seq<Entry>, tr: Transfers, re: Returns, id: string, r: R.Return)
    requires OnlyIfDue(base, tr, re)
    requires r.status == R.Completed ==> (Credited(r) <==> CreditDue(base, id, r.receivedAt + 5))
    ensures OnlyIfDue(base, tr, re[id := r])
  {
  }

  lemma ReturnLedger(w: R.World, base: seq<Entry>, id: string, r: R.Return)
    requires LedgerRecords(w, base) && !Credited(r) && (id in w.returned ==> !Credited(w.returned[id]))
    requires r.status == R.Completed ==> !CreditDue(base, id, r.receivedAt + 5)
    ensures LedgerRecords(R.Put(w, id, r), base)
  {
    ReturnDueKept(base, w.net.transfers, w.returned, id, r);
    ReturnKept(w.net.entries, base, w.net.transfers, w.returned, id, r);
  }

  lemma ReturnRecords(w: R.World, base: seq<Entry>, id: string, r: R.Return)
    requires Records(w, base) && id in w.returned && r.request == w.returned[id].request && GoodReturn(id, r)
    requires !Credited(r) && !Credited(w.returned[id]) && Active(r.status) == Active(w.returned[id].status)
    requires r.status == R.Completed ==> !CreditDue(base, id, r.receivedAt + 5)
    ensures Records(R.Put(w, id, r), base)
  {
    ReturnLedger(w, base, id, r);
    GoodReturnPut(w.returned, id, r);
    ReturnMoves(w.net.transfers, w.returned, w.byTransfer, id, r);
  }

  lemma ReturnBooks(w: R.World, base: seq<Entry>, id: string, r: R.Return)
    requires Books(w, base) && id in w.returned && r.request == w.returned[id].request && GoodReturn(id, r)
    requires !Credited(r) && !Credited(w.returned[id]) && Active(r.status) == Active(w.returned[id].status)
    requires r.status == R.Completed ==> !CreditDue(base, id, r.receivedAt + 5)
    ensures Books(R.Put(w, id, r), base)
  {
    ReturnAccounts(w, base, id, r);
    ReturnRecords(w, base, id, r);
  }

  ghost function Accepted(w: R.World, id: string, r: R.Return): R.World {
    R.Put(w, id, r).(byTransfer := w.byTransfer[r.request.transfer := id])
  }

  lemma AcceptedRecords(w: R.World, base: seq<Entry>, id: string, r: R.Return)
    requires Records(w, base) && id in w.returned && r.request == w.returned[id].request && GoodReturn(id, r)
    requires w.returned[id].status == R.Received && r.status == R.Validated
    requires R.InvalidReason(w, r.request).None?
    ensures Records(Accepted(w, id, r), base)
  {
    ReturnLedger(w, base, id, r);
    GoodReturnPut(w.returned, id, r);
    ReturnAccepted(w.net.transfers, w.returned, w.byTransfer, id, r);
  }

  lemma AcceptedBooks(w: R.World, base: seq<Entry>, id: string, r: R.Return)
    requires Books(w, base) && id in w.returned && r.request == w.returned[id].request && GoodReturn(id, r)
    requires w.returned[id].status == R.Received && r.status == R.Validated
    requires R.InvalidReason(w, r.request).None?
    ensures Books(Accepted(w, id, r), base)
  {
    ReturnAccounts(w, base, id, r);
    AcceptedRecords(w, base, id, r);
  }

  /** The return moves on and its next step is scheduled. */
  lemma ReturnMovesOn(w: R.World, w': R.World, base: seq<Entry>, id: string, r: R.Return,
                      delay: nat, due: nat, action: A.Action)
    requires Clocked(w.net.agenda) && MirroredBut(w.net.agenda.queue, w.net.transfers, w.returned, OfReturn(id))
    requires w'.net == w.net && w'.returned == w.returned[id := r] && Books(w', base)
    requires NextOfReturn(id, r) == Some((action, due)) && due == w.net.agenda.now + delay
    ensures Inv(R.Later(w', delay, action), base)
  {
    var agenda := w.net.agenda;
    ScheduleAfterValid(agenda, delay, action);
    ReturnAdvances(agenda.queue, w.net.transfers, w.returned, id, r,
                   Event(agenda.now + delay, agenda.nextOrder, action), ScheduleAfter(agenda, delay, action).queue);
    BooksFrame(w', R.Later(w', delay, action), base);
  }

  lemma ReturnStops(w: R.World, base: seq<Entry>, id: string, r: R.Return, w': R.World)
    requires Clocked(w.net.agenda) && MirroredBut(w.net.agenda.queue, w.net.transfers, w.returned, OfReturn(id))
    requires r.status == R.Completed || r.status == R.Rejected
    requires w'.net.agenda == w.net.agenda && w'.net.transfers == w.net.transfers && w'.returned == w.returned[id := r]
    requires Books(w', base)
    ensures Inv(w', base)
  {
    ReturnEnds(w.net.agenda.queue, w.net.transfers, w.returned, id, r);
  }

  // ----- The steps of a return -----

  lemma RejectedReturnIsGood(id: string, r: R.Return, reason: Option<R.Reason>)
    requires GoodReturn(id, r) && r.status == R.Received && reason.Some?
    ensures GoodReturn(id, R.Moved(r, R.Rejected, r.receivedAt + 1).(reason := reason))
  {
  }

  lemma ValidatedReturnIsGood(id: string, r: R.Return)
    requires GoodReturn(id, r) && r.status == R.Received && !A.Blank(r.request.id) && !A.Blank(r.request.transfer)
    ensures GoodReturn(id, R.Moved(r, R.Validated, r.receivedAt + 1))
  {
  }

  lemma ProcessingReturnIsGood(id: string, r: R.Return)
    requires GoodReturn(id, r) && r.status == R.Validated
    ensures GoodReturn(id, R.Moved(r, R.Processing, r.receivedAt + 2))
  {
  }

  lemma CorrectedReturnIsGood(id: string, r: R.Return)
    requires GoodReturn(id, r) && r.status == R.Processing
    ensures GoodReturn(id, R.Corrected(r, r.receivedAt + 5)) && Credited(R.Corrected(r, r.receivedAt + 5))
  {
  }

  lemma DroppedReturnIsGood(id: string, r: R.Return)
    requires GoodReturn(id, r) && r.status == R.Processing
    ensures GoodReturn(id, R.Moved(r, R.Completed, r.receivedAt + 5)) && !Credited(R.Moved(r, R.Completed, r.receivedAt + 5))
  {
  }

  ghost function RefusedReturn(w: R.World, id: string): R.Return
    requires id in w.returned
  {
    var r := w.returned[id];
    R.Moved(r, R.Rejected, w.net.agenda.now).(reason := R.InvalidReason(w, r.request))
  }

  lemma RejectReturnIs(w: R.World, id: string)
    requires id in w.returned && w.returned[id].status == R.Received && R.InvalidReason(w, w.returned[id].request).Some?
    ensures R.Execute(w, A.ValidateReturn(id)) == R.Stepped(R.Put(w, id, RefusedReturn(w, id)), false)
  {
  }

  lemma RejectReturnBooks(w: R.World, base: seq<Entry>, id: string)
    requires Books(w, base) && id in w.returned && GoodReturn(id, w.returned[id])
    requires w.returned[id].status == R.Received && w.net.agenda.now == w.returned[id].receivedAt + 1
    requires R.InvalidReason(w, w.returned[id].request).Some?
    ensures Books(R.Put(w, id, RefusedReturn(w, id)), base)
  {
    RejectedReturnIsGood(id, w.returned[id], R.InvalidReason(w, w.returned[id].request));
    ReturnBooks(w, base, id, RefusedReturn(w, id));
  }

  lemma RejectReturnRuns(w: R.World, e: Event<A.Action>, base: seq<Entry>)
    requires ReturnReady(w, e) && Books(w, base) && e.action.ValidateReturn?
    requires R.InvalidReason(w, w.returned[e.action.ret].request).Some?
    ensures WellRun(w, e, base)
  {
    var id := e.action.ret;
    RejectReturnIs(w, id);
    RejectReturnBooks(w, base, id);
    ReturnStops(w, base, id, RefusedReturn(w, id), R.Put(w, id, RefusedReturn(w, id)));
    Runs(w, e, base, R.Stepped(R.Put(w, id, RefusedReturn(w, id)), false));
  }

  /** The action moves its return on to `r` and schedules the next step. */
  ghost predicate LeadsOn(w: R.World, e: Event<A.Action>, w': R.World, r: R.Return, delay: nat, action: A.Action)
    requires R.Known(w, e.action) && SubjectOf(e.action).OfReturn?
  {
    && w'.net == w.net && w'.returned == w.returned[e.action.ret := r]
    && NextOfReturn(e.action.ret, r) == Some((action, e.time + delay))
    && R.Execute(w, e.action) == R.Stepped(R.Later(w', delay, action), false)
  }

  /** The return has moved on, and its next step is what the action schedules. */
  lemma ReturnRunsOn(w: R.World, e: Event<A.Action>, base: seq<Entry>, w': R.World, r: R.Return, delay: nat, action: A.Action)
    requires ReturnReady(w, e) && !e.action.CompleteReturn?
    requires LeadsOn(w, e, w', r, delay, action) && Books(w', base)
    ensures WellRun(w, e, base)
  {
    ReturnMovesOn(w, w', base, e.action.ret, r, delay, e.time + delay, action);
    Runs(w, e, base, R.Stepped(R.Later(w', delay, action), false));
  }

  lemma AcceptReturnIs(w: R.World, e: Event<A.Action>, moved: R.Return)
    requires ReturnReady(w, e) && e.action.ValidateReturn? && R.InvalidReason(w, w.returned[e.action.ret].request).None?
    requires moved == R.Moved(w.returned[e.action.ret], R.Validated, w.net.agenda.now)
    ensures LeadsOn(w, e, Accepted(w, e.action.ret, moved), moved, 1, A.ProcessReturn(e.action.ret))
  {
  }

  lemma AcceptReturnBooks(w: R.World, base: seq<Entry>, id: string, moved: R.Return)
    requires Books(w, base) && id in w.returned && GoodReturn(id, w.returned[id])
    requires w.returned[id].status == R.Received && w.net.agenda.now == w.returned[id].receivedAt + 1
    requires R.InvalidReason(w, w.returned[id].request).None?
    requires moved == R.Moved(w.returned[id], R.Validated, w.net.agenda.now)
    ensures Books(Accepted(w, id, moved), base)
  {
    ValidatedReturnIsGood(id, w.returned[id]);
    AcceptedBooks(w, base, id, moved);
  }

  lemma AcceptReturnRuns(w: R.World, e: Event<A.Action>, base: seq<Entry>)
    requires ReturnReady(w, e) && Books(w, base) && e.action.ValidateReturn?
    requires R.InvalidReason(w, w.returned[e.action.ret].request).None?
    ensures WellRun(w, e, base)
  {
    var id := e.action.ret;
    var moved := R.Moved(w.returned[id], R.Validated, w.net.agenda.now);
    AcceptReturnIs(w, e, moved);
    AcceptReturnBooks(w, base, id, moved);
    ReturnRunsOn(w, e, base, Accepted(w, id, moved), moved, 1, A.ProcessReturn(id));
  }

  lemma ProcessReturnIs(w: R.World, e: Event<A.Action>, moved: R.Return)
    requires ReturnReady(w, e) && e.action.ProcessReturn?
    requires moved == R.Moved(w.returned[e.action.ret], R.Processing, w.net.agenda.now)
    ensures LeadsOn(w, e, R.Put(w, e.action.ret, moved), moved, 3, A.CompleteReturn(e.action.ret))
  {
  }

  lemma ProcessReturnBooks(w: R.World, base: seq<Entry>, id: string, moved: R.Return)
    requires Books(w, base) && id in w.returned && GoodReturn(id, w.returned[id])
    requires w.returned[id].status == R.Validated && w.net.agenda.now == w.returned[id].receivedAt + 2
    requires moved == R.Moved(w.returned[id], R.Processing, w.net.agenda.now)
    ensures Books(R.Put(w, id, moved), base)
  {
    ProcessingReturnIsGood(id, w.returned[id]);
    ReturnBooks(w, base, id, moved);
  }

  lemma ProcessReturnRuns(w: R.World, e: Event<A.Action>, base: seq<Entry>)
    requires ReturnReady(w, e) && Books(w, base) && e.action.ProcessReturn?
    ensures WellRun(w, e, base)
  {
    var id := e.action.ret;
    var moved := R.Moved(w.returned[id], R.Processing, w.net.agenda.now);
    ProcessReturnIs(w, e, moved);
    ProcessReturnBooks(w, base, id, moved);
    ReturnRunsOn(w, e, base, R.Put(w, id, moved), moved, 3, A.CompleteReturn(id));
  }

  // ----- The credit -----

  ghost function CreditFor(w: R.World, id: string): Entry
    requires id in w.returned && w.returned[id].request.transfer in w.net.transfers && w.returned[id].request.cents > 0
  {
    var r := w.returned[id];
    R.CreditOf(r, w.net.transfers[r.request.transfer].request.account, |w.net.entries| + 1, w.net.agenda.now)
  }

  lemma CreditIsWritable(w: R.World, id: string)
    requires Returning(w.net.transfers, w.returned, w.byTransfer) && GoodTransfers(w.net.transfers)
    requires id in w.returned && GoodReturn(id, w.returned[id]) && w.returned[id].status == R.Processing
    ensures !R.CreditRefused(w, w.returned[id].request)
  {
    var r := w.returned[id];
    assert Corrects(r, w.net.transfers);
    assert GoodTransfer(r.request.transfer, w.net.transfers[r.request.transfer]);
  }

  /** The ledger takes the credit of a return that was processing, exactly when its start allowed it. */
  lemma CreditTaken(w: R.World, base: seq<Entry>, id: string)
    requires LedgerRecords(w, base) && id in w.returned && GoodReturn(id, w.returned[id])
    requires w.returned[id].status == R.Processing && !R.CreditRefused(w, w.returned[id].request)
    ensures Objection(w.net.entries, CreditFor(w, id)) == None <==> CreditDue(base, id, w.net.agenda.now)
  {
    assert ReturnCredit(id) in Ids(w.net.entries) <==> ReturnCredit(id) in Ids(base);
  }

  lemma CompleteReturnIs(w: R.World, id: string)
    requires id in w.returned && w.returned[id].status == R.Processing && !R.CreditRefused(w, w.returned[id].request)
    ensures R.Execute(w, A.CompleteReturn(id)) ==
            if Objection(w.net.entries, CreditFor(w, id)).Some?
            then R.Stepped(R.Put(w, id, R.Moved(w.returned[id], R.Completed, w.net.agenda.now)), true)
            else R.Stepped(R.Credited(w, id, CreditFor(w, id)), false)
  {
  }

  lemma CreditedAccounts(w: R.World, base: seq<Entry>, id: string)
    requires Accounts(w, base) && id in w.returned && !Credited(w.returned[id])
    requires w.returned[id].request.transfer in w.net.transfers && w.returned[id].request.cents > 0
    ensures Accounts(R.Credited(w, id, CreditFor(w, id)), base)
  {
    BalancedCredited(w.net.entries, base, w.net.ids, w.net.transfers, w.rids, w.returned, id,
                     R.Corrected(w.returned[id], w.net.agenda.now), CreditFor(w, id));
  }

  lemma CreditedLedger(w: R.World, base: seq<Entry>, id: string)
    requires LedgerRecords(w, base) && id in w.returned && w.returned[id].request.id == id
    requires w.net.agenda.now == w.returned[id].receivedAt + 5 && CreditDue(base, id, w.net.agenda.now)
    requires w.returned[id].request.transfer in w.net.transfers && w.returned[id].request.cents > 0
    requires Objection(w.net.entries, CreditFor(w, id)) == None
    ensures LedgerRecords(R.Credited(w, id, CreditFor(w, id)), base)
  {
    var credit, corrected := CreditFor(w, id), R.Corrected(w.returned[id], w.net.agenda.now);
    AppendSound(w.net.entries, credit);
    CreditPosted(w.net.entries, base, w.net.transfers, w.returned, id, corrected, credit);
    ReturnDueKept(base, w.net.transfers, w.returned, id, corrected);
  }

  lemma CreditedRecords(w: R.World, base: seq<Entry>, id: string, corrected: R.Return)
    requires Records(w, base) && id in w.returned && w.returned[id].status == R.Processing && w.returned[id].request.id == id
    requires w.net.agenda.now == w.returned[id].receivedAt + 5 && CreditDue(base, id, w.net.agenda.now)
    requires w.returned[id].request.transfer in w.net.transfers && w.returned[id].request.cents > 0
    requires corrected == R.Corrected(w.returned[id], w.net.agenda.now) && GoodReturn(id, corrected)
    requires Objection(w.net.entries, CreditFor(w, id)) == None
    ensures Records(R.Credited(w, id, CreditFor(w, id)), base)
  {
    CreditedLedger(w, base, id);
    GoodReturnPut(w.returned, id, corrected);
    ReturnMoves(w.net.transfers, w.returned, w.byTransfer, id, corrected);
  }

  lemma CreditBooks(w: R.World, base: seq<Entry>, id: string)
    requires Books(w, base) && id in w.returned && GoodReturn(id, w.returned[id]) && w.returned[id].status == R.Processing
    requires !R.CreditRefused(w, w.returned[id].request)
    requires w.net.agenda.now == w.returned[id].receivedAt + 5 && CreditDue(base, id, w.net.agenda.now)
    requires Objection(w.net.entries, CreditFor(w, id)) == None
    ensures Books(R.Credited(w, id, CreditFor(w, id)), base)
  {
    CorrectedReturnIsGood(id, w.returned[id]);
    CreditedAccounts(w, base, id);
    CreditedRecords(w, base, id, R.Corrected(w.returned[id], w.net.agenda.now));
  }

  lemma CreditFits(w: R.World, base: seq<Entry>, id: string)
    requires Books(w, base) && id in w.returned && GoodReturn(id, w.returned[id]) && w.returned[id].status == R.Processing
    ensures !R.CreditRefused(w, w.returned[id].request)
    ensures Objection(w.net.entries, CreditFor(w, id)) == None <==> CreditDue(base, id, w.net.agenda.now)
  {
    CreditIsWritable(w, id);
    CreditTaken(w, base, id);
  }

  lemma CreditRuns(w: R.World, e: Event<A.Action>, base: seq<Entry>)
    requires ReturnReady(w, e) && Books(w, base) && e.action.CompleteReturn? && CreditDue(base, e.action.ret, e.time)
    ensures WellRun(w, e, base)
  {
    var id := e.action.ret;
    CreditFits(w, base, id);
    CompleteReturnIs(w, id);
    CreditBooks(w, base, id);
    var credited := R.Credited(w, id, CreditFor(w, id));
    ReturnStops(w, base, id, R.Corrected(w.returned[id], w.net.agenda.now), credited);
    Runs(w, e, base, R.Stepped(credited, false));
  }

  lemma DropReturnBooks(w: R.World, base: seq<Entry>, id: string, moved: R.Return)
    requires Books(w, base) && id in w.returned && GoodReturn(id, w.returned[id]) && w.returned[id].status == R.Processing
    requires w.net.agenda.now == w.returned[id].receivedAt + 5 && !CreditDue(base, id, w.net.agenda.now)
    requires moved == R.Moved(w.returned[id], R.Completed, w.net.agenda.now)
    ensures Books(R.Put(w, id, moved), base)
  {
    DroppedReturnIsGood(id, w.returned[id]);
    ReturnBooks(w, base, id, moved);
  }

  lemma DropReturnRuns(w: R.World, e: Event<A.Action>, base: seq<Entry>)
    requires ReturnReady(w, e) && Books(w, base) && e.action.CompleteReturn? && !CreditDue(base, e.action.ret, e.time)
    ensures WellRun(w, e, base)
  {
    var id := e.action.ret;
    var moved := R.Moved(w.returned[id], R.Completed, w.net.agenda.now);
    CreditFits(w, base, id);
    CompleteReturnIs(w, id);
    DropReturnBooks(w, base, id, moved);
    ReturnStops(w, base, id, moved, R.Put(w, id, moved));
    Runs(w, e, base, R.Stepped(R.Put(w, id, moved), true));
  }

  // ----- Running an event -----

  lemma TransferRuns(w: R.World, e: Event<A.Action>, base: seq<Entry>)
    requires Turn(w, e) && Books(w, base) && SubjectOf(e.action).OfTransfer?
    ensures WellRun(w, e, base)
  {
    TransferTurn(w, e);
    var t := w.net.transfers[e.action.transfer];
    match e.action
    case Validate(_) => if A.Refusal(w.net, t).Some? { RefuseRuns(w, e, base); } else { AcceptRuns(w, e, base); }
    case MarkPending(_) => if A.Flawed(t.request) { FlawRuns(w, e, base); } else { HoldRuns(w, e, base); }
    case Submit(_) => SubmitRuns(w, e, base);
    case Process(_) => ProcessRuns(w, e, base);
    case Complete(id) => if DebitDue(base, id) { PostRuns(w, e, base); } else { DropRuns(w, e, base); }
  }

  lemma ReturnRuns(w: R.World, e: Event<A.Action>, base: seq<Entry>)
    requires Turn(w, e) && Books(w, base) && SubjectOf(e.action).OfReturn?
    ensures WellRun(w, e, base)
  {
    ReturnTurn(w, e);
    match e.action
    case ValidateReturn(id) =>
      if R.InvalidReason(w, w.returned[id].request).Some? { RejectReturnRuns(w, e, base); } else { AcceptReturnRuns(w, e, base); }
    case ProcessReturn(_) => ProcessReturnRuns(w, e, base);
    case CompleteReturn(id) => if CreditDue(base, id, e.time) { CreditRuns(w, e, base); } else { DropReturnRuns(w, e, base); }
  }

  lemma RecordInv(w: R.World, e: Event<A.Action>, base: seq<Entry>)
    requires Inv(w, base)
    ensures Inv(R.Timed(w, Record(w.net.agenda, e)), base)
  {
    BooksFrame(w, R.Timed(w, Record(w.net.agenda, e)), base);
  }

  lemma EventRuns(w: R.World, e: Event<A.Action>, base: seq<Entry>)
    requires Turn(w, e) && Books(w, base)
    ensures WellRun(w, e, base)
  {
    if SubjectOf(e.action).OfTransfer? {
      TransferRuns(w, e, base);
    } else {
      ReturnRuns(w, e, base);
    }
  }

  lemma TakenRuns(w: R.World, base: seq<Entry>)
    requires Inv(w, base) && w.net.agenda.queue != []
    ensures TakeNext(w.net.agenda).Due?
    ensures var Due(e, rest) := TakeNext(w.net.agenda);
            e == w.net.agenda.queue[0] && WellRun(R.Timed(w, rest), e, base)
  {
    TakeTurn(w);
    var Due(e, rest) := TakeNext(w.net.agenda);
    LaterBooks(w, base, rest);
    EventRuns(R.Timed(w, rest), e, base);
  }

  /** The next event raises exactly for a hold with a blank text or a posting behind the ledger's start, and keeps the invariant. */
  lemma RunNextInv(w: R.World, base: seq<Entry>)
    requires Inv(w, base)
    ensures Inv(R.RunNext(w).world, base)
    ensures R.RunNext(w).raised <==> w.net.agenda.queue != [] && Raises(w, w.net.agenda.queue[0], base)
  {
    if w.net.agenda.queue != [] {
      TakenRuns(w, base);
      var Due(e, rest) := TakeNext(w.net.agenda);
      if !R.Execute(R.Timed(w, rest), e.action).raised {
        RecordInv(R.Execute(R.Timed(w, rest), e.action).world, e, base);
      }
    }
  }
}
