/** ACH returns: a full credit for a completed transfer, at most once. */
module AchReturns {
  import opened Wrappers
  import opened Scheduling
  import opened Ledgers
  import A = Ach

  datatype ReturnStatus = Received | Validated | Processing | Completed | Rejected

  datatype Reason = BlankReturnId | BlankTransferId | NoSuchTransfer | TransferNotCompleted | WrongAmount | AlreadyReturned

  datatype ReturnRequest = ReturnRequest(id: string, transfer: string, cents: int)

  datatype Observation = Observation(time: nat, status: ReturnStatus)

  datatype Return = Return(
    request: ReturnRequest,
    receivedAt: nat,
    status: ReturnStatus,
    completedAt: Option<nat>,
    correction: Option<EntryId>,
    reason: Option<Reason>,
    history: seq<Observation>)

  /** The network and the return processor on top of it; `rids` is the order in which the returns were filed. */
  datatype World = World(net: A.Network, rids: seq<string>, returned: map<string, Return>, byTransfer: map<string, string>)

  datatype Stepped = Stepped(world: World, raised: bool)

  predicate Allowed(from: ReturnStatus, to: ReturnStatus) {
    match from
    case Received => to == Validated || to == Rejected
    case Validated => to == Processing
    case Processing => to == Completed
    case Completed => false
    case Rejected => false
  }

  function NewReturn(request: ReturnRequest, now: nat): Return {
    Return(request, now, Received, None, None, None, [Observation(now, Received)])
  }

  function Moved(r: Return, status: ReturnStatus, time: nat): Return {
    r.(status := status, history := r.history + [Observation(time, status)])
  }

  function Open(net: A.Network): World {
    World(net, [], map[], map[])
  }

  function Put(w: World, id: string, r: Return): World {
    w.(returned := w.returned[id := r])
  }

  function Later(w: World, delay: nat, action: A.Action): World {
    w.(net := w.net.(agenda := ScheduleAfter(w.net.agenda, delay, action)))
  }

  /** A return already known is left alone. */
  function Receive(w: World, request: ReturnRequest): World {
    if request.id in w.returned then w
    else
      var filed := w.(
        rids := w.rids + [request.id],
        returned := w.returned[request.id := NewReturn(request, w.net.agenda.now)]);
      Later(filed, 1, A.ValidateReturn(request.id))
  }

  function InvalidReason(w: World, request: ReturnRequest): Option<Reason> {
    if A.Blank(request.id) then Some(BlankReturnId)
    else if A.Blank(request.transfer) then Some(BlankTransferId)
    else if request.transfer !in w.net.transfers then Some(NoSuchTransfer)
    else if w.net.transfers[request.transfer].status != A.Completed then Some(TransferNotCompleted)
    else if request.cents != w.net.transfers[request.transfer].request.cents then Some(WrongAmount)
    else if request.transfer in w.byTransfer then Some(AlreadyReturned)
    else None
  }

  function ValidateStep(w: World, id: string): Stepped
    requires id in w.returned
  {
    var r, now := w.returned[id], w.net.agenda.now;
    var reason := InvalidReason(w, r.request);
    if reason.Some? then
      if !Allowed(r.status, Rejected) then Stepped(w, true)
      else Stepped(Put(w, id, Moved(r, Rejected, now).(reason := reason)), false)
    else if !Allowed(r.status, Validated) then Stepped(w, true)
    else
      var moved := Put(w, id, Moved(r, Validated, now)).(byTransfer := w.byTransfer[r.request.transfer := id]);
      Stepped(Later(moved, 1, A.ProcessReturn(id)), false)
  }

  function ProcessStep(w: World, id: string): Stepped
    requires id in w.returned
  {
    var r := w.returned[id];
    if !Allowed(r.status, Processing) then Stepped(w, true)
    else Stepped(Later(Put(w, id, Moved(r, Processing, w.net.agenda.now)), 3, A.CompleteReturn(id)), false)
  }

  function CreditOf(r: Return, account: string, sequence: nat, now: nat): Entry
    requires r.request.cents > 0
  {
    Entry(ReturnCredit(r.request.id), account, r.request.cents, Credit, sequence, now)
  }

  function CompleteStep(w: World, id: string): Stepped
    requires id in w.returned
  {
    var r, now := w.returned[id], w.net.agenda.now;
    if !Allowed(r.status, Completed) then Stepped(w, true)
    else if CreditRefused(w, r.request) then Stepped(Put(w, id, Moved(r, Completed, now)), true)
    else
      var credit := CreditOf(r, w.net.transfers[r.request.transfer].request.account, |w.net.entries| + 1, now);
      if Objection(w.net.entries, credit).Some? then Stepped(Put(w, id, Moved(r, Completed, now)), true)
      else Stepped(Credited(w, id, credit), false)
  }

  /** The credit cannot even be written down. */
  predicate CreditRefused(w: World, request: ReturnRequest) {
    || request.transfer !in w.net.transfers || request.cents <= 0
    || A.Blank(w.net.transfers[request.transfer].request.account) || A.Blank(request.transfer) || A.Blank(request.id)
  }

  function Corrected(r: Return, now: nat): Return {
    Moved(Moved(r, Completed, now), Completed, now).(completedAt := Some(now), correction := Some(ReturnCredit(r.request.id)))
  }

  function Credited(w: World, id: string, credit: Entry): World
    requires id in w.returned
  {
    Put(w, id, Corrected(w.returned[id], w.net.agenda.now)).(net := w.net.(entries := w.net.entries + [credit]))
  }

  // ----- Running -----

  /** The subject of an action is known. */
  predicate Known(w: World, a: A.Action) {
    match a
    case ValidateReturn(r) => r in w.returned
    case ProcessReturn(r) => r in w.returned
    case CompleteReturn(r) => r in w.returned
    case _ => a.transfer in w.net.transfers
  }

  function Lift(w: World, s: A.Stepped): Stepped {
    Stepped(w.(net := s.network), s.raised)
  }

  function Execute(w: World, a: A.Action): Stepped
    requires Known(w, a)
  {
    match a
    case Validate(t) => Lift(w, A.ValidateStep(w.net, t))
    case MarkPending(t) => Lift(w, A.MarkPendingStep(w.net, t))
    case Submit(t) => Lift(w, A.SubmitStep(w.net, t))
    case Process(t) => Lift(w, A.ProcessStep(w.net, t))
    case Complete(t) => Lift(w, A.CompleteStep(w.net, t))
    case ValidateReturn(r) => ValidateStep(w, r)
    case ProcessReturn(r) => ProcessStep(w, r)
    case CompleteReturn(r) => CompleteStep(w, r)
  }

  function Timed(w: World, agenda: Agenda<A.Action>): World {
    w.(net := w.net.(agenda := agenda))
  }

  /** One `run_next`; an event whose action raises is not recorded. */
  function RunNext(w: World): Stepped {
    match TakeNext(w.net.agenda)
    case Empty => Stepped(w, false)
    case Late(rest) => Stepped(Timed(w, rest), true)
    case Due(e, rest) =>
      if !Known(w, e.action) then Stepped(Timed(w, rest), true)
      else
        var s := Execute(Timed(w, rest), e.action);
        if s.raised then s else Stepped(Timed(s.world, Record(s.world.net.agenda, e)), false)
  }

  datatype Op =
    | ReceiveTransfer(request: A.TransferRequest)
    | ReceiveReturn(returnRequest: ReturnRequest)
    | RunEvent
    | AdvanceClock(time: nat)

  function Step(w: World, op: Op): Stepped {
    match op
    case ReceiveTransfer(request) => Lift(w, A.Receive(w.net, request))
    case ReceiveReturn(request) => Stepped(Receive(w, request), false)
    case RunEvent => RunNext(w)
    case AdvanceClock(time) =>
      if time < w.net.agenda.now then Stepped(w, true)
      else Stepped(Timed(w, w.net.agenda.(now := time)), false)
  }

  /** A clock move from outside does not pass a pending event. */
  ghost predicate Permitted(w: World, op: Op) {
    op.AdvanceClock? ==> forall e :: e in w.net.agenda.queue ==> op.time <= e.time
  }

  function After(w: World, ops: seq<Op>): World {
    if ops == [] then w else Step(After(w, ops[..|ops| - 1]), ops[|ops| - 1]).world
  }

  ghost predicate AllPermitted(w: World, ops: seq<Op>) {
    ops != [] ==> AllPermitted(w, ops[..|ops| - 1]) && Permitted(After(w, ops[..|ops| - 1]), ops[|ops| - 1])
  }
}
