/** What is refused and for which reason, as a table over the request's own fields. */
module AchVerdicts {
  import opened Wrappers
  import opened Scheduling
  import opened Ledgers
  import opened AchBooks
  import opened AchInvariant
  import opened AchTheorems
  import opened AchFailures
  import opened AchFunds
  import A = Ach
  import R = AchReturns

  // ----- Transfers -----

  /** All texts of the request say something. */
  predicate Complete(r: A.TransferRequest) {
    !A.Blank(r.id) && !A.Blank(r.account) && !A.Blank(r.institution) && !A.Blank(r.reference)
  }

  /** The reason is the first defect of the request on an account that had `opening`, or there is none. */
  predicate FirstDefect(r: A.TransferRequest, opening: int, reason: Option<A.Reason>) {
    match reason
    case Some(BlankTransferId) => A.Blank(r.id)
    case Some(BlankSourceAccount) => !A.Blank(r.id) && A.Blank(r.account)
    case Some(BlankInstitution) => !A.Blank(r.id) && !A.Blank(r.account) && A.Blank(r.institution)
    case Some(BlankReference) => !A.Blank(r.id) && !A.Blank(r.account) && !A.Blank(r.institution) && A.Blank(r.reference)
    case Some(ZeroAmount) => Complete(r) && r.cents == 0
    case Some(NegativeAmount) => Complete(r) && r.cents < 0
    case Some(InsufficientFunds) => Complete(r) && r.cents > 0 && r.cents > opening
    case None => Complete(r) && 0 < r.cents <= opening
  }

  /** The table has one line for each request. */
  lemma OneDefect(r: A.TransferRequest, opening: int, x: Option<A.Reason>, y: Option<A.Reason>)
    requires FirstDefect(r, opening, x) && FirstDefect(r, opening, y)
    ensures x == y
  {
  }

  lemma VerdictIsFirstDefect(base: seq<Entry>, request: A.TransferRequest)
    ensures FirstDefect(request, AccountBalance(base, request.account), Verdict(base, request))
  {
  }

  ghost predicate JudgedByRow(t: A.Transfer, opening: int) {
    && FirstDefect(t.request, opening, t.reason)
    && (t.status == A.Rejected <==> t.reason.Some?)
  }

  /**
   In every reached state a transfer that is no longer only received bears the
   first defect of its request as its reason, and is rejected exactly if it
   has one; any other is complete, positive and within the opening balance.
   */
  lemma JudgedByTable(base: seq<Entry>, now: nat, ops: seq<R.Op>, w: R.World, id: string)
    requires Reached(base, now, ops, w) && id in w.net.transfers && w.net.transfers[id].status != A.Received
    ensures JudgedByRow(w.net.transfers[id], AccountBalance(base, w.net.transfers[id].request.account))
  {
    JudgedAlone(base, now, ops, w, id);
    VerdictIsFirstDefect(base, w.net.transfers[id].request);
    ReachedInv(base, now, ops, w);
    assert GoodTransfer(id, w.net.transfers[id]);
  }

  // ----- Returns -----

  /** Another return of the transfer has been accepted. */
  ghost predicate TakenBack(w: R.World, transfer: string) {
    exists r :: r in w.returned && w.returned[r].request.transfer == transfer && Active(w.returned[r].status)
  }

  ghost predicate NamedWell(request: R.ReturnRequest) {
    !A.Blank(request.id) && !A.Blank(request.transfer)
  }

  ghost predicate OfCompleted(w: R.World, request: R.ReturnRequest) {
    request.transfer in w.net.transfers && w.net.transfers[request.transfer].status == A.Completed
  }

  /** The reason is the first thing wrong with the return as things stand, or there is none. */
  ghost predicate FirstFault(w: R.World, request: R.ReturnRequest, reason: Option<R.Reason>) {
    match reason
    case Some(BlankReturnId) => A.Blank(request.id)
    case Some(BlankTransferId) => !A.Blank(request.id) && A.Blank(request.transfer)
    case Some(NoSuchTransfer) => NamedWell(request) && request.transfer !in w.net.transfers
    case Some(TransferNotCompleted) =>
      NamedWell(request) && request.transfer in w.net.transfers && w.net.transfers[request.transfer].status != A.Completed
    case Some(WrongAmount) =>
      NamedWell(request) && OfCompleted(w, request) && request.cents != w.net.transfers[request.transfer].request.cents
    case Some(AlreadyReturned) =>
      NamedWell(request) && OfCompleted(w, request) && request.cents == w.net.transfers[request.transfer].request.cents
      && TakenBack(w, request.transfer)
    case None =>
      NamedWell(request) && OfCompleted(w, request) && request.cents == w.net.transfers[request.transfer].request.cents
      && !TakenBack(w, request.transfer)
  }

  lemma FaultIs(w: R.World, request: R.ReturnRequest)
    requires Returning(w.net.transfers, w.returned, w.byTransfer)
    ensures FirstFault(w, request, R.InvalidReason(w, request))
  {
    assert request.transfer in w.byTransfer <==> TakenBack(w, request.transfer);
  }

  lemma ReturnDecided(w: R.World, e: Event<A.Action>)
    requires ReturnReady(w, e) && e.action.ValidateReturn?
    ensures var v, reason := R.Execute(w, e.action).world, R.InvalidReason(w, w.returned[e.action.ret].request);
            && e.action.ret in v.returned && v.returned[e.action.ret].reason == reason
            && v.returned[e.action.ret].status == if reason.Some? then R.Rejected else R.Validated
  {
  }

  /** A return whose validation is next is rejected for the first thing wrong with it, or validated if there is none. */
  lemma ReturnJudged(base: seq<Entry>, now: nat, ops: seq<R.Op>, w: R.World, id: string)
    requires Reached(base, now, ops, w) && w.net.agenda.queue != [] && w.net.agenda.queue[0].action == A.ValidateReturn(id)
    ensures id in w.returned && id in R.RunNext(w).world.returned
    ensures var r := R.RunNext(w).world.returned[id];
            && FirstFault(w, w.returned[id].request, r.reason)
            && r.status == if r.reason.Some? then R.Rejected else R.Validated
  {
    ReachedInv(base, now, ops, w);
    TakeTurn(w);
    TakenFails(w, base);
    var Due(e, rest) := TakeNext(w.net.agenda);
    ReturnTurn(R.Timed(w, rest), e);
    ReturnDecided(R.Timed(w, rest), e);
    RunNextIs(w, e, rest);
    FaultIs(w, w.returned[id].request);
    SameFault(w, rest, w.returned[id].request);
  }

  lemma SameFault(w: R.World, agenda: Agenda<A.Action>, request: R.ReturnRequest)
    ensures R.InvalidReason(R.Timed(w, agenda), request) == R.InvalidReason(w, request)
  {
  }
}
