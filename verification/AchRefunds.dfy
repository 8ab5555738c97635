/** A return that is filed when nothing else is pending: what it comes to, and the credit that was never a debit. */
module AchRefunds {
  import opened Scheduling
  import opened Ledgers
  import opened AchSchedule
  import opened AchBooks
  import opened AchInvariant
  import opened AchTheorems
  import opened AchFailures
  import opened AchRuns
  import opened AchExamples
  import A = Ach
  import R = AchReturns

  /** The return is all there is to do, and has come this far. */
  ghost predicate Alone(w: R.World, id: string, request: R.ReturnRequest, at: nat, status: R.ReturnStatus, action: A.Action) {
    && |w.net.agenda.queue| == 1 && w.net.agenda.queue[0].action == action
    && id in w.returned && w.returned[id].request == request && w.returned[id].status == status
    && w.returned[id].receivedAt == at
  }

  lemma FiledAlone(w: R.World, request: R.ReturnRequest)
    requires w.net.agenda.queue == [] && request.id !in w.returned
    ensures Alone(R.Receive(w, request), request.id, request, w.net.agenda.now, R.Received, A.ValidateReturn(request.id))
    ensures R.Receive(w, request).net.transfers == w.net.transfers && R.Receive(w, request).byTransfer == w.byTransfer
  {
  }

  lemma TakenAlone(base: seq<Entry>, now: nat, ops: seq<R.Op>, w: R.World)
    requires Reached(base, now, ops, w) && |w.net.agenda.queue| == 1
    ensures TakeNext(w.net.agenda) == Due(w.net.agenda.queue[0], TakeNext(w.net.agenda).rest) && TakeNext(w.net.agenda).rest.queue == []
    ensures R.Known(R.Timed(w, TakeNext(w.net.agenda).rest), w.net.agenda.queue[0].action)
  {
    ReachedInv(base, now, ops, w);
    TakenRuns(w, base);
  }

  // ----- The three steps -----

  lemma ExecuteValidation(w: R.World, id: string)
    requires w.net.agenda.queue == [] && id in w.returned && w.returned[id].status == R.Received
    requires R.InvalidReason(w, w.returned[id].request).None?
    ensures var s := R.Execute(w, A.ValidateReturn(id));
            !s.raised && Alone(s.world, id, w.returned[id].request, w.returned[id].receivedAt, R.Validated, A.ProcessReturn(id))
  {
  }

  lemma ExecuteProcessing(w: R.World, id: string)
    requires w.net.agenda.queue == [] && id in w.returned && w.returned[id].status == R.Validated
    ensures var s := R.Execute(w, A.ProcessReturn(id));
            !s.raised && Alone(s.world, id, w.returned[id].request, w.returned[id].receivedAt, R.Processing, A.CompleteReturn(id))
  {
  }

  lemma ExecuteCompletion(w: R.World, id: string)
    requires id in w.returned && w.returned[id].status == R.Processing
    ensures var v := R.Execute(w, A.CompleteReturn(id)).world;
            && v.net.agenda.queue == w.net.agenda.queue
            && id in v.returned && v.returned[id].status == R.Completed && v.returned[id].request == w.returned[id].request
            && v.returned[id].receivedAt == w.returned[id].receivedAt
  {
  }

  lemma ValidatedAlone(base: seq<Entry>, now: nat, ops: seq<R.Op>, w: R.World, id: string, request: R.ReturnRequest, at: nat)
    requires Reached(base, now, ops, w) && Alone(w, id, request, at, R.Received, A.ValidateReturn(id))
    requires R.InvalidReason(w, request).None?
    ensures Alone(R.RunNext(w).world, id, request, at, R.Validated, A.ProcessReturn(id))
  {
    TakenAlone(base, now, ops, w);
    var rest := TakeNext(w.net.agenda).rest;
    ExecuteValidation(R.Timed(w, rest), id);
    RunNextIs(w, w.net.agenda.queue[0], rest);
  }

  lemma ProcessedAlone(base: seq<Entry>, now: nat, ops: seq<R.Op>, w: R.World, id: string, request: R.ReturnRequest, at: nat)
    requires Reached(base, now, ops, w) && Alone(w, id, request, at, R.Validated, A.ProcessReturn(id))
    ensures Alone(R.RunNext(w).world, id, request, at, R.Processing, A.CompleteReturn(id))
  {
    TakenAlone(base, now, ops, w);
    var rest := TakeNext(w.net.agenda).rest;
    ExecuteProcessing(R.Timed(w, rest), id);
    RunNextIs(w, w.net.agenda.queue[0], rest);
  }

  lemma CompletedAlone(base: seq<Entry>, now: nat, ops: seq<R.Op>, w: R.World, id: string, request: R.ReturnRequest, at: nat)
    requires Reached(base, now, ops, w) && Alone(w, id, request, at, R.Processing, A.CompleteReturn(id))
    ensures var v := R.RunNext(w).world;
            && v.net.agenda.queue == [] && id in v.returned
            && v.returned[id].status == R.Completed && v.returned[id].request == request
            && v.returned[id].receivedAt == at
  {
    TakenAlone(base, now, ops, w);
    var rest := TakeNext(w.net.agenda).rest;
    ExecuteCompletion(R.Timed(w, rest), id);
    RunNextIs(w, w.net.agenda.queue[0], rest);
  }

  // ----- A return by itself -----

  function Filing(request: R.ReturnRequest): seq<R.Op> {
    [R.ReceiveReturn(request), R.RunEvent, R.RunEvent, R.RunEvent]
  }

  lemma ReachedOne(base: seq<Entry>, now: nat, ops: seq<R.Op>, w: R.World, op: R.Op)
    requires Reached(base, now, ops, w) && R.Permitted(w, op)
    ensures Reached(base, now, ops + [op], R.Step(w, op).world)
  {
    AfterOne(Initial(now, base), ops, op);
  }

  ghost predicate ReachedAlone(base: seq<Entry>, now: nat, ops: seq<R.Op>, w: R.World, request: R.ReturnRequest,
                               at: nat, status: R.ReturnStatus, action: A.Action)
  {
    Reached(base, now, ops, w) && Alone(w, request.id, request, at, status, action)
  }

  lemma FiledTurn(base: seq<Entry>, now: nat, ops: seq<R.Op>, w: R.World, request: R.ReturnRequest)
    requires Reached(base, now, ops, w) && w.net.agenda.queue == [] && request.id !in w.returned
    requires R.InvalidReason(w, request).None?
    ensures var v := R.Receive(w, request);
            ReachedAlone(base, now, ops + [R.ReceiveReturn(request)], v, request, w.net.agenda.now, R.Received, A.ValidateReturn(request.id))
            && R.InvalidReason(v, request).None?
  {
    FiledAlone(w, request);
    ReachedOne(base, now, ops, w, R.ReceiveReturn(request));
  }

  lemma ValidatedTurn(base: seq<Entry>, now: nat, ops: seq<R.Op>, w: R.World, request: R.ReturnRequest, at: nat)
    requires ReachedAlone(base, now, ops, w, request, at, R.Received, A.ValidateReturn(request.id))
    requires R.InvalidReason(w, request).None?
    ensures ReachedAlone(base, now, ops + [R.RunEvent], R.RunNext(w).world, request, at, R.Validated, A.ProcessReturn(request.id))
  {
    ValidatedAlone(base, now, ops, w, request.id, request, at);
    ReachedOne(base, now, ops, w, R.RunEvent);
  }

  lemma ProcessedTurn(base: seq<Entry>, now: nat, ops: seq<R.Op>, w: R.World, request: R.ReturnRequest, at: nat)
    requires ReachedAlone(base, now, ops, w, request, at, R.Validated, A.ProcessReturn(request.id))
    ensures ReachedAlone(base, now, ops + [R.RunEvent], R.RunNext(w).world, request, at, R.Processing, A.CompleteReturn(request.id))
  {
    ProcessedAlone(base, now, ops, w, request.id, request, at);
    ReachedOne(base, now, ops, w, R.RunEvent);
  }

  ghost predicate ReturnEnded(v: R.World, request: R.ReturnRequest, at: nat) {
    && v.net.agenda.queue == [] && request.id in v.returned
    && v.returned[request.id].status == R.Completed && v.returned[request.id].request == request
    && v.returned[request.id].receivedAt == at
  }

  lemma CompletedTurn(base: seq<Entry>, now: nat, ops: seq<R.Op>, w: R.World, request: R.ReturnRequest, at: nat)
    requires ReachedAlone(base, now, ops, w, request, at, R.Processing, A.CompleteReturn(request.id))
    ensures Reached(base, now, ops + [R.RunEvent], R.RunNext(w).world) && ReturnEnded(R.RunNext(w).world, request, at)
  {
    CompletedAlone(base, now, ops, w, request.id, request, at);
    ReachedOne(base, now, ops, w, R.RunEvent);
  }

  /** Filed with nothing else to do, a return that is valid now is completed. */
  lemma LoneReturn(base: seq<Entry>, now: nat, ops: seq<R.Op>, w: R.World, request: R.ReturnRequest)
    requires Reached(base, now, ops, w) && w.net.agenda.queue == [] && request.id !in w.returned
    requires R.InvalidReason(w, request).None?
    ensures var v := R.After(Initial(now, base), ops + Filing(request));
            Reached(base, now, ops + Filing(request), v) && ReturnEnded(v, request, w.net.agenda.now)
  {
    var w1 := R.Receive(w, request);
    var w2 := R.RunNext(w1).world;
    var ops1 := ops + [R.ReceiveReturn(request)];
    FiledTurn(base, now, ops, w, request);
    ValidatedTurn(base, now, ops1, w1, request, w.net.agenda.now);
    ProcessedTurn(base, now, ops1 + [R.RunEvent], w2, request, w.net.agenda.now);
    CompletedTurn(base, now, ops1 + [R.RunEvent] + [R.RunEvent], R.RunNext(w2).world, request, w.net.agenda.now);
    FilingIs(ops, request);
  }

  lemma FilingIs(ops: seq<R.Op>, request: R.ReturnRequest)
    ensures ops + Filing(request) == ops + [R.ReceiveReturn(request)] + [R.RunEvent] + [R.RunEvent] + [R.RunEvent]
  {
  }

  // ----- A credit for what was never debited -----

  /** The ledger has no room for the debit of any transfer received. */
  ghost predicate NoneDue(base: seq<Entry>, tr: Transfers) {
    forall id :: id in tr ==> !DebitDue(base, id)
  }

  /** When no transfer can be debited, an account that a credit reaches stands above what it had. */
  lemma CreditRaises(base: seq<Entry>, now: nat, ops: seq<R.Op>, w: R.World, r: string)
    requires Reached(base, now, ops, w) && NoneDue(base, w.net.transfers)
    requires r in w.returned && w.returned[r].status == R.Completed && CreditDue(base, r, w.returned[r].receivedAt + 5)
    ensures w.returned[r].request.transfer in w.net.transfers
    ensures var account := w.net.transfers[w.returned[r].request.transfer].request.account;
            AccountBalance(w.net.entries, account) >= AccountBalance(base, account) + w.returned[r].request.cents
  {
    ReachedInv(base, now, ops, w);
    CreditedKnown(base, w, r);
    var account := w.net.transfers[w.returned[r].request.transfer].request.account;
    NothingDebited(base, w.net.transfers, w.returned, w.net.ids, account);
    CreditsNatural(w.net.transfers, w.returned, w.byTransfer, account);
    TotalWithout(w.rids, w.returned, CreditedTo(w.net.transfers, account), r);
    TotalAtMost(Without(w.rids, r), w.returned, CreditedTo(w.net.transfers, account));
    assert BalancedFor(account, w.net.entries, base, w.net.ids, w.net.transfers, w.rids, w.returned);
  }

  lemma CreditedKnown(base: seq<Entry>, w: R.World, r: string)
    requires Inv(w, base) && r in w.returned && w.returned[r].status == R.Completed
    requires CreditDue(base, r, w.returned[r].receivedAt + 5)
    ensures Credited(w.returned[r]) && w.returned[r].request.transfer in w.net.transfers && r in w.rids
  {
    assert OnlyIfDue(base, w.net.transfers, w.returned) && Returning(w.net.transfers, w.returned, w.byTransfer);
    assert Corrects(w.returned[r], w.net.transfers);
  }

  lemma NothingDebited(base: seq<Entry>, tr: Transfers, re: Returns, ids: seq<string>, account: string)
    requires OnlyIfDue(base, tr, re) && NoneDue(base, tr)
    ensures Total(ids, tr, DebitedFrom(account)) == 0
  {
    TotalNothing(ids, tr, DebitedFrom(account));
  }

  lemma CreditsNatural(tr: Transfers, re: Returns, via: map<string, string>, account: string)
    requires Returning(tr, re, via) && GoodTransfers(tr)
    ensures forall r :: r in re ==> CreditedTo(tr, account)(re[r]) >= 0
  {
    forall r | r in re ensures CreditedTo(tr, account)(re[r]) >= 0 {
      if Credited(re[r]) {
        assert Corrects(re[r], tr);
        assert GoodTransfer(re[r].request.transfer, tr[re[r].request.transfer]);
      }
    }
  }

  lemma Returnable(base: seq<Entry>, now: nat, ops: seq<R.Op>, w: R.World, request: R.ReturnRequest)
    requires Reached(base, now, ops, w) && w.returned == map[]
    requires request.transfer in w.net.transfers && w.net.transfers[request.transfer].status == A.Completed
    requires request.cents == w.net.transfers[request.transfer].request.cents
    requires !A.Blank(request.id) && !A.Blank(request.transfer)
    ensures R.InvalidReason(w, request).None? && w.net.agenda.now >= 10
  {
    ReachedInv(base, now, ops, w);
    assert Returning(w.net.transfers, w.returned, w.byTransfer);
    assert Timely(w.net.entries, base, w.net.agenda.now, w.net.transfers);
  }

  /** Filing a return and running it changes no transfer's request. */
  lemma FilingKeepsRequests(base: seq<Entry>, now: nat, ops: seq<R.Op>, w: R.World, request: R.ReturnRequest, id: string)
    requires Reached(base, now, ops, w) && w.net.agenda.queue == [] && request.id !in w.returned && id in w.net.transfers
    ensures var v := R.After(Initial(now, base), ops + Filing(request));
            v.net.transfers.Keys == w.net.transfers.Keys && v.net.transfers[id].request == w.net.transfers[id].request
  {
    FiledAlone(w, request);
    ReachedOne(base, now, ops, w, R.ReceiveReturn(request));
    ThreeTurns(base, now, ops + [R.ReceiveReturn(request)], R.Receive(w, request), id);
    assert ops + Filing(request) == ops + [R.ReceiveReturn(request)] + Turns(3);
  }

  lemma ThreeTurns(base: seq<Entry>, now: nat, ops: seq<R.Op>, w: R.World, id: string)
    requires Reached(base, now, ops, w) && id in w.net.transfers
    requires |w.net.agenda.queue| == 1 && w.net.agenda.queue[0].action.ValidateReturn?
    ensures var v := OutOf(base, now, ops + Turns(3));
            v.net.transfers.Keys == w.net.transfers.Keys && v.net.transfers[id].request == w.net.transfers[id].request
  {
    WorkTaken(w.net.agenda.queue);
    EmptyWork(w.net.agenda.queue[1..]);
    TurnsDrain(base, now, ops, w, 3);
    assert SameRequests(w, OutOf(base, now, ops + Turns(3)));
  }

  lemma CompletedAt12()
    ensures var w := Outturn(OpenedAt(12), 0, [Transfer60("T", "")]);
            && Reached(OpenedAt(12), 0, Script([Transfer60("T", "")]), w) && w.net.agenda.queue == [] && w.returned == map[]
            && R.InvalidReason(w, R.ReturnRequest("R", "T", 60)).None? && w.net.agenda.now >= 10
            && "T" in w.net.transfers && w.net.transfers["T"].request.account == "ACC"
  {
    var requests := [Transfer60("T", "")];
    OpenedIs(12);
    Accepted60(12, "T", "");
    A.FlawedIff(requests[0]);
    ScriptRuns(OpenedAt(12), 0, requests);
    EachEndsAlone(OpenedAt(12), 0, requests, 0);
    assert "R"[0] == 'R' && "T"[0] == 'T';
    Returnable(OpenedAt(12), 0, Script(requests), Outturn(OpenedAt(12), 0, requests), R.ReturnRequest("R", "T", 60));
  }

  /** The ledger stands at 12: the debit at 10 is refused, the credit of its return at 15 is not, and 60 are added to 100. */
  lemma UnearnedCreditExample()
    ensures var request := R.ReturnRequest("R", "T", 60);
            var ops := Script([Transfer60("T", "")]) + Filing(request);
            var w := R.After(Initial(0, OpenedAt(12)), ops);
            && Reached(OpenedAt(12), 0, ops, w) && w.net.agenda.queue == []
            && AccountBalance(w.net.entries, "ACC") >= AccountBalance(OpenedAt(12), "ACC") + 60
  {
    var script, request := Script([Transfer60("T", "")]), R.ReturnRequest("R", "T", 60);
    var before := Outturn(OpenedAt(12), 0, [Transfer60("T", "")]);
    OpenedIs(12);
    CompletedAt12();
    LoneReturn(OpenedAt(12), 0, script, before, request);
    FilingKeepsRequests(OpenedAt(12), 0, script, before, request, "T");
    CreditRaises(OpenedAt(12), 0, script + Filing(request), R.After(Initial(0, OpenedAt(12)), script + Filing(request)), "R");
  }
}
