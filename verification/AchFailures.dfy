/** Which events of the two ACH workflows raise, over a whole run. */
module AchFailures {
  import opened Scheduling
  import opened Ledgers
  import opened AchSchedule
  import opened AchBooks
  import opened AchInvariant
  import opened AchTheorems
  import A = Ach
  import R = AchReturns

  /** The mark an event leaves when it raises: pending without a hold, completed without a posting. */
  ghost predicate Failed(w: R.World, a: A.Action) {
    FailedIn(w.net.transfers, w.returned, a)
  }

  ghost predicate FailedIn(tr: Transfers, re: Returns, a: A.Action) {
    match a
    case MarkPending(id) => id in tr && Stuck(tr[id])
    case Complete(id) => id in tr && tr[id].status == A.Completed && !Debited(tr[id])
    case CompleteReturn(id) => id in re && re[id].status == R.Completed && !Credited(re[id])
    case _ => false
  }

  /** The action whose event this operation runs, if it raises. */
  function RaisedBy(w: R.World, op: R.Op): set<A.Action> {
    if op.RunEvent? && w.net.agenda.queue != [] && R.RunNext(w).raised then {w.net.agenda.queue[0].action} else {}
  }

  function RaisedActions(w: R.World, ops: seq<R.Op>): set<A.Action> {
    if ops == [] then {}
    else
      var init, last := ops[..|ops| - 1], ops[|ops| - 1];
      RaisedActions(w, init) + RaisedBy(R.After(w, init), last)
  }

  // ----- One action -----

  /** Only the subject of the action is touched. */
  ghost predicate OnlySubject(w: R.World, v: R.World, s: Subject) {
    && w.net.transfers.Keys == v.net.transfers.Keys && w.returned.Keys == v.returned.Keys
    && (forall id :: id in w.net.transfers && OfTransfer(id) != s ==> v.net.transfers[id] == w.net.transfers[id])
    && (forall id :: id in w.returned && OfReturn(id) != s ==> v.returned[id] == w.returned[id])
  }

  lemma ExecuteTouches(w: R.World, a: A.Action)
    requires R.Known(w, a)
    ensures OnlySubject(w, R.Execute(w, a).world, SubjectOf(a))
  {
    if SubjectOf(a).OfTransfer? {
      TransferTouches(w, a);
    } else {
      ReturnTouches(w, a);
    }
  }

  lemma TransferTouches(w: R.World, a: A.Action)
    requires SubjectOf(a).OfTransfer? && R.Known(w, a)
    ensures OnlySubject(w, R.Execute(w, a).world, SubjectOf(a))
  {
    var v := R.Execute(w, a).world;
    assert v.returned == w.returned && a.transfer in v.net.transfers;
    assert v.net.transfers == w.net.transfers[a.transfer := v.net.transfers[a.transfer]];
  }

  lemma ReturnTouches(w: R.World, a: A.Action)
    requires SubjectOf(a).OfReturn? && R.Known(w, a)
    ensures OnlySubject(w, R.Execute(w, a).world, SubjectOf(a))
  {
    var v := R.Execute(w, a).world;
    assert v.net.transfers == w.net.transfers && a.ret in v.returned;
    assert v.returned == w.returned[a.ret := v.returned[a.ret]];
  }

  /** A subject whose turn it is has not failed, and fails with this very action exactly when it raises. */
  ghost predicate FailsIff(w: R.World, e: Event<A.Action>)
    requires R.Known(w, e.action)
  {
    var s := R.Execute(w, e.action);
    forall a :: SubjectOf(a) == SubjectOf(e.action) ==> !Failed(w, a) && (Failed(s.world, a) <==> s.raised && a == e.action)
  }

  lemma TransferFails(w: R.World, e: Event<A.Action>)
    requires TransferReady(w, e)
    ensures FailsIff(w, e)
  {
    match e.action
    case MarkPending(_) => MarkPendingFails(w, e);
    case Complete(_) => CompleteFails(w, e);
    case _ => OthersFail(w, e);
  }

  lemma MarkPendingFails(w: R.World, e: Event<A.Action>)
    requires TransferReady(w, e) && e.action.MarkPending?
    ensures FailsIff(w, e)
  {
  }

  lemma CompleteFails(w: R.World, e: Event<A.Action>)
    requires TransferReady(w, e) && e.action.Complete?
    ensures FailsIff(w, e)
  {
  }

  lemma OthersFail(w: R.World, e: Event<A.Action>)
    requires TransferReady(w, e) && !e.action.MarkPending? && !e.action.Complete?
    ensures FailsIff(w, e)
  {
    match e.action
    case Validate(_) =>
    case Submit(_) =>
    case Process(_) =>
  }

  lemma ReturnFails(w: R.World, e: Event<A.Action>)
    requires ReturnReady(w, e)
    ensures FailsIff(w, e)
  {
    match e.action
    case ValidateReturn(_) =>
    case ProcessReturn(_) =>
    case CompleteReturn(_) =>
  }

  // ----- One event -----

  ghost predicate FailsMore(w: R.World, v: R.World, more: set<A.Action>) {
    forall a :: Failed(v, a) <==> Failed(w, a) || a in more
  }

  lemma ExecuteFails(w: R.World, e: Event<A.Action>)
    requires R.Known(w, e.action) && FailsIff(w, e)
    ensures var s := R.Execute(w, e.action); FailsMore(w, s.world, if s.raised then {e.action} else {})
  {
    var v := R.Execute(w, e.action).world;
    ExecuteTouches(w, e.action);
    forall a | SubjectOf(a) != SubjectOf(e.action) ensures Failed(v, a) <==> Failed(w, a) {
      SameElsewhere(w, v, SubjectOf(e.action), a);
    }
  }

  lemma SameElsewhere(w: R.World, v: R.World, s: Subject, a: A.Action)
    requires OnlySubject(w, v, s) && SubjectOf(a) != s
    ensures Failed(v, a) <==> Failed(w, a)
  {
    if SubjectOf(a).OfTransfer? && SubjectOf(a).id in w.net.transfers {
      assert v.net.transfers[SubjectOf(a).id] == w.net.transfers[SubjectOf(a).id];
    } else if SubjectOf(a).OfReturn? && SubjectOf(a).id in w.returned {
      assert v.returned[SubjectOf(a).id] == w.returned[SubjectOf(a).id];
    }
  }

  lemma TurnFails(w: R.World, e: Event<A.Action>)
    requires Turn(w, e) && GoodTransfers(w.net.transfers) && GoodReturns(w.returned)
    ensures R.Known(w, e.action) && FailsIff(w, e)
  {
    if SubjectOf(e.action).OfTransfer? {
      TransferTurn(w, e);
      TransferFails(w, e);
    } else {
      ReturnTurn(w, e);
      ReturnFails(w, e);
    }
  }

  lemma TakenFails(w: R.World, base: seq<Entry>)
    requires Inv(w, base) && w.net.agenda.queue != []
    ensures TakeNext(w.net.agenda).Due?
    ensures var Due(e, rest) := TakeNext(w.net.agenda);
            && e == w.net.agenda.queue[0] && R.Known(R.Timed(w, rest), e.action)
            && FailsIff(R.Timed(w, rest), e)
  {
    TakeTurn(w);
    var Due(e, rest) := TakeNext(w.net.agenda);
    TurnFails(R.Timed(w, rest), e);
  }

  lemma RunNextFails(w: R.World, base: seq<Entry>)
    requires Inv(w, base)
    ensures FailsMore(w, R.RunNext(w).world, RaisedBy(w, R.RunEvent))
  {
    if w.net.agenda.queue != [] {
      TakenFails(w, base);
      var Due(e, rest) := TakeNext(w.net.agenda);
      ExecuteFails(R.Timed(w, rest), e);
      RunNextIs(w, e, rest);
      assert forall a :: Failed(R.Timed(w, rest), a) <==> Failed(w, a);
    }
  }

  lemma RunNextIs(w: R.World, e: Event<A.Action>, rest: Agenda<A.Action>)
    requires TakeNext(w.net.agenda) == Due(e, rest) && R.Known(R.Timed(w, rest), e.action)
    ensures var s := R.Execute(R.Timed(w, rest), e.action);
            && R.RunNext(w).raised == s.raised
            && R.RunNext(w).world.net.transfers == s.world.net.transfers && R.RunNext(w).world.returned == s.world.returned
            && R.RunNext(w).world.net.agenda.queue == s.world.net.agenda.queue && R.RunNext(w).world.net.ids == s.world.net.ids
  {
  }

  lemma ReceivedFails(w: R.World, request: A.TransferRequest)
    ensures FailsMore(w, R.Lift(w, A.Receive(w.net, request)).world, {})
  {
    NewcomerFails(w, R.Lift(w, A.Receive(w.net, request)).world);
  }

  lemma FiledFails(w: R.World, request: R.ReturnRequest)
    ensures FailsMore(w, R.Receive(w, request), {})
  {
    NewcomerFails(w, R.Receive(w, request));
  }

  /** What is known stays as it is, and what is new is only received. */
  lemma NewcomerFails(w: R.World, v: R.World)
    requires w.net.transfers.Keys <= v.net.transfers.Keys && w.returned.Keys <= v.returned.Keys
    requires forall id :: id in v.net.transfers ==>
               if id in w.net.transfers then v.net.transfers[id] == w.net.transfers[id] else v.net.transfers[id].status == A.Received
    requires forall id :: id in v.returned ==>
               if id in w.returned then v.returned[id] == w.returned[id] else v.returned[id].status == R.Received
    ensures FailsMore(w, v, {})
  {
  }

  lemma StepFails(w: R.World, base: seq<Entry>, op: R.Op)
    requires Inv(w, base)
    ensures FailsMore(w, R.Step(w, op).world, RaisedBy(w, op))
  {
    match op
    case ReceiveTransfer(request) => ReceivedFails(w, request);
    case ReceiveReturn(request) => FiledFails(w, request);
    case RunEvent => RunNextFails(w, base);
    case AdvanceClock(_) =>
  }

  // ----- A whole run -----

  /** The events that have raised are exactly those whose mark is there. */
  lemma {:induction false} RaisedExactly(base: seq<Entry>, now: nat, ops: seq<R.Op>, w: R.World)
    requires Reached(base, now, ops, w)
    ensures forall a :: a in RaisedActions(Initial(now, base), ops) <==> Failed(w, a)
    decreases |ops|
  {
    if ops != [] {
      var init, before := ops[..|ops| - 1], R.After(Initial(now, base), ops[..|ops| - 1]);
      RaisedExactly(base, now, init, before);
      ReachedInv(base, now, init, before);
      StepFails(before, base, ops[|ops| - 1]);
    }
  }

  /**
   Of the events that a run has come to, these raise: the hold of a transfer
   with a blank description, a debit and a credit that the ledger's start does
   not allow.
   */
  lemma RaisedIff(base: seq<Entry>, now: nat, ops: seq<R.Op>, w: R.World, id: string)
    requires Reached(base, now, ops, w)
    ensures A.MarkPending(id) in RaisedActions(Initial(now, base), ops) <==>
              id in w.net.transfers && Stuck(w.net.transfers[id])
    ensures A.Complete(id) in RaisedActions(Initial(now, base), ops) <==>
              id in w.net.transfers && w.net.transfers[id].status == A.Completed && !DebitDue(base, id)
    ensures A.CompleteReturn(id) in RaisedActions(Initial(now, base), ops) <==>
              id in w.returned && w.returned[id].status == R.Completed && !CreditDue(base, id, w.returned[id].receivedAt + 5)
  {
    RaisedExactly(base, now, ops, w);
    ReachedInv(base, now, ops, w);
    FailedIff(base, w, id);
  }

  lemma FailedIff(base: seq<Entry>, w: R.World, id: string)
    requires OnlyIfDue(base, w.net.transfers, w.returned)
    ensures Failed(w, A.MarkPending(id)) <==> id in w.net.transfers && Stuck(w.net.transfers[id])
    ensures Failed(w, A.Complete(id)) <==>
              id in w.net.transfers && w.net.transfers[id].status == A.Completed && !DebitDue(base, id)
    ensures Failed(w, A.CompleteReturn(id)) <==>
              id in w.returned && w.returned[id].status == R.Completed && !CreditDue(base, id, w.returned[id].receivedAt + 5)
  {
  }

  /** On a ledger without debits of transfers, a completion raises exactly when it was ahead of time 10 and one comes to completion. */
  lemma CompletionRaisesIff(base: seq<Entry>, now: nat, ops: seq<R.Op>, w: R.World)
    requires Reached(base, now, ops, w) && forall id :: PaymentDebit(id) !in Ids(base)
    ensures (exists id :: A.Complete(id) in RaisedActions(Initial(now, base), ops)) <==>
              LastPosted(base) > 10 && exists id :: id in w.net.transfers && w.net.transfers[id].status == A.Completed
  {
    forall id
      ensures A.Complete(id) in RaisedActions(Initial(now, base), ops) <==>
                id in w.net.transfers && w.net.transfers[id].status == A.Completed && LastPosted(base) > 10
    {
      RaisedIff(base, now, ops, w, id);
    }
  }

  /** Accepted, and every step of it can be taken: there is a description for its hold and room for its debit. */
  ghost predicate Smooth(base: seq<Entry>, id: string, t: A.Transfer) {
    t.status == A.Received || t.status == A.Rejected || (!A.Flawed(t.request) && DebitDue(base, id))
  }

  ghost predicate SmoothReturn(base: seq<Entry>, id: string, r: R.Return) {
    Active(r.status) ==> CreditDue(base, id, r.receivedAt + 5)
  }

  /** A run that has come to its end has raised nothing exactly when everything it accepted could be held and posted. */
  lemma NothingRaisesIff(base: seq<Entry>, now: nat, ops: seq<R.Op>, w: R.World)
    requires Reached(base, now, ops, w) && w.net.agenda.queue == []
    ensures RaisedActions(Initial(now, base), ops) == {} <==>
              && (forall id :: id in w.net.transfers ==> Smooth(base, id, w.net.transfers[id]))
              && (forall id :: id in w.returned ==> SmoothReturn(base, id, w.returned[id]))
  {
    ReachedInv(base, now, ops, w);
    DrainedIsSettled(base, now, ops, w);
    RaisedExactly(base, now, ops, w);
    MarksIff(base, w);
  }

  lemma MarksIff(base: seq<Entry>, w: R.World)
    requires Settled(w) && OnlyIfDue(base, w.net.transfers, w.returned) && GoodTransfers(w.net.transfers)
    ensures (forall a :: !Failed(w, a)) <==>
              && (forall id :: id in w.net.transfers ==> Smooth(base, id, w.net.transfers[id]))
              && (forall id :: id in w.returned ==> SmoothReturn(base, id, w.returned[id]))
  {
    TransferMarksIff(base, w);
    ReturnMarksIff(base, w);
  }

  lemma TransferMarksIff(base: seq<Entry>, w: R.World)
    requires Settled(w) && OnlyIfDue(base, w.net.transfers, w.returned) && GoodTransfers(w.net.transfers)
    ensures (forall id :: !Failed(w, A.MarkPending(id)) && !Failed(w, A.Complete(id))) <==>
              forall id :: id in w.net.transfers ==> Smooth(base, id, w.net.transfers[id])
  {
    forall id | id in w.net.transfers
      ensures Smooth(base, id, w.net.transfers[id]) <==> !Failed(w, A.MarkPending(id)) && !Failed(w, A.Complete(id))
    {
      assert GoodTransfer(id, w.net.transfers[id]);
    }
  }

  lemma ReturnMarksIff(base: seq<Entry>, w: R.World)
    requires Settled(w) && OnlyIfDue(base, w.net.transfers, w.returned)
    ensures (forall id :: !Failed(w, A.CompleteReturn(id))) <==>
              forall id :: id in w.returned ==> SmoothReturn(base, id, w.returned[id])
  {
    forall id | id in w.returned
      ensures SmoothReturn(base, id, w.returned[id]) <==> !Failed(w, A.CompleteReturn(id))
    {
    }
  }
}
