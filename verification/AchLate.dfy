/** Transfers received after time 1: nothing ever happens to them, and everything else comes to an end. */
module AchLate {
  import opened Scheduling
  import opened Ledgers
  import opened AchSchedule
  import opened AchBooks
  import opened AchInvariant
  import opened AchTheorems
  import opened AchFailures
  import opened AchFunds
  import opened AchRuns
  import A = Ach
  import R = AchReturns

  /** A new transfer, received when time 1 has passed. */
  predicate IsLate(w: R.World, op: R.Op) {
    op.ReceiveTransfer? && op.request.id !in w.net.transfers && w.net.agenda.now > 1
  }

  function LateIds(w: R.World, ops: seq<R.Op>): set<string> {
    if ops == [] then {}
    else
      var init, last := ops[..|ops| - 1], ops[|ops| - 1];
      LateIds(w, init) + (if IsLate(R.After(w, init), last) then {last.request.id} else {})
  }

  /** Exactly the late transfers are received without a validation to come. */
  ghost predicate OnlyLateWait(q: Queue, tr: Transfers, late: set<string>) {
    && (forall id :: id in tr && tr[id].status == A.Received ==> id in late || Validating(q, id))
    && (forall id :: id in late ==> id in tr && tr[id].status == A.Received)
    && (forall e :: e in q && SubjectOf(e.action).OfTransfer? ==> SubjectOf(e.action).id !in late)
  }

  ghost predicate Validating(q: Queue, id: string) {
    exists e :: e in q && e.action == A.Validate(id)
  }

  /** Only the subject of the action changes its status. */
  ghost predicate StatusesKept(tr: Transfers, tr': Transfers, s: Subject) {
    && tr'.Keys == tr.Keys
    && forall id :: id in tr && OfTransfer(id) != s ==> tr'[id].status == tr[id].status
  }

  lemma ExecuteStatuses(w: R.World, a: A.Action)
    requires R.Known(w, a)
    ensures StatusesKept(w.net.transfers, R.Execute(w, a).world.net.transfers, SubjectOf(a))
  {
    ExecuteTouches(w, a);
  }

  lemma ExecuteMoves(w: R.World, e: Event<A.Action>)
    requires TransferReady(w, e)
    ensures var tr := R.Execute(w, e.action).world.net.transfers;
            SubjectOf(e.action).id in tr && tr[SubjectOf(e.action).id].status != A.Received
  {
  }

  /** The event `e` is taken and executed. */
  lemma EventKeepsLate(q: Queue, e: Event<A.Action>, rest: Queue, q': Queue, tr: Transfers, tr': Transfers, late: set<string>)
    requires OnlyLateWait(q, tr, late) && Removed(q, e, rest) && Shrinks(rest, e.action, q')
    requires StatusesKept(tr, tr', SubjectOf(e.action))
    requires SubjectOf(e.action).OfTransfer? && SubjectOf(e.action).id in tr' ==>
               tr'[SubjectOf(e.action).id].status != A.Received
    ensures OnlyLateWait(q', tr', late)
  {
    KeptEvents(rest, e.action, q');
    forall id | id in tr' && tr'[id].status == A.Received ensures id in late || Validating(q', id) {
      if id !in late {
        assert Validating(q, id);
        var x :| x in q && x.action == A.Validate(id);
        assert x in rest;
      }
    }
  }

  lemma KeptEvents(q: Queue, a: A.Action, q': Queue)
    requires Shrinks(q, a, q')
    ensures forall x :: x in q ==> x in q'
    ensures forall x :: x in q' && x !in q ==> SubjectOf(x.action) == SubjectOf(a)
  {
    if q' != q {
      var e :| q' == Insert(q, e) && Left(e.action) < Left(a) && SubjectOf(e.action) == SubjectOf(a);
      InsertAdds(q, e);
    }
  }

  lemma RunNextKeepsLate(w: R.World, base: seq<Entry>, late: set<string>)
    requires Inv(w, base) && OnlyLateWait(w.net.agenda.queue, w.net.transfers, late)
    ensures OnlyLateWait(R.RunNext(w).world.net.agenda.queue, R.RunNext(w).world.net.transfers, late)
  {
    if w.net.agenda.queue != [] {
      TakeTurn(w);
      TakenFails(w, base);
      TakeNextValid(w.net.agenda);
      var Due(e, rest) := TakeNext(w.net.agenda);
      ExecutedKeepsLate(R.Timed(w, rest), w.net.agenda.queue, e, late);
      RunNextIs(w, e, rest);
    }
  }

  lemma ExecutedKeepsLate(w: R.World, q: Queue, e: Event<A.Action>, late: set<string>)
    requires OnlyLateWait(q, w.net.transfers, late) && Removed(q, e, w.net.agenda.queue)
    requires R.Known(w, e.action) && Turn(w, e) && GoodTransfers(w.net.transfers)
    ensures var v := R.Execute(w, e.action).world; OnlyLateWait(v.net.agenda.queue, v.net.transfers, late)
  {
    var v := R.Execute(w, e.action).world;
    ExecuteShrinks(w, e.action);
    ExecuteStatuses(w, e.action);
    if SubjectOf(e.action).OfTransfer? {
      TransferTurn(w, e);
      ExecuteMoves(w, e);
    }
    EventKeepsLate(q, e, w.net.agenda.queue, v.net.agenda.queue, w.net.transfers, v.net.transfers, late);
  }

  lemma ReceiveKeepsLate(w: R.World, base: seq<Entry>, request: A.TransferRequest, late: set<string>)
    requires Inv(w, base) && OnlyLateWait(w.net.agenda.queue, w.net.transfers, late)
    ensures var n := A.Receive(w.net, request).network;
            OnlyLateWait(n.agenda.queue, n.transfers, if IsLate(w, R.ReceiveTransfer(request)) then late + {request.id} else late)
  {
    if request.id !in w.net.transfers {
      NewcomerMirrors(w.net.agenda.queue, w.net.transfers, w.returned, OfTransfer(request.id));
      if w.net.agenda.now <= 1 {
        Scheduled(Kept(w, request).net, 1, A.Validate(request.id));
        PromptKeepsLate(w.net.agenda.queue, w.net.transfers, A.NewTransfer(request),
                        A.Receive(w.net, request).network.agenda.queue, late,
                        Event(1, w.net.agenda.nextOrder, A.Validate(request.id)));
      }
    }
  }

  lemma PromptKeepsLate(q: Queue, tr: Transfers, t: A.Transfer, q': Queue, late: set<string>, e: Event<A.Action>)
    requires OnlyLateWait(q, tr, late) && t.request.id !in tr && e.action == A.Validate(t.request.id) && Added(q, e, q')
    ensures OnlyLateWait(q', tr[t.request.id := t], late)
  {
    var tr' := tr[t.request.id := t];
    assert e in q';
    forall id | id in tr' && tr'[id].status == A.Received ensures id in late || Validating(q', id) {
      if id != t.request.id && id !in late {
        var x :| x in q && x.action == A.Validate(id);
        assert x in q';
      }
    }
  }

  lemma ReturnKeepsLate(w: R.World, request: R.ReturnRequest, late: set<string>)
    requires Valid(w.net.agenda) && OnlyLateWait(w.net.agenda.queue, w.net.transfers, late)
    ensures var v := R.Receive(w, request); OnlyLateWait(v.net.agenda.queue, v.net.transfers, late)
  {
    if request.id !in w.returned {
      var e := Event(w.net.agenda.now + 1, w.net.agenda.nextOrder, A.ValidateReturn(request.id));
      var q' := Insert(w.net.agenda.queue, e);
      InsertAdds(w.net.agenda.queue, e);
      forall id | Validating(w.net.agenda.queue, id) ensures Validating(q', id) {
        var x :| x in w.net.agenda.queue && x.action == A.Validate(id);
        assert x in q';
      }
    }
  }

  lemma StepKeepsLate(w: R.World, base: seq<Entry>, op: R.Op, late: set<string>)
    requires Inv(w, base) && OnlyLateWait(w.net.agenda.queue, w.net.transfers, late)
    ensures var v := R.Step(w, op).world;
            OnlyLateWait(v.net.agenda.queue, v.net.transfers, if IsLate(w, op) then late + {op.request.id} else late)
  {
    match op
    case ReceiveTransfer(request) => ReceiveKeepsLate(w, base, request, late);
    case ReceiveReturn(request) => ReturnKeepsLate(w, request, late);
    case RunEvent => RunNextKeepsLate(w, base, late);
    case AdvanceClock(_) =>
  }

  lemma {:induction false} ReachedLate(base: seq<Entry>, now: nat, ops: seq<R.Op>, w: R.World)
    requires Reached(base, now, ops, w)
    ensures OnlyLateWait(w.net.agenda.queue, w.net.transfers, LateIds(Initial(now, base), ops))
    decreases |ops|
  {
    if ops != [] {
      var init, before := ops[..|ops| - 1], R.After(Initial(now, base), ops[..|ops| - 1]);
      ReachedLate(base, now, init, before);
      ReachedInv(base, now, init, before);
      StepKeepsLate(before, base, ops[|ops| - 1], LateIds(Initial(now, base), init));
    }
  }

  /** What a caller can tell on receipt: valid, affordable from the opening balance, and with a description that is blank. */
  ghost predicate Doomed(base: seq<Entry>, request: A.TransferRequest) {
    Verdict(base, request).None? && A.Flawed(request)
  }

  /**
   When nothing is pending, every transfer has been completed or rejected,
   except exactly those that were received after time 1 and those that were
   accepted with a blank description.
   */
  lemma UnendedExactlyIf(base: seq<Entry>, now: nat, ops: seq<R.Op>, w: R.World, id: string)
    requires Reached(base, now, ops, w) && w.net.agenda.queue == [] && id in w.net.transfers
    ensures !Over(w.net.transfers[id]) <==>
              id in LateIds(Initial(now, base), ops) || Doomed(base, w.net.transfers[id].request)
  {
    ReachedLate(base, now, ops, w);
    DrainedIsSettled(base, now, ops, w);
    if w.net.transfers[id].status != A.Received {
      JudgedAlone(base, now, ops, w, id);
    }
    if w.net.transfers[id].status == A.Completed {
      CompletedIsSmooth(base, now, ops, w, id);
    }
  }

  lemma CompletedIsSmooth(base: seq<Entry>, now: nat, ops: seq<R.Op>, w: R.World, id: string)
    requires Reached(base, now, ops, w) && id in w.net.transfers && w.net.transfers[id].status == A.Completed
    ensures !A.Flawed(w.net.transfers[id].request)
  {
    ReachedInv(base, now, ops, w);
    assert GoodTransfer(id, w.net.transfers[id]);
  }

  /** How a transfer received in time ends: its own verdict and description decide, and nothing else. */
  ghost function Outcome(base: seq<Entry>, request: A.TransferRequest): A.TransferStatus {
    if Verdict(base, request).Some? then A.Rejected
    else if A.Flawed(request) then A.Pending
    else A.Completed
  }

  lemma EndsAs(base: seq<Entry>, now: nat, ops: seq<R.Op>, w: R.World, id: string)
    requires Reached(base, now, ops, w) && w.net.agenda.queue == [] && id in w.net.transfers
    requires id !in LateIds(Initial(now, base), ops)
    ensures w.net.transfers[id].status == Outcome(base, w.net.transfers[id].request)
  {
    UnendedExactlyIf(base, now, ops, w, id);
    DrainedIsSettled(base, now, ops, w);
    ReachedLate(base, now, ops, w);
    JudgedAlone(base, now, ops, w, id);
    if w.net.transfers[id].status == A.Completed {
      CompletedIsSmooth(base, now, ops, w, id);
    }
  }
}
