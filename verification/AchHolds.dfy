/** Two accounts behind one network: the hold of one shows in the available balance of the other. */
module AchHolds {
  import opened Scheduling
  import opened Ledgers
  import opened AchSchedule
  import opened AchBooks
  import opened AchInvariant
  import opened AchTheorems
  import opened AchFailures
  import opened AchFunds
  import opened AchExamples
  import opened AchRefunds
  import A = Ach
  import R = AchReturns

  /** The transfer's next action is all there is to do. */
  ghost predicate Lonely(w: R.World, id: string, request: A.TransferRequest, status: A.TransferStatus, action: A.Action) {
    && |w.net.agenda.queue| == 1 && w.net.agenda.queue[0].action == action
    && w.returned == map[] && w.net.transfers.Keys == {id} && w.net.transfers[id].request == request && w.net.transfers[id].status == status
  }

  lemma ReceivedLonely(base: seq<Entry>, request: A.TransferRequest)
    ensures Lonely(R.Step(Initial(0, base), R.ReceiveTransfer(request)).world, request.id, request, A.Received, A.Validate(request.id))
  {
  }

  /** The one event, taken; what it leaves is what its action leaves. */
  lemma TakenLonely(base: seq<Entry>, now: nat, ops: seq<R.Op>, w: R.World) returns (u: R.World)
    requires Reached(base, now, ops, w) && |w.net.agenda.queue| == 1
    requires SubjectOf(w.net.agenda.queue[0].action).OfTransfer?
    ensures TransferReady(u, w.net.agenda.queue[0]) && Books(u, base) && u.net.agenda.queue == []
    ensures u.net.transfers == w.net.transfers && u.returned == w.returned && w.net.agenda.now <= u.net.agenda.now
    ensures var v := R.RunNext(w).world;
            && v.net.transfers == R.Execute(u, w.net.agenda.queue[0].action).world.net.transfers
            && v.returned == R.Execute(u, w.net.agenda.queue[0].action).world.returned
            && v.net.agenda.queue == R.Execute(u, w.net.agenda.queue[0].action).world.net.agenda.queue
  {
    ReachedInv(base, now, ops, w);
    TakeTurn(w);
    TakenFails(w, base);
    var Due(e, rest) := TakeNext(w.net.agenda);
    u := R.Timed(w, rest);
    LaterBooks(w, base, rest);
    TransferTurn(u, e);
    RunNextIs(w, e, rest);
  }

  lemma ScheduledLonely(n: A.Network, time: nat, action: A.Action)
    requires Clocked(n.agenda) && n.agenda.queue == [] && n.agenda.now <= time
    ensures A.Schedule(n, time, action).network.agenda.queue == [Event(time, n.agenda.nextOrder, action)]
    ensures A.Schedule(n, time, action).network.transfers == n.transfers
  {
  }

  lemma ValidatedLonely(base: seq<Entry>, now: nat, ops: seq<R.Op>, w: R.World, id: string, request: A.TransferRequest)
    requires Reached(base, now, ops, w) && Lonely(w, id, request, A.Received, A.Validate(id)) && Verdict(base, request).None?
    ensures Lonely(R.RunNext(w).world, id, request, A.Validated, A.MarkPending(id))
  {
    var e := w.net.agenda.queue[0];
    var u := TakenLonely(base, now, ops, w);
    var moved := A.Moved(u.net.transfers[id], A.Validated, 1);
    StillOpening(u, base, request.account);
    AcceptIs(u, e, moved);
    ScheduledLonely(PutTransfer(u, id, moved).net, 2, A.MarkPending(id));
  }

  lemma PendingLonely(base: seq<Entry>, now: nat, ops: seq<R.Op>, w: R.World, id: string, request: A.TransferRequest)
    requires Reached(base, now, ops, w) && Lonely(w, id, request, A.Validated, A.MarkPending(id)) && !A.Flawed(request)
    ensures Lonely(R.RunNext(w).world, id, request, A.Pending, A.Submit(id))
  {
    var e := w.net.agenda.queue[0];
    var u := TakenLonely(base, now, ops, w);
    var moved := A.Moved(u.net.transfers[id], A.Pending, 2);
    HoldIs(u, e, moved);
    ScheduledLonely(Held(u, id, moved).net, 3, A.Submit(id));
  }

  function UntilHeld(request: A.TransferRequest): seq<R.Op> {
    [R.ReceiveTransfer(request), R.RunEvent, R.RunEvent]
  }

  ghost predicate ReachedLonely(base: seq<Entry>, ops: seq<R.Op>, w: R.World, request: A.TransferRequest,
                                status: A.TransferStatus, action: A.Action)
  {
    Reached(base, 0, ops, w) && Lonely(w, request.id, request, status, action)
  }

  lemma ReceivedLone(base: seq<Entry>, request: A.TransferRequest) returns (w: R.World)
    requires Sound(base)
    ensures ReachedLonely(base, [R.ReceiveTransfer(request)], w, request, A.Received, A.Validate(request.id))
  {
    w := R.Step(Initial(0, base), R.ReceiveTransfer(request)).world;
    ReceivedLonely(base, request);
    FirstReached(base, R.ReceiveTransfer(request));
  }

  lemma FirstReached(base: seq<Entry>, op: R.Op)
    requires Sound(base) && !op.AdvanceClock?
    ensures Reached(base, 0, [op], R.Step(Initial(0, base), op).world)
  {
    AfterOne(Initial(0, base), [], op);
    assert [] + [op] == [op];
  }

  lemma ValidatedLone(base: seq<Entry>, ops: seq<R.Op>, w: R.World, request: A.TransferRequest)
    requires ReachedLonely(base, ops, w, request, A.Received, A.Validate(request.id)) && Verdict(base, request).None?
    ensures ReachedLonely(base, ops + [R.RunEvent], R.RunNext(w).world, request, A.Validated, A.MarkPending(request.id))
  {
    ValidatedLonely(base, 0, ops, w, request.id, request);
    ReachedOne(base, 0, ops, w, R.RunEvent);
  }

  lemma PendingLone(base: seq<Entry>, ops: seq<R.Op>, w: R.World, request: A.TransferRequest)
    requires ReachedLonely(base, ops, w, request, A.Validated, A.MarkPending(request.id)) && !A.Flawed(request)
    ensures ReachedLonely(base, ops + [R.RunEvent], R.RunNext(w).world, request, A.Pending, A.Submit(request.id))
  {
    PendingLonely(base, 0, ops, w, request.id, request);
    ReachedOne(base, 0, ops, w, R.RunEvent);
  }

  /** A transfer that passes by itself is held after two events. */
  lemma HeldAfterTwo(base: seq<Entry>, request: A.TransferRequest)
    requires Sound(base) && Verdict(base, request).None? && !A.Flawed(request)
    ensures ReachedLonely(base, UntilHeld(request), R.After(Initial(0, base), UntilHeld(request)),
                          request, A.Pending, A.Submit(request.id))
  {
    var ops1 := [R.ReceiveTransfer(request)];
    var w1 := ReceivedLone(base, request);
    ValidatedLone(base, ops1, w1, request);
    PendingLone(base, ops1 + [R.RunEvent], R.RunNext(w1).world, request);
    UntilHeldIs(request);
    SameLonely(base, ops1 + [R.RunEvent] + [R.RunEvent], R.RunNext(R.RunNext(w1).world).world, UntilHeld(request), request);
  }

  lemma UntilHeldIs(request: A.TransferRequest)
    ensures [R.ReceiveTransfer(request)] + [R.RunEvent] + [R.RunEvent] == UntilHeld(request)
  {
  }

  lemma SameLonely(base: seq<Entry>, ops: seq<R.Op>, w: R.World, same: seq<R.Op>, request: A.TransferRequest)
    requires ReachedLonely(base, ops, w, request, A.Pending, A.Submit(request.id)) && ops == same
    ensures ReachedLonely(base, same, R.After(Initial(0, base), same), request, A.Pending, A.Submit(request.id))
  {
  }

  lemma TotalOne<V>(ids: seq<string>, m: map<string, V>, f: V -> int, id: string)
    requires Filed(ids, m) && m.Keys == {id}
    ensures Total(ids, m, f) == f(m[id])
  {
    assert id in ids;
    if |ids| > 1 {
      FirstTwo(ids, id);
    }
    assert ids == [id];
  }

  lemma FirstTwo(ids: seq<string>, id: string)
    requires |ids| > 1 && forall x :: x in ids ==> x == id
    ensures ids[0] == ids[1]
  {
    assert ids[0] in ids && ids[1] in ids;
  }

  /** Meanwhile every account has what it had, and that much less available. */
  lemma LonelyHold(base: seq<Entry>, now: nat, ops: seq<R.Op>, w: R.World, id: string, request: A.TransferRequest, account: string)
    requires Reached(base, now, ops, w) && Lonely(w, id, request, A.Pending, A.Submit(id)) && !A.Flawed(request)
    ensures AccountBalance(w.net.entries, account) == AccountBalance(base, account)
    ensures A.Available(w.net, account) == AccountBalance(base, account) - request.cents
  {
    ReachedInv(base, now, ops, w);
    assert Filed(w.net.ids, w.net.transfers);
    TotalOne(w.net.ids, w.net.transfers, DebitedFrom(account), id);
    TotalOne(w.net.ids, w.net.transfers, HeldCents, id);
    TotalNothing(w.rids, w.returned, CreditedTo(w.net.transfers, account));
    AvailableIs(base, now, ops, w, account);
    assert BalancedFor(account, w.net.entries, base, w.net.ids, w.net.transfers, w.rids, w.returned);
  }

  // ----- Two accounts, opened with 100 cents each -----

  function TwoAccounts(): seq<Entry> {
    [Entry(Opening, "ACC", 100, Credit, 1, 0), Entry(Other("OPEN-2"), "ACC-2", 100, Credit, 2, 0)]
  }

  lemma TwoAccountsAre()
    ensures Sound(TwoAccounts()) && AccountBalance(TwoAccounts(), "ACC") == 100 && AccountBalance(TwoAccounts(), "ACC-2") == 100
  {
    assert TwoAccounts()[..1] == [TwoAccounts()[0]] && TwoAccounts()[..1][..0] == [];
  }

  /** Nothing of the second account is on its way, it has 100, and 40 are available. */
  lemma SharedHoldExample()
    ensures var ops := UntilHeld(Transfer60("T", ""));
            var w := R.After(Initial(0, TwoAccounts()), ops);
            && Reached(TwoAccounts(), 0, ops, w)
            && (forall id :: id in w.net.transfers ==> w.net.transfers[id].request.account != "ACC-2")
            && AccountBalance(w.net.entries, "ACC-2") == 100 && A.Available(w.net, "ACC-2") == 40
  {
    var request := Transfer60("T", "");
    TwoAccountsAre();
    PassesBoth();
    HeldAfterTwo(TwoAccounts(), request);
    LonelyHold(TwoAccounts(), 0, UntilHeld(request), R.After(Initial(0, TwoAccounts()), UntilHeld(request)), "T", request, "ACC-2");
  }

  lemma PassesBoth()
    ensures Verdict(TwoAccounts(), Transfer60("T", "")).None? && !A.Flawed(Transfer60("T", ""))
  {
    TwoAccountsAre();
    A.FlawedIff(Transfer60("T", ""));
    assert "T"[0] == 'T' && "ACC"[0] == 'A' && "BANK"[0] == 'B' && "REF"[0] == 'R';
  }
}
