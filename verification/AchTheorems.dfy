/** What holds in every state the two ACH workflows reach. */
module AchTheorems {
  import opened Scheduling
  import opened Ledgers
  import opened AchSchedule
  import opened AchBooks
  import opened AchInvariant
  import A = Ach
  import R = AchReturns

  function Initial(now: nat, base: seq<Entry>): R.World {
    R.Open(A.Open(now, base))
  }

  lemma InitialInv(now: nat, base: seq<Entry>)
    requires Sound(base)
    ensures Inv(Initial(now, base), base)
  {
    var w := Initial(now, base);
    forall a ensures BalancedFor(a, base, base, w.net.ids, w.net.transfers, w.rids, w.returned) {
    }
  }

  // ----- Receiving a transfer -----

  ghost function Kept(w: R.World, request: A.TransferRequest): R.World {
    w.(net := w.net.(ids := w.net.ids + [request.id], transfers := w.net.transfers[request.id := A.NewTransfer(request)]))
  }

  lemma KeptAccounts(w: R.World, base: seq<Entry>, request: A.TransferRequest)
    requires Books(w, base) && request.id !in w.net.transfers
    ensures Accounts(Kept(w, request), base)
  {
    var n, t := w.net, A.NewTransfer(request);
    ReturnsAreKnown(w);
    HoldingNew(n.pending, n.ids, n.transfers, request.id, t);
    BalancedNew(n.entries, base, n.ids, n.transfers, w.rids, w.returned, request.id, t);
  }

  lemma KeptRecords(w: R.World, base: seq<Entry>, request: A.TransferRequest)
    requires Records(w, base) && request.id !in w.net.transfers
    ensures Records(Kept(w, request), base)
  {
    MoveRecords(w, base, request.id, A.NewTransfer(request));
  }

  lemma KeptInv(w: R.World, base: seq<Entry>, request: A.TransferRequest)
    requires Inv(w, base) && request.id !in w.net.transfers
    ensures Books(Kept(w, request), base)
    ensures Mirrored(w.net.agenda.queue, Kept(w, request).net.transfers, w.returned)
    ensures MirroredBut(w.net.agenda.queue, w.net.transfers, w.returned, OfTransfer(request.id))
  {
    KeptAccounts(w, base, request);
    KeptRecords(w, base, request);
    NewcomerMirrors(w.net.agenda.queue, w.net.transfers, w.returned, OfTransfer(request.id));
    TransferEnds(w.net.agenda.queue, w.net.transfers, w.returned, request.id, A.NewTransfer(request));
  }

  lemma ReceiveOnTime(w: R.World, base: seq<Entry>, request: A.TransferRequest)
    requires Clocked(w.net.agenda) && w.net.agenda.now <= 1 && Books(Kept(w, request), base)
    requires MirroredBut(w.net.agenda.queue, w.net.transfers, w.returned, OfTransfer(request.id))
    ensures var s := A.Schedule(Kept(w, request).net, 1, A.Validate(request.id));
            !s.raised && Inv(w.(net := s.network), base)
  {
    var n := Kept(w, request).net;
    Scheduled(n, 1, A.Validate(request.id));
    var s := A.Schedule(n, 1, A.Validate(request.id));
    TransferAdvances(w.net.agenda.queue, w.net.transfers, w.returned, request.id, A.NewTransfer(request),
                     Event(1, n.agenda.nextOrder, A.Validate(request.id)), s.network.agenda.queue);
    BooksFrame(Kept(w, request), w.(net := s.network), base);
  }

  /** A transfer is refused a second time, and a new one raises exactly when time 1 has passed. */
  lemma ReceiveTransferInv(w: R.World, base: seq<Entry>, request: A.TransferRequest)
    requires Inv(w, base)
    ensures Inv(w.(net := A.Receive(w.net, request).network), base)
    ensures A.Receive(w.net, request).raised <==> request.id in w.net.transfers || w.net.agenda.now > 1
  {
    if request.id !in w.net.transfers {
      KeptInv(w, base, request);
      if w.net.agenda.now <= 1 {
        ReceiveOnTime(w, base, request);
      }
    }
  }

  // ----- Receiving a return -----

  ghost function FiledReturn(w: R.World, request: R.ReturnRequest): R.World {
    w.(rids := w.rids + [request.id], returned := w.returned[request.id := R.NewReturn(request, w.net.agenda.now)])
  }

  lemma FiledAccounts(w: R.World, base: seq<Entry>, request: R.ReturnRequest)
    requires Accounts(w, base) && request.id !in w.returned
    ensures Accounts(FiledReturn(w, request), base)
  {
    BalancedReturnNew(w.net.entries, base, w.net.ids, w.net.transfers, w.rids, w.returned, request.id,
                      R.NewReturn(request, w.net.agenda.now));
  }

  lemma FiledRecords(w: R.World, base: seq<Entry>, request: R.ReturnRequest)
    requires Records(w, base) && request.id !in w.returned
    ensures Records(FiledReturn(w, request), base)
  {
    var r := R.NewReturn(request, w.net.agenda.now);
    ReturnMoves(w.net.transfers, w.returned, w.byTransfer, request.id, r);
    ReturnDueKept(base, w.net.transfers, w.returned, request.id, r);
    ReturnKept(w.net.entries, base, w.net.transfers, w.returned, request.id, r);
    GoodReturnPut(w.returned, request.id, r);
  }

  lemma FiledLater(w: R.World, base: seq<Entry>, request: R.ReturnRequest)
    requires Clocked(w.net.agenda) && Books(FiledReturn(w, request), base)
    requires MirroredBut(w.net.agenda.queue, w.net.transfers, w.returned, OfReturn(request.id))
    ensures Inv(R.Later(FiledReturn(w, request), 1, A.ValidateReturn(request.id)), base)
  {
    var r := R.NewReturn(request, w.net.agenda.now);
    ReturnMovesOn(w, FiledReturn(w, request), base, request.id, r, 1, r.receivedAt + 1, A.ValidateReturn(request.id));
  }

  lemma ReceiveReturnInv(w: R.World, base: seq<Entry>, request: R.ReturnRequest)
    requires Inv(w, base)
    ensures Inv(R.Receive(w, request), base)
  {
    if request.id !in w.returned {
      FiledAccounts(w, base, request);
      FiledRecords(w, base, request);
      NewcomerMirrors(w.net.agenda.queue, w.net.transfers, w.returned, OfReturn(request.id));
      FiledLater(w, base, request);
    }
  }

  // ----- Moving the clock -----

  lemma AdvanceInv(w: R.World, base: seq<Entry>, time: nat)
    requires Inv(w, base) && w.net.agenda.now <= time
    requires forall e :: e in w.net.agenda.queue ==> time <= e.time
    ensures Inv(R.Timed(w, w.net.agenda.(now := time)), base)
  {
    TimelyLater(w.net.entries, base, w.net.agenda.now, time, w.net.transfers);
  }

  lemma StepInv(w: R.World, base: seq<Entry>, op: R.Op)
    requires Inv(w, base) && R.Permitted(w, op)
    ensures Inv(R.Step(w, op).world, base)
  {
    match op
    case ReceiveTransfer(request) => ReceiveTransferInv(w, base, request);
    case ReceiveReturn(request) => ReceiveReturnInv(w, base, request);
    case RunEvent => RunNextInv(w, base);
    case AdvanceClock(time) =>
      if w.net.agenda.now <= time {
        AdvanceInv(w, base, time);
      }
  }

  ghost predicate Reached(base: seq<Entry>, now: nat, ops: seq<R.Op>, w: R.World) {
    Sound(base) && R.AllPermitted(Initial(now, base), ops) && w == R.After(Initial(now, base), ops)
  }

  /** The invariant holds after every sequence of calls, events and clock moves. */
  lemma {:induction false} ReachedInv(base: seq<Entry>, now: nat, ops: seq<R.Op>, w: R.World)
    requires Reached(base, now, ops, w)
    ensures Inv(w, base)
    decreases |ops|
  {
    if ops == [] {
      InitialInv(now, base);
    } else {
      var init := ops[..|ops| - 1];
      ReachedInv(base, now, init, R.After(Initial(now, base), init));
      StepInv(R.After(Initial(now, base), init), base, ops[|ops| - 1]);
    }
  }

  // ----- Consequences -----

  /** Which event raises is settled by the head of the queue, the description of its transfer and the ledger's start. */
  lemma NextRaisesIff(base: seq<Entry>, now: nat, ops: seq<R.Op>, w: R.World)
    requires Reached(base, now, ops, w)
    ensures R.RunNext(w).raised <==> w.net.agenda.queue != [] && Raises(w, w.net.agenda.queue[0], base)
  {
    ReachedInv(base, now, ops, w);
    RunNextInv(w, base);
  }

  /** A hold exists exactly while a transfer whose hold could be made is pending, submitted or processing; there is one, of its amount. */
  lemma HoldIffInFlight(base: seq<Entry>, now: nat, ops: seq<R.Op>, w: R.World, id: string)
    requires Reached(base, now, ops, w)
    ensures HeldFor(w.net.pending, id) <==> id in w.net.transfers && InFlight(w.net.transfers[id])
    ensures DistinctHolds(w.net.pending)
    ensures forall h :: h in w.net.pending && h.transfer == id ==> h.cents == w.net.transfers[id].request.cents
  {
    ReachedInv(base, now, ops, w);
    assert HoldsMatch(w.net.pending, w.net.transfers);
  }

  /** The available balance of an account: what it had, less its debited transfers, plus its credited returns, less every hold. */
  lemma AvailableIs(base: seq<Entry>, now: nat, ops: seq<R.Op>, w: R.World, account: string)
    requires Reached(base, now, ops, w)
    ensures A.Available(w.net, account) ==
            AccountBalance(base, account) - Total(w.net.ids, w.net.transfers, DebitedFrom(account))
            + Total(w.rids, w.returned, CreditedTo(w.net.transfers, account))
            - Total(w.net.ids, w.net.transfers, HeldCents)
  {
    ReachedInv(base, now, ops, w);
    assert BalancedFor(account, w.net.entries, base, w.net.ids, w.net.transfers, w.rids, w.returned);
  }

  ghost function CommittedCents(t: A.Transfer): int {
    if InFlight(t) || Debited(t) then t.request.cents else 0
  }

  ghost function RefundedCents(r: R.Return): int {
    if Credited(r) then r.request.cents else 0
  }

  ghost predicate OneSource(tr: Transfers, account: string) {
    forall id :: id in tr ==> tr[id].request.account == account
  }

  lemma {:induction false} CommittedSplits(ids: seq<string>, tr: Transfers, account: string)
    requires OneSource(tr, account)
    ensures Total(ids, tr, CommittedCents) == Total(ids, tr, DebitedFrom(account)) + Total(ids, tr, HeldCents)
    decreases |ids|
  {
    if ids != [] {
      CommittedSplits(ids[..|ids| - 1], tr, account);
    }
  }

  /** With one source account: opening balance, less all transfers that are held or debited, plus all credited returns. */
  lemma AvailableOfOneSource(base: seq<Entry>, now: nat, ops: seq<R.Op>, w: R.World, account: string)
    requires Reached(base, now, ops, w) && OneSource(w.net.transfers, account)
    ensures A.Available(w.net, account) ==
            AccountBalance(base, account) - Total(w.net.ids, w.net.transfers, CommittedCents)
            + Total(w.rids, w.returned, RefundedCents)
  {
    ReachedInv(base, now, ops, w);
    AvailableIs(base, now, ops, w, account);
    CommittedSplits(w.net.ids, w.net.transfers, account);
    ReturnsAreKnown(w);
    TotalSame(w.rids, w.returned, CreditedTo(w.net.transfers, account), RefundedCents);
  }

  /** No transfer is returned twice, and a return credits the account and the amount that were debited. */
  lemma ReturnedOnce(base: seq<Entry>, now: nat, ops: seq<R.Op>, w: R.World, r: string, s: string)
    requires Reached(base, now, ops, w) && r in w.returned && s in w.returned
    requires Active(w.returned[r].status) && Active(w.returned[s].status)
    ensures Corrects(w.returned[r], w.net.transfers)
    ensures w.returned[r].request.transfer == w.returned[s].request.transfer ==> r == s
  {
    ReachedInv(base, now, ops, w);
    assert Returning(w.net.transfers, w.returned, w.byTransfer);
  }

  /** To the ledger as it was, one debit for each completed transfer and one credit for each completed return that it could take. */
  lemma OnePostingEach(base: seq<Entry>, now: nat, ops: seq<R.Op>, w: R.World, id: string)
    requires Reached(base, now, ops, w)
    ensures Sound(w.net.entries) && base <= w.net.entries
    ensures PaymentDebit(id) in Ids(w.net.entries) <==>
              PaymentDebit(id) in Ids(base)
              || (id in w.net.transfers && w.net.transfers[id].status == A.Completed && DebitDue(base, id))
    ensures ReturnCredit(id) in Ids(w.net.entries) <==>
              ReturnCredit(id) in Ids(base)
              || (id in w.returned && w.returned[id].status == R.Completed && CreditDue(base, id, w.returned[id].receivedAt + 5))
  {
    ReachedInv(base, now, ops, w);
    assert OnlyIfDue(base, w.net.transfers, w.returned);
  }

  /** Whatever a transfer has been through, it went through on the fixed timetable; a debit that was refused is not observed. */
  lemma OnTimetable(base: seq<Entry>, now: nat, ops: seq<R.Op>, w: R.World, id: string)
    requires Reached(base, now, ops, w) && id in w.net.transfers
    ensures var t := w.net.transfers[id];
            t.history == if t.status == A.Completed && !DebitDue(base, id) then Timetable(t.status)[..6] else Timetable(t.status)
  {
    ReachedInv(base, now, ops, w);
    assert GoodTransfer(id, w.net.transfers[id]) && OnlyIfDue(base, w.net.transfers, w.returned);
  }

  lemma ReturnOnTimetable(base: seq<Entry>, now: nat, ops: seq<R.Op>, w: R.World, id: string)
    requires Reached(base, now, ops, w) && id in w.returned
    ensures var r := w.returned[id];
            r.history == if r.status == R.Completed && !CreditDue(base, id, r.receivedAt + 5)
                         then ReturnTimetable(r.receivedAt, r.status)[..4]
                         else ReturnTimetable(r.receivedAt, r.status)
  {
    ReachedInv(base, now, ops, w);
    assert GoodReturn(id, w.returned[id]) && OnlyIfDue(base, w.net.transfers, w.returned);
  }

  /** Accepted, moved to pending, and left there because its hold could not be made. */
  predicate Stuck(t: A.Transfer) {
    t.status == A.Pending && A.Flawed(t.request)
  }

  predicate Over(t: A.Transfer) {
    t.status == A.Completed || t.status == A.Rejected
  }

  lemma NothingLeft(tr: Transfers, re: Returns)
    requires AllAwaited([], tr, re)
    ensures forall id :: id in tr ==> Over(tr[id]) || Stuck(tr[id]) || tr[id].status == A.Received
    ensures forall id :: id in re ==> re[id].status == R.Completed || re[id].status == R.Rejected
  {
    forall id | id in tr ensures Over(tr[id]) || Stuck(tr[id]) || tr[id].status == A.Received {
      assert Awaited([], tr, re, OfTransfer(id));
    }
    forall id | id in re ensures re[id].status == R.Completed || re[id].status == R.Rejected {
      assert Awaited([], tr, re, OfReturn(id));
    }
  }

  lemma HoldInFlight(pending: seq<A.Hold>, tr: Transfers)
    requires HoldsMatch(pending, tr) && pending != []
    ensures exists id :: id in tr && InFlight(tr[id])
  {
    assert pending[0] in pending;
  }

  lemma NoHoldLeft(pending: seq<A.Hold>, tr: Transfers)
    requires HoldsMatch(pending, tr) && forall id :: id in tr ==> !InFlight(tr[id])
    ensures pending == []
  {
    if pending != [] {
      HoldInFlight(pending, tr);
    }
  }

  ghost predicate Settled(w: R.World) {
    && w.net.agenda.queue == [] && w.net.pending == []
    && (forall id :: id in w.net.transfers ==>
          Over(w.net.transfers[id]) || Stuck(w.net.transfers[id]) || w.net.transfers[id].status == A.Received)
    && (forall id :: id in w.returned ==> w.returned[id].status == R.Completed || w.returned[id].status == R.Rejected)
  }

  lemma EmptyIsSettled(w: R.World, base: seq<Entry>)
    requires Inv(w, base) && w.net.agenda.queue == []
    ensures Settled(w)
  {
    NothingLeft(w.net.transfers, w.returned);
    NoHoldLeft(w.net.pending, w.net.transfers);
  }

  /**
   When no event is left, no hold is left, every return has come to an end, and
   so has every transfer but those whose hold could not be made and those still
   received.
   */
  lemma DrainedIsSettled(base: seq<Entry>, now: nat, ops: seq<R.Op>, w: R.World)
    requires Reached(base, now, ops, w) && w.net.agenda.queue == []
    ensures Settled(w)
  {
    ReachedInv(base, now, ops, w);
    EmptyIsSettled(w, base);
  }

  // ----- No account regains more than it lost -----

  ghost function Without(ids: seq<string>, id: string): seq<string> {
    if ids == [] then []
    else
      var init, last := ids[..|ids| - 1], ids[|ids| - 1];
      if last == id then Without(init, id) else Without(init, id) + [last]
  }

  lemma {:induction false} WithoutHas(ids: seq<string>, id: string)
    ensures forall x :: x in Without(ids, id) <==> x in ids && x != id
    decreases |ids|
  {
    if ids != [] {
      var init := ids[..|ids| - 1];
      WithoutHas(init, id);
      assert ids == init + [ids[|ids| - 1]];
    }
  }

  lemma {:induction false} TotalWithout<V>(ids: seq<string>, m: map<string, V>, f: V -> int, id: string)
    requires id in ids && id in m && forall x :: x in m ==> f(m[x]) >= 0
    ensures Total(ids, m, f) >= Total(Without(ids, id), m, f) + f(m[id])
    decreases |ids|
  {
    var init, last := ids[..|ids| - 1], ids[|ids| - 1];
    assert ids == init + [last];
    if last == id {
      WithoutSmaller(init, m, f, id);
    } else {
      TotalWithout(init, m, f, id);
      assert (Without(init, id) + [last])[..|Without(init, id)|] == Without(init, id);
    }
  }

  lemma {:induction false} WithoutSmaller<V>(ids: seq<string>, m: map<string, V>, f: V -> int, id: string)
    requires forall x :: x in m ==> f(m[x]) >= 0
    ensures Total(ids, m, f) >= Total(Without(ids, id), m, f)
    decreases |ids|
  {
    if ids != [] {
      var init, last := ids[..|ids| - 1], ids[|ids| - 1];
      WithoutSmaller(init, m, f, id);
      assert (Without(init, id) + [last])[..|Without(init, id)|] == Without(init, id);
    }
  }

  /** The credited returns among `rids` are of different transfers, all among `ids`, each for its full amount. */
  ghost predicate Matched(rids: seq<string>, re: Returns, ids: seq<string>, tr: Transfers) {
    && (forall i :: 0 <= i < |rids| && Refunded(re, rids[i]) ==>
          Corrects(re[rids[i]], tr) && re[rids[i]].request.transfer in ids)
    && (forall i, j :: 0 <= i < j < |rids| && Refunded(re, rids[i]) && Refunded(re, rids[j]) ==>
          re[rids[i]].request.transfer != re[rids[j]].request.transfer)
  }

  ghost predicate Refunded(re: Returns, r: string) {
    r in re && Credited(re[r])
  }

  lemma MatchedInit(rids: seq<string>, re: Returns, ids: seq<string>, tr: Transfers)
    requires Matched(rids, re, ids, tr) && rids != []
    ensures Matched(rids[..|rids| - 1], re, ids, tr)
    ensures var last := rids[|rids| - 1];
            Refunded(re, last) ==> Matched(rids[..|rids| - 1], re, Without(ids, re[last].request.transfer), tr)
  {
    var init, last := rids[..|rids| - 1], rids[|rids| - 1];
    assert forall i :: 0 <= i < |init| ==> init[i] == rids[i];
    if Refunded(re, last) {
      WithoutHas(ids, re[last].request.transfer);
    }
  }

  ghost predicate Positive(tr: Transfers) {
    forall id :: id in tr && Debited(tr[id]) ==> tr[id].request.cents > 0
  }

  /** Credits to the account for transfers that were completed without a debit. */
  ghost function UnearnedBy(tr: Transfers, account: string): R.Return -> int {
    (r: R.Return) =>
      if r.request.transfer in tr && Debited(tr[r.request.transfer]) then 0 else CreditedTo(tr, account)(r)
  }

  lemma {:induction false} CreditsWithin(rids: seq<string>, re: Returns, ids: seq<string>, tr: Transfers, a: string)
    requires Matched(rids, re, ids, tr) && Positive(tr)
    ensures Total(rids, re, CreditedTo(tr, a)) <= Total(ids, tr, DebitedFrom(a)) + Total(rids, re, UnearnedBy(tr, a))
    decreases |rids|
  {
    if rids == [] {
      TotalAtMost(ids, tr, DebitedFrom(a));
    } else {
      var init, last := rids[..|rids| - 1], rids[|rids| - 1];
      MatchedInit(rids, re, ids, tr);
      assert rids[|rids| - 1] == last;
      if Refunded(re, last) && Debited(tr[re[last].request.transfer]) {
        var t := re[last].request.transfer;
        CreditsWithin(init, re, Without(ids, t), tr, a);
        TotalWithout(ids, tr, DebitedFrom(a), t);
      } else {
        CreditsWithin(init, re, ids, tr, a);
      }
    }
  }

  lemma ReturnsMatch(w: R.World, base: seq<Entry>)
    requires Inv(w, base)
    ensures Matched(w.rids, w.returned, w.net.ids, w.net.transfers) && Positive(w.net.transfers)
  {
    var re, tr := w.returned, w.net.transfers;
    assert Returning(tr, re, w.byTransfer) && Filed(w.net.ids, tr) && Filed(w.rids, re) && GoodTransfers(tr);
    DistinctReturns(w.rids, re, w.net.ids, tr, w.byTransfer);
    forall id | id in tr && Debited(tr[id]) ensures tr[id].request.cents > 0 {
      assert GoodTransfer(id, tr[id]);
    }
  }

  lemma DistinctReturns(rids: seq<string>, re: Returns, ids: seq<string>, tr: Transfers, via: map<string, string>)
    requires Returning(tr, re, via) && Filed(rids, re) && Filed(ids, tr)
    ensures Matched(rids, re, ids, tr)
  {
  }

  /** An account stands above what it had by no more than the credits for transfers it was never debited. */
  lemma NeverFarAboveOpening(base: seq<Entry>, now: nat, ops: seq<R.Op>, w: R.World, account: string)
    requires Reached(base, now, ops, w)
    ensures AccountBalance(w.net.entries, account) <=
            AccountBalance(base, account) + Total(w.rids, w.returned, UnearnedBy(w.net.transfers, account))
  {
    ReachedInv(base, now, ops, w);
    ReturnsMatch(w, base);
    CreditsWithin(w.rids, w.returned, w.net.ids, w.net.transfers, account);
    assert BalancedFor(account, w.net.entries, base, w.net.ids, w.net.transfers, w.rids, w.returned);
  }

  /** The ledger's start allows the debit of every transfer that is being returned. */
  ghost predicate ReturnedAreDue(base: seq<Entry>, re: Returns) {
    forall r :: r in re && Credited(re[r]) ==> DebitDue(base, re[r].request.transfer)
  }

  lemma NothingUnearned(base: seq<Entry>, tr: Transfers, re: Returns, via: map<string, string>, account: string)
    requires Returning(tr, re, via) && OnlyIfDue(base, tr, re) && ReturnedAreDue(base, re)
    ensures forall r :: r in re ==> UnearnedBy(tr, account)(re[r]) == 0
  {
    forall r | r in re ensures UnearnedBy(tr, account)(re[r]) == 0 {
      if Credited(re[r]) {
        assert Corrects(re[r], tr);
        assert Debited(tr[re[r].request.transfer]);
      } else {
        assert CreditedTo(tr, account)(re[r]) == 0;
      }
    }
  }

  /** No account stands above what it had, if every transfer returned to it was debited. */
  lemma NeverAboveOpening(base: seq<Entry>, now: nat, ops: seq<R.Op>, w: R.World, account: string)
    requires Reached(base, now, ops, w) && ReturnedAreDue(base, w.returned)
    ensures AccountBalance(w.net.entries, account) <= AccountBalance(base, account)
  {
    ReachedInv(base, now, ops, w);
    var re, tr := w.returned, w.net.transfers;
    NothingUnearned(base, tr, re, w.byTransfer, account);
    NeverFarAboveOpening(base, now, ops, w, account);
    TotalNothing(w.rids, re, UnearnedBy(tr, account));
  }

  lemma {:induction false} TotalNothing<V>(ids: seq<string>, m: map<string, V>, f: V -> int)
    requires forall id :: id in m ==> f(m[id]) == 0
    ensures Total(ids, m, f) == 0
    decreases |ids|
  {
    if ids != [] {
      TotalNothing(ids[..|ids| - 1], m, f);
    }
  }
}
