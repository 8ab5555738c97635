/** The funds check of the ACH workflow: what it compares, and when the holds together outgrow the account. */
module AchFunds {
  import opened Wrappers
  import opened Scheduling
  import opened Ledgers
  import opened AchSchedule
  import opened AchBooks
  import opened AchInvariant
  import opened AchTheorems
  import opened AchFailures
  import A = Ach
  import R = AchReturns

  /** What validation would say to the request if it were the only one. */
  function Verdict(base: seq<Entry>, request: A.TransferRequest): Option<A.Reason> {
    if A.InvalidReason(request).Some? then A.InvalidReason(request)
    else if request.cents > AccountBalance(base, request.account) then Some(A.InsufficientFunds)
    else None
  }

  predicate Waiting(s: A.TransferStatus) {
    s == A.Received || s == A.Validated || s == A.Rejected
  }

  /** Judged by its verdict, and in no later state before time 2. */
  ghost predicate JudgedOne(t: A.Transfer, base: seq<Entry>, now: nat) {
    && (t.status != A.Received ==> t.reason == Verdict(base, t.request))
    && (Waiting(t.status) || now >= 2)
  }

  ghost predicate JudgedAt(tr: Transfers, id: string, base: seq<Entry>, now: nat) {
    id in tr ==> JudgedOne(tr[id], base, now)
  }

  ghost predicate Judged(tr: Transfers, base: seq<Entry>, now: nat) {
    forall id :: id in tr ==> JudgedOne(tr[id], base, now)
  }

  /** Before time 2 nothing is held and nothing has been posted. */
  lemma StillOpening(w: R.World, base: seq<Entry>, account: string)
    requires Books(w, base) && forall id :: id in w.net.transfers ==> Waiting(w.net.transfers[id].status)
    ensures A.Available(w.net, account) == AccountBalance(base, account)
  {
    NothingActive(w.net.transfers, w.returned, w.byTransfer);
    NoHoldLeft(w.net.pending, w.net.transfers);
    TotalNothing(w.net.ids, w.net.transfers, DebitedFrom(account));
    TotalNothing(w.rids, w.returned, CreditedTo(w.net.transfers, account));
    assert BalancedFor(account, w.net.entries, base, w.net.ids, w.net.transfers, w.rids, w.returned);
  }

  lemma NothingActive(tr: Transfers, re: Returns, via: map<string, string>)
    requires Returning(tr, re, via) && forall id :: id in tr ==> Waiting(tr[id].status)
    ensures forall id :: id in tr ==> !InFlight(tr[id]) && !Debited(tr[id])
    ensures forall id :: id in re ==> !Credited(re[id])
  {
    forall id | id in re ensures !Credited(re[id]) {
      assert Credited(re[id]) ==> Corrects(re[id], tr);
    }
  }

  // ----- One event -----

  lemma ValidateJudges(w: R.World, e: Event<A.Action>, base: seq<Entry>)
    requires TransferReady(w, e) && e.action.Validate?
    requires A.Refusal(w.net, w.net.transfers[e.action.transfer]) == Verdict(base, w.net.transfers[e.action.transfer].request)
    ensures JudgedAt(R.Execute(w, e.action).world.net.transfers, e.action.transfer, base, w.net.agenda.now)
  {
  }

  lemma OtherJudges(w: R.World, e: Event<A.Action>, base: seq<Entry>)
    requires TransferReady(w, e) && !e.action.Validate?
    requires JudgedOne(w.net.transfers[e.action.transfer], base, w.net.agenda.now)
    ensures JudgedAt(R.Execute(w, e.action).world.net.transfers, e.action.transfer, base, w.net.agenda.now)
  {
  }

  lemma SubjectJudged(w: R.World, e: Event<A.Action>, base: seq<Entry>)
    requires TransferReady(w, e) && Books(w, base) && Judged(w.net.transfers, base, w.net.agenda.now)
    ensures JudgedAt(R.Execute(w, e.action).world.net.transfers, e.action.transfer, base, w.net.agenda.now)
  {
    if e.action.Validate? {
      StillOpening(w, base, w.net.transfers[e.action.transfer].request.account);
      ValidateJudges(w, e, base);
    } else {
      OtherJudges(w, e, base);
    }
  }

  lemma EventJudges(w: R.World, e: Event<A.Action>, base: seq<Entry>)
    requires Turn(w, e) && Books(w, base) && R.Known(w, e.action) && Judged(w.net.transfers, base, w.net.agenda.now)
    ensures Judged(R.Execute(w, e.action).world.net.transfers, base, w.net.agenda.now)
  {
    ExecuteTouches(w, e.action);
    if SubjectOf(e.action).OfTransfer? {
      TransferTurn(w, e);
      SubjectJudged(w, e, base);
    }
  }

  lemma RunNextJudges(w: R.World, base: seq<Entry>)
    requires Inv(w, base) && Judged(w.net.transfers, base, w.net.agenda.now)
    ensures var v := R.RunNext(w).world; Judged(v.net.transfers, base, v.net.agenda.now)
  {
    if w.net.agenda.queue != [] {
      TakeTurn(w);
      TakenFails(w, base);
      var Due(e, rest) := TakeNext(w.net.agenda);
      LaterBooks(w, base, rest);
      EventJudges(R.Timed(w, rest), e, base);
      RunNextIs(w, e, rest);
      ExecuteNow(R.Timed(w, rest), e.action);
    }
  }

  lemma ExecuteNow(w: R.World, a: A.Action)
    requires R.Known(w, a)
    ensures R.Execute(w, a).world.net.agenda.now == w.net.agenda.now
  {
  }

  lemma StepJudges(w: R.World, base: seq<Entry>, op: R.Op)
    requires Inv(w, base) && Judged(w.net.transfers, base, w.net.agenda.now)
    ensures var v := R.Step(w, op).world; Judged(v.net.transfers, base, v.net.agenda.now)
  {
    match op
    case ReceiveTransfer(_) =>
    case ReceiveReturn(_) =>
    case RunEvent => RunNextJudges(w, base);
    case AdvanceClock(_) =>
  }

  lemma {:induction false} ReachedJudged(base: seq<Entry>, now: nat, ops: seq<R.Op>, w: R.World)
    requires Reached(base, now, ops, w)
    ensures Judged(w.net.transfers, base, w.net.agenda.now)
    decreases |ops|
  {
    if ops != [] {
      var init, before := ops[..|ops| - 1], R.After(Initial(now, base), ops[..|ops| - 1]);
      ReachedJudged(base, now, init, before);
      ReachedInv(base, now, init, before);
      StepJudges(before, base, ops[|ops| - 1]);
    }
  }

  /**
   Every transfer is judged as if it were the only one: it is rejected exactly
   when it is invalid or larger than the account was at the start, whatever
   else has been validated.
   */
  lemma JudgedAlone(base: seq<Entry>, now: nat, ops: seq<R.Op>, w: R.World, id: string)
    requires Reached(base, now, ops, w) && id in w.net.transfers && w.net.transfers[id].status != A.Received
    ensures w.net.transfers[id].reason == Verdict(base, w.net.transfers[id].request)
    ensures w.net.transfers[id].status == A.Rejected <==> Verdict(base, w.net.transfers[id].request).Some?
  {
    ReachedJudged(base, now, ops, w);
    ReachedInv(base, now, ops, w);
    assert GoodTransfer(id, w.net.transfers[id]);
  }

  /** The one source account is overdrawn exactly when what is held or debited exceeds what it had and got back. */
  lemma OverdrawnIff(base: seq<Entry>, now: nat, ops: seq<R.Op>, w: R.World, account: string)
    requires Reached(base, now, ops, w) && OneSource(w.net.transfers, account)
    ensures A.Available(w.net, account) < 0 <==>
              Total(w.net.ids, w.net.transfers, CommittedCents) >
              AccountBalance(base, account) + Total(w.rids, w.returned, RefundedCents)
  {
    AvailableOfOneSource(base, now, ops, w, account);
  }
}
