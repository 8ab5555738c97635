/** The available balance: whose holds it counts, and when it is negative. */
module AchBalances {
  import opened Ledgers
  import opened AchSchedule
  import opened AchBooks
  import opened AchTheorems
  import opened AchFunds
  import opened AchLate
  import A = Ach
  import R = AchReturns

  // ----- Whose holds -----

  ghost function HeldFrom(account: string): A.Transfer -> int {
    (t: A.Transfer) => if t.request.account == account then HeldCents(t) else 0
  }

  ghost function HeldElsewhere(account: string): A.Transfer -> int {
    (t: A.Transfer) => if t.request.account == account then 0 else HeldCents(t)
  }

  lemma {:induction false} HeldSplits(ids: seq<string>, tr: Transfers, account: string)
    ensures Total(ids, tr, HeldCents) == Total(ids, tr, HeldFrom(account)) + Total(ids, tr, HeldElsewhere(account))
    decreases |ids|
  {
    if ids != [] {
      HeldSplits(ids[..|ids| - 1], tr, account);
    }
  }

  lemma {:induction false} TotalZeroIff<V>(ids: seq<string>, m: map<string, V>, f: V -> int)
    requires forall id :: id in m ==> f(m[id]) >= 0
    ensures Total(ids, m, f) == 0 <==> forall id :: id in ids && id in m ==> f(m[id]) == 0
    decreases |ids|
  {
    if ids != [] {
      var init, last := ids[..|ids| - 1], ids[|ids| - 1];
      TotalZeroIff(init, m, f);
      TotalAtMost(init, m, f);
      assert ids == init + [last];
    }
  }

  /** A transfer of another account holds funds. */
  ghost predicate HeldByOthers(tr: Transfers, account: string) {
    exists id :: id in tr && InFlight(tr[id]) && tr[id].request.account != account
  }

  lemma OthersHoldIff(ids: seq<string>, tr: Transfers, account: string)
    requires Filed(ids, tr) && GoodTransfers(tr)
    ensures Total(ids, tr, HeldElsewhere(account)) == 0 <==> !HeldByOthers(tr, account)
  {
    forall id | id in tr ensures HeldCents(tr[id]) >= 0 && (HeldCents(tr[id]) == 0 <==> !InFlight(tr[id])) {
      assert GoodTransfer(id, tr[id]);
    }
    TotalZeroIff(ids, tr, HeldElsewhere(account));
  }

  /**
   The available balance of an account is its posted balance less its own holds
   if and only if no transfer of another account holds funds.
   */
  lemma AvailableIsOwnIff(base: seq<Entry>, now: nat, ops: seq<R.Op>, w: R.World, account: string)
    requires Reached(base, now, ops, w)
    ensures A.Available(w.net, account) ==
            AccountBalance(w.net.entries, account) - Total(w.net.ids, w.net.transfers, HeldFrom(account))
            <==> !HeldByOthers(w.net.transfers, account)
  {
    ReachedInv(base, now, ops, w);
    assert Holding(w.net.pending, w.net.ids, w.net.transfers);
    HeldSplits(w.net.ids, w.net.transfers, account);
    OthersHoldIff(w.net.ids, w.net.transfers, account);
  }

  // ----- When the one source is overdrawn -----

  /** Known on receipt but for the last conjunct: in time, passing by itself, with a text for its hold, and not completed without a debit. */
  ghost predicate Passes(base: seq<Entry>, late: set<string>, t: A.Transfer) {
    && t.request.id !in late
    && Verdict(base, t.request).None? && !A.Flawed(t.request)
    && (DebitDue(base, t.request.id) || t.status != A.Completed)
  }

  ghost function PassingCents(base: seq<Entry>, late: set<string>): A.Transfer -> int {
    (t: A.Transfer) => if Passes(base, late, t) then t.request.cents else 0
  }

  /** From time 3 on validation and holding lie behind. */
  lemma NothingEarly(q: Queue, tr: Transfers, re: Returns, late: set<string>, now: nat, id: string)
    requires AllExpected(q, tr, re) && AllAwaited(q, tr, re) && OnlyLateWait(q, tr, late)
    requires now > 2 && (forall e :: e in q ==> e.time >= now) && id in tr
    ensures tr[id].status == A.Received <==> id in late
    ensures tr[id].status != A.Validated
  {
    assert Awaited(q, tr, re, OfTransfer(id));
  }

  lemma PassingIsCommitted(base: seq<Entry>, now: nat, ops: seq<R.Op>, w: R.World, id: string)
    requires Reached(base, now, ops, w) && w.net.agenda.now > 2 && id in w.net.transfers
    ensures CommittedCents(w.net.transfers[id]) ==
            PassingCents(base, LateIds(Initial(now, base), ops))(w.net.transfers[id])
  {
    var t, late := w.net.transfers[id], LateIds(Initial(now, base), ops);
    ReachedInv(base, now, ops, w);
    ReachedLate(base, now, ops, w);
    NothingEarly(w.net.agenda.queue, w.net.transfers, w.returned, late, w.net.agenda.now, id);
    assert GoodTransfer(id, t) && OnlyIfDue(base, w.net.transfers, w.returned);
    if t.status != A.Received {
      JudgedAlone(base, now, ops, w, id);
    }
  }

  /**
   From time 3 on the one source account is overdrawn exactly when the
   requests received in time that pass by themselves, with room in the ledger
   once completed, come to more than it had and has got back.
   */
  lemma OverdrawnByRequests(base: seq<Entry>, now: nat, ops: seq<R.Op>, w: R.World, account: string)
    requires Reached(base, now, ops, w) && w.net.agenda.now > 2 && OneSource(w.net.transfers, account)
    ensures A.Available(w.net, account) < 0 <==>
              Total(w.net.ids, w.net.transfers, PassingCents(base, LateIds(Initial(now, base), ops))) >
              AccountBalance(base, account) + Total(w.rids, w.returned, RefundedCents)
  {
    forall id | id in w.net.transfers
      ensures CommittedCents(w.net.transfers[id]) ==
              PassingCents(base, LateIds(Initial(now, base), ops))(w.net.transfers[id])
    {
      PassingIsCommitted(base, now, ops, w, id);
    }
    TotalSame(w.net.ids, w.net.transfers, CommittedCents, PassingCents(base, LateIds(Initial(now, base), ops)));
    OverdrawnIff(base, now, ops, w, account);
  }
}
