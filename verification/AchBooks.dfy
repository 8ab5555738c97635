/** Holds, postings and returns of the two ACH workflows, each against the statuses. */
module AchBooks {
  import opened Wrappers
  import opened Ledgers
  import opened AchSchedule
  import A = Ach
  import R = AchReturns

  // ----- Sums over a dictionary, in the order in which it was filled -----

  ghost predicate Filed<V>(ids: seq<string>, m: map<string, V>) {
    && (forall i, j :: 0 <= i < j < |ids| ==> ids[i] != ids[j])
    && (forall id :: id in ids <==> id in m)
  }

  ghost function Total<V>(ids: seq<string>, m: map<string, V>, f: V -> int): int {
    if ids == [] then 0
    else
      var last := ids[|ids| - 1];
      Total(ids[..|ids| - 1], m, f) + (if last in m then f(m[last]) else 0)
  }

  lemma {:induction false} TotalUpdate<V>(ids: seq<string>, m: map<string, V>, id: string, v: V, f: V -> int)
    requires id in m && forall i, j :: 0 <= i < j < |ids| ==> ids[i] != ids[j]
    ensures Total(ids, m[id := v], f) == Total(ids, m, f) + (if id in ids then f(v) - f(m[id]) else 0)
    decreases |ids|
  {
    if ids != [] {
      var init := ids[..|ids| - 1];
      TotalUpdate(init, m, id, v, f);
      assert ids == init + [ids[|ids| - 1]];
    }
  }

  lemma {:induction false} TotalElsewhere<V>(ids: seq<string>, m: map<string, V>, id: string, v: V, f: V -> int)
    requires id !in ids
    ensures Total(ids, m[id := v], f) == Total(ids, m, f)
    decreases |ids|
  {
    if ids != [] {
      TotalElsewhere(ids[..|ids| - 1], m, id, v, f);
    }
  }

  lemma TotalNew<V>(ids: seq<string>, m: map<string, V>, id: string, v: V, f: V -> int)
    requires id !in ids
    ensures Total(ids + [id], m[id := v], f) == Total(ids, m, f) + f(v)
  {
    assert (ids + [id])[..|ids|] == ids;
    TotalElsewhere(ids, m, id, v, f);
  }

  lemma {:induction false} TotalSame<V>(ids: seq<string>, m: map<string, V>, f: V -> int, g: V -> int)
    requires forall id :: id in m ==> f(m[id]) == g(m[id])
    ensures Total(ids, m, f) == Total(ids, m, g)
    decreases |ids|
  {
    if ids != [] {
      TotalSame(ids[..|ids| - 1], m, f, g);
    }
  }

  lemma {:induction false} TotalAtMost<V>(ids: seq<string>, m: map<string, V>, f: V -> int)
    requires forall id :: id in m ==> f(m[id]) >= 0
    ensures Total(ids, m, f) >= 0
    decreases |ids|
  {
    if ids != [] {
      TotalAtMost(ids[..|ids| - 1], m, f);
    }
  }

  // ----- Holds -----

  /** Between the taking of the hold and completion; a transfer whose hold could not be made is not. */
  predicate InFlight(t: A.Transfer) {
    (t.status == A.Pending || t.status == A.Submitted || t.status == A.Processing) && !A.Flawed(t.request)
  }

  ghost function HeldCents(t: A.Transfer): int {
    if InFlight(t) then t.request.cents else 0
  }

  /** A hold exists exactly while its transfer is pending, submitted or processing, for its amount. */
  ghost predicate HoldsMatch(pending: seq<A.Hold>, tr: Transfers) {
    && (forall h :: h in pending ==>
          h.transfer in tr && InFlight(tr[h.transfer]) && h.cents == tr[h.transfer].request.cents)
    && (forall id :: id in tr && InFlight(tr[id]) ==> HeldFor(pending, id))
  }

  ghost predicate HeldFor(pending: seq<A.Hold>, id: string) {
    exists h :: h in pending && h.transfer == id
  }

  ghost predicate DistinctHolds(pending: seq<A.Hold>) {
    pending != [] ==>
      DistinctHolds(pending[..|pending| - 1]) && !HeldFor(pending[..|pending| - 1], pending[|pending| - 1].transfer)
  }

  ghost predicate Holding(pending: seq<A.Hold>, ids: seq<string>, tr: Transfers) {
    HoldsMatch(pending, tr) && DistinctHolds(pending) && A.Held(pending) == Total(ids, tr, HeldCents)
  }

  lemma {:induction false} ReleasedHas(pending: seq<A.Hold>, id: string)
    ensures forall h :: h in A.Released(pending, id) <==> h in pending && h.transfer != id
    decreases |pending|
  {
    if pending != [] {
      var init, last := pending[..|pending| - 1], pending[|pending| - 1];
      ReleasedHas(init, id);
      assert pending == init + [last];
    }
  }

  lemma ReleasedLast(pending: seq<A.Hold>, id: string)
    requires pending != []
    ensures var init, last := pending[..|pending| - 1], pending[|pending| - 1];
            A.Released(pending, id) == A.Released(init, id) + (if last.transfer == id then [] else [last])
  {
  }

  lemma {:induction false} ReleasedNone(pending: seq<A.Hold>, id: string)
    requires !HeldFor(pending, id)
    ensures A.Released(pending, id) == pending
    decreases |pending|
  {
    if pending != [] {
      var init, last := pending[..|pending| - 1], pending[|pending| - 1];
      assert pending == init + [last];
      ReleasedNone(init, id);
    }
  }

  lemma HoldsAppend(pending: seq<A.Hold>, h: A.Hold)
    ensures A.Held(pending + [h]) == A.Held(pending) + h.cents
    ensures DistinctHolds(pending + [h]) <==> DistinctHolds(pending) && !HeldFor(pending, h.transfer)
  {
    assert (pending + [h])[..|pending|] == pending;
  }

  /** Releasing removes one hold. */
  lemma {:induction false} ReleasedOnce(pending: seq<A.Hold>, h: A.Hold)
    requires DistinctHolds(pending) && h in pending
    ensures DistinctHolds(A.Released(pending, h.transfer))
    ensures A.Held(A.Released(pending, h.transfer)) == A.Held(pending) - h.cents
    decreases |pending|
  {
    var init, last := pending[..|pending| - 1], pending[|pending| - 1];
    assert pending == init + [last];
    ReleasedLast(pending, h.transfer);
    if last == h {
      ReleasedNone(init, h.transfer);
      assert A.Released(pending, h.transfer) == init;
    } else {
      ReleasedOnce(init, h);
      ReleasedHas(init, h.transfer);
      HoldsAppend(A.Released(init, h.transfer), last);
      assert HeldFor(init, h.transfer);
    }
  }

  /** A step that neither takes nor gives up a hold. */
  lemma HoldingKept(pending: seq<A.Hold>, ids: seq<string>, tr: Transfers, id: string, t: A.Transfer)
    requires Holding(pending, ids, tr) && Filed(ids, tr) && id in tr
    requires t.request == tr[id].request && InFlight(t) == InFlight(tr[id])
    ensures Holding(pending, ids, tr[id := t])
  {
    TotalUpdate(ids, tr, id, t, HeldCents);
  }

  lemma HoldingNew(pending: seq<A.Hold>, ids: seq<string>, tr: Transfers, id: string, t: A.Transfer)
    requires Holding(pending, ids, tr) && Filed(ids, tr) && id !in tr && !InFlight(t)
    ensures Holding(pending, ids + [id], tr[id := t])
  {
    TotalNew(ids, tr, id, t, HeldCents);
  }

  lemma HoldsTaken(pending: seq<A.Hold>, tr: Transfers, h: A.Hold, t: A.Transfer)
    requires HoldsMatch(pending, tr) && h.transfer in tr && h.cents == t.request.cents
    requires InFlight(t) && !InFlight(tr[h.transfer])
    ensures HoldsMatch(pending + [h], tr[h.transfer := t]) && !HeldFor(pending, h.transfer)
  {
    var tr' := tr[h.transfer := t];
    forall id | id in tr' && InFlight(tr'[id]) ensures HeldFor(pending + [h], id) {
      if id == h.transfer {
        assert (pending + [h])[|pending|] == h;
      } else {
        assert InFlight(tr[id]);
        var g :| g in pending && g.transfer == id;
        assert g in pending + [h];
      }
    }
  }

  lemma HoldingTaken(pending: seq<A.Hold>, ids: seq<string>, tr: Transfers, h: A.Hold, t: A.Transfer)
    requires Holding(pending, ids, tr) && Filed(ids, tr) && h.transfer in tr
    requires t.request == tr[h.transfer].request && h.cents == t.request.cents
    requires InFlight(t) && !InFlight(tr[h.transfer])
    ensures Holding(pending + [h], ids, tr[h.transfer := t])
  {
    HoldsTaken(pending, tr, h, t);
    HoldsAppend(pending, h);
    TotalUpdate(ids, tr, h.transfer, t, HeldCents);
  }

  lemma HoldsGivenUp(pending: seq<A.Hold>, tr: Transfers, id: string, t: A.Transfer)
    requires HoldsMatch(pending, tr) && id in tr && !InFlight(t)
    ensures HoldsMatch(A.Released(pending, id), tr[id := t])
  {
    ReleasedHas(pending, id);
    var tr' := tr[id := t];
    forall o | o in tr' && InFlight(tr'[o]) ensures HeldFor(A.Released(pending, id), o) {
      assert InFlight(tr[o]);
      var g :| g in pending && g.transfer == o;
    }
  }

  lemma HoldingGivenUp(pending: seq<A.Hold>, ids: seq<string>, tr: Transfers, id: string, t: A.Transfer)
    requires Holding(pending, ids, tr) && Filed(ids, tr) && id in tr
    requires InFlight(tr[id]) && !InFlight(t)
    ensures Holding(A.Released(pending, id), ids, tr[id := t])
  {
    assert HeldFor(pending, id);
    var h :| h in pending && h.transfer == id;
    ReleasedOnce(pending, h);
    HoldsGivenUp(pending, tr, id, t);
    TotalUpdate(ids, tr, id, t, HeldCents);
  }

  // ----- Postings -----

  /** Completed, and its debit accepted by the ledger: the history says so a second time. */
  predicate Debited(t: A.Transfer) {
    t.status == A.Completed && |t.history| == 7
  }

  /** Completed, and its credit accepted by the ledger. */
  predicate Credited(r: R.Return) {
    r.status == R.Completed && r.correction.Some?
  }

  ghost function DebitedFrom(account: string): A.Transfer -> int {
    (t: A.Transfer) => if Debited(t) && t.request.account == account then t.request.cents else 0
  }

  ghost function CreditedTo(tr: Transfers, account: string): R.Return -> int {
    (r: R.Return) =>
      if Credited(r) && r.request.transfer in tr && tr[r.request.transfer].request.account == account
      then r.request.cents else 0
  }

  /** Each account has lost its debited transfers and regained its credited returns. */
  ghost predicate Balanced(entries: seq<Entry>, base: seq<Entry>, ids: seq<string>, tr: Transfers, rids: seq<string>, re: Returns) {
    forall a :: BalancedFor(a, entries, base, ids, tr, rids, re)
  }

  ghost predicate BalancedFor(a: string, entries: seq<Entry>, base: seq<Entry>, ids: seq<string>, tr: Transfers,
                              rids: seq<string>, re: Returns) {
    AccountBalance(entries, a) ==
      AccountBalance(base, a) - Total(ids, tr, DebitedFrom(a)) + Total(rids, re, CreditedTo(tr, a))
  }

  /** A credited return is of a known transfer. */
  ghost predicate ReturnsKnown(tr: Transfers, re: Returns) {
    forall r :: r in re && Credited(re[r]) ==> re[r].request.transfer in tr
  }

  lemma CreditsSame(rids: seq<string>, re: Returns, tr: Transfers, id: string, t: A.Transfer, a: string)
    requires ReturnsKnown(tr, re) && (id in tr ==> t.request == tr[id].request)
    ensures Total(rids, re, CreditedTo(tr[id := t], a)) == Total(rids, re, CreditedTo(tr, a))
  {
    TotalSame(rids, re, CreditedTo(tr[id := t], a), CreditedTo(tr, a));
  }

  lemma BalancedKept(entries: seq<Entry>, base: seq<Entry>, ids: seq<string>, tr: Transfers, rids: seq<string>, re: Returns,
                     id: string, t: A.Transfer)
    requires Balanced(entries, base, ids, tr, rids, re) && Filed(ids, tr) && ReturnsKnown(tr, re) && id in tr
    requires t.request == tr[id].request && (Debited(t) <==> Debited(tr[id]))
    ensures Balanced(entries, base, ids, tr[id := t], rids, re)
  {
    var tr' := tr[id := t];
    forall a ensures BalancedFor(a, entries, base, ids, tr', rids, re) {
      assert BalancedFor(a, entries, base, ids, tr, rids, re);
      TotalUpdate(ids, tr, id, t, DebitedFrom(a));
      CreditsSame(rids, re, tr, id, t, a);
    }
  }

  lemma BalancedNew(entries: seq<Entry>, base: seq<Entry>, ids: seq<string>, tr: Transfers, rids: seq<string>, re: Returns,
                    id: string, t: A.Transfer)
    requires Balanced(entries, base, ids, tr, rids, re) && Filed(ids, tr) && ReturnsKnown(tr, re) && id !in tr
    requires !Debited(t)
    ensures Balanced(entries, base, ids + [id], tr[id := t], rids, re)
  {
    var ids', tr' := ids + [id], tr[id := t];
    forall a ensures BalancedFor(a, entries, base, ids', tr', rids, re) {
      assert BalancedFor(a, entries, base, ids, tr, rids, re);
      TotalNew(ids, tr, id, t, DebitedFrom(a));
      CreditsSame(rids, re, tr, id, t, a);
    }
  }

  lemma BalancedDebited(entries: seq<Entry>, base: seq<Entry>, ids: seq<string>, tr: Transfers, rids: seq<string>, re: Returns,
                        id: string, t: A.Transfer, debit: Entry)
    requires Balanced(entries, base, ids, tr, rids, re) && Filed(ids, tr) && ReturnsKnown(tr, re) && id in tr
    requires t.request == tr[id].request && Debited(t) && !Debited(tr[id])
    requires debit.account == t.request.account && debit.kind == Debit && debit.cents == t.request.cents
    ensures Balanced(entries + [debit], base, ids, tr[id := t], rids, re)
  {
    BalanceAppend(entries, debit);
    var entries', tr' := entries + [debit], tr[id := t];
    forall a ensures BalancedFor(a, entries', base, ids, tr', rids, re) {
      assert BalancedFor(a, entries, base, ids, tr, rids, re);
      TotalUpdate(ids, tr, id, t, DebitedFrom(a));
      CreditsSame(rids, re, tr, id, t, a);
    }
  }

  lemma BalancedReturnKept(entries: seq<Entry>, base: seq<Entry>, ids: seq<string>, tr: Transfers, rids: seq<string>, re: Returns,
                           id: string, r: R.Return)
    requires Balanced(entries, base, ids, tr, rids, re) && Filed(rids, re) && id in re
    requires !Credited(r) && !Credited(re[id])
    ensures Balanced(entries, base, ids, tr, rids, re[id := r])
  {
    var re' := re[id := r];
    forall a ensures BalancedFor(a, entries, base, ids, tr, rids, re') {
      assert BalancedFor(a, entries, base, ids, tr, rids, re);
      TotalUpdate(rids, re, id, r, CreditedTo(tr, a));
    }
  }

  lemma BalancedReturnNew(entries: seq<Entry>, base: seq<Entry>, ids: seq<string>, tr: Transfers, rids: seq<string>, re: Returns,
                          id: string, r: R.Return)
    requires Balanced(entries, base, ids, tr, rids, re) && Filed(rids, re) && id !in re && !Credited(r)
    ensures Balanced(entries, base, ids, tr, rids + [id], re[id := r])
  {
    var rids', re' := rids + [id], re[id := r];
    forall a ensures BalancedFor(a, entries, base, ids, tr, rids', re') {
      assert BalancedFor(a, entries, base, ids, tr, rids, re);
      TotalNew(rids, re, id, r, CreditedTo(tr, a));
    }
  }

  lemma BalancedCredited(entries: seq<Entry>, base: seq<Entry>, ids: seq<string>, tr: Transfers, rids: seq<string>, re: Returns,
                         id: string, r: R.Return, credit: Entry)
    requires Balanced(entries, base, ids, tr, rids, re) && Filed(rids, re) && id in re
    requires r.request == re[id].request && Credited(r) && !Credited(re[id]) && r.request.transfer in tr
    requires credit.account == tr[r.request.transfer].request.account && credit.kind == Credit && credit.cents == r.request.cents
    ensures Balanced(entries + [credit], base, ids, tr, rids, re[id := r])
  {
    BalanceAppend(entries, credit);
    var entries', re' := entries + [credit], re[id := r];
    forall a ensures BalancedFor(a, entries', base, ids, tr, rids, re') {
      assert BalancedFor(a, entries, base, ids, tr, rids, re);
      TotalUpdate(rids, re, id, r, CreditedTo(tr, a));
    }
  }

  // ----- Entries -----

  /** The ledger will take the debit of the transfer: at the start it held no entry of that name and none after time 10. */
  ghost predicate DebitDue(base: seq<Entry>, id: string) {
    LastPosted(base) <= 10 && PaymentDebit(id) !in Ids(base)
  }

  ghost predicate CreditDue(base: seq<Entry>, id: string, at: nat) {
    LastPosted(base) <= at && ReturnCredit(id) !in Ids(base)
  }

  /** To what it held at the start, the ledger adds a debit for each debited transfer and a credit for each credited return. */
  ghost predicate Posted(entries: seq<Entry>, base: seq<Entry>, tr: Transfers, re: Returns) {
    && (forall id :: PaymentDebit(id) in Ids(entries) <==> PaymentDebit(id) in Ids(base) || (id in tr && Debited(tr[id])))
    && (forall id :: ReturnCredit(id) in Ids(entries) <==> ReturnCredit(id) in Ids(base) || (id in re && Credited(re[id])))
  }

  /** Nothing is posted ahead of the clock but what was there at the start; transfers complete at 10. */
  ghost predicate Timely(entries: seq<Entry>, base: seq<Entry>, now: nat, tr: Transfers) {
    && base <= entries
    && LastPosted(base) <= LastPosted(entries) <= Max(now, LastPosted(base))
    && (forall id :: id in tr && tr[id].status == A.Completed ==> now >= 10)
  }

  /** Exactly the postings that the ledger's start allowed were made. */
  ghost predicate OnlyIfDue(base: seq<Entry>, tr: Transfers, re: Returns) {
    && (forall id :: id in tr && tr[id].status == A.Completed ==> (Debited(tr[id]) <==> DebitDue(base, id)))
    && (forall id :: id in re && re[id].status == R.Completed ==> (Credited(re[id]) <==> CreditDue(base, id, re[id].receivedAt + 5)))
  }

  lemma DebitPosted(entries: seq<Entry>, base: seq<Entry>, tr: Transfers, re: Returns, id: string, t: A.Transfer, debit: Entry)
    requires Posted(entries, base, tr, re) && Debited(t) && debit.id == PaymentDebit(id)
    ensures Posted(entries + [debit], base, tr[id := t], re)
  {
    IdsAppend(entries, debit);
  }

  lemma CreditPosted(entries: seq<Entry>, base: seq<Entry>, tr: Transfers, re: Returns, id: string, r: R.Return, credit: Entry)
    requires Posted(entries, base, tr, re) && Credited(r) && credit.id == ReturnCredit(id)
    ensures Posted(entries + [credit], base, tr, re[id := r])
  {
    IdsAppend(entries, credit);
  }

  lemma TransferKept(entries: seq<Entry>, base: seq<Entry>, tr: Transfers, re: Returns, id: string, t: A.Transfer)
    requires Posted(entries, base, tr, re) && !Debited(t) && (id in tr ==> !Debited(tr[id]))
    ensures Posted(entries, base, tr[id := t], re)
  {
  }

  lemma ReturnKept(entries: seq<Entry>, base: seq<Entry>, tr: Transfers, re: Returns, id: string, r: R.Return)
    requires Posted(entries, base, tr, re) && !Credited(r) && (id in re ==> !Credited(re[id]))
    ensures Posted(entries, base, tr, re[id := r])
  {
  }

  // ----- Returns -----

  predicate Active(s: R.ReturnStatus) {
    s == R.Validated || s == R.Processing || s == R.Completed
  }

  /** An accepted return is the one return of a completed transfer, for its full amount. */
  ghost predicate Returning(tr: Transfers, re: Returns, via: map<string, string>) {
    && (forall r :: r in re && Active(re[r].status) ==> Corrects(re[r], tr) && re[r].request.transfer in via && via[re[r].request.transfer] == r)
    && (forall t :: t in via ==> via[t] in re && re[via[t]].request.transfer == t && Active(re[via[t]].status))
  }

  ghost predicate Corrects(r: R.Return, tr: Transfers) {
    var t := r.request.transfer;
    t in tr && tr[t].status == A.Completed && tr[t].request.cents == r.request.cents
  }

  lemma ReturningKept(tr: Transfers, re: Returns, via: map<string, string>, id: string, t: A.Transfer)
    requires Returning(tr, re, via) && (id in tr ==> tr[id].status != A.Completed)
    ensures Returning(tr[id := t], re, via)
  {
  }

  lemma ReturnMoves(tr: Transfers, re: Returns, via: map<string, string>, id: string, r: R.Return)
    requires Returning(tr, re, via) && (id in re ==> r.request == re[id].request && Active(re[id].status) == Active(r.status))
    requires id in re || !Active(r.status)
    ensures Returning(tr, re[id := r], via)
  {
  }

  lemma ReturnAccepted(tr: Transfers, re: Returns, via: map<string, string>, id: string, r: R.Return)
    requires Returning(tr, re, via) && id in re && !Active(re[id].status) && Active(r.status)
    requires Corrects(r, tr) && r.request.transfer !in via
    ensures Returning(tr, re[id := r], via[r.request.transfer := id])
  {
  }

  // ----- Each workflow by itself -----

  function Timed(s: A.TransferStatus, time: nat): A.Observation {
    A.Observation(time, s)
  }

  /** A transfer's history is the fixed timetable up to its status. */
  function Timetable(s: A.TransferStatus): seq<A.Observation> {
    var received, validated := Timed(A.Received, 0), Timed(A.Validated, 1);
    var pending, submitted, processing := Timed(A.Pending, 2), Timed(A.Submitted, 3), Timed(A.Processing, 5);
    match s
    case Received => [received]
    case Rejected => [received, Timed(A.Rejected, 1)]
    case Validated => [received, validated]
    case Pending => [received, validated, pending]
    case Submitted => [received, validated, pending, submitted]
    case Processing => [received, validated, pending, submitted, processing]
    case Completed => [received, validated, pending, submitted, processing, Timed(A.Completed, 10), Timed(A.Completed, 10)]
  }

  /** The whole timetable, without the last observation if the ledger refused the debit. */
  ghost predicate Punctual(t: A.Transfer) {
    t.history == Timetable(t.status) || (t.status == A.Completed && t.history == Timetable(A.Completed)[..6])
  }

  ghost predicate GoodTransfer(id: string, t: A.Transfer) {
    && t.request.id == id && Punctual(t)
    && (t.status != A.Received && t.status != A.Rejected ==> A.InvalidReason(t.request).None?)
    && (t.status == A.Submitted || t.status == A.Processing || t.status == A.Completed ==> !A.Flawed(t.request))
    && (t.status == A.Rejected <==> t.reason.Some?)
  }

  ghost predicate GoodTransfers(tr: Transfers) {
    forall id :: id in tr ==> GoodTransfer(id, tr[id])
  }

  function ReturnTimetable(at: nat, s: R.ReturnStatus): seq<R.Observation> {
    var received, validated := R.Observation(at, R.Received), R.Observation(at + 1, R.Validated);
    var processing, completed := R.Observation(at + 2, R.Processing), R.Observation(at + 5, R.Completed);
    match s
    case Received => [received]
    case Rejected => [received, R.Observation(at + 1, R.Rejected)]
    case Validated => [received, validated]
    case Processing => [received, validated, processing]
    case Completed => [received, validated, processing, completed, completed]
  }

  ghost predicate ReturnOnTime(r: R.Return) {
    && r.history == (if r.status == R.Completed && !Credited(r) then ReturnTimetable(r.receivedAt, r.status)[..4]
                     else ReturnTimetable(r.receivedAt, r.status))
    && r.completedAt == (if Credited(r) then Some(r.receivedAt + 5) else None)
  }

  ghost predicate GoodReturn(id: string, r: R.Return) {
    && r.request.id == id && ReturnOnTime(r)
    && (r.correction == if Credited(r) then Some(ReturnCredit(id)) else None)
    && (Active(r.status) ==> !A.Blank(r.request.id) && !A.Blank(r.request.transfer))
    && (r.status == R.Rejected <==> r.reason.Some?)
  }

  ghost predicate GoodReturns(re: Returns) {
    forall id :: id in re ==> GoodReturn(id, re[id])
  }
}
