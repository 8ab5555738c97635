/** What the ACH workflows leave behind: every posting, every hold and every submission, each told from its transfer. */
module AchDiary {
  import opened Scheduling
  import opened Ledgers
  import opened AchSchedule
  import opened AchBooks
  import opened AchInvariant
  import opened AchTheorems
  import opened AchFailures
  import opened AchFunds
  import A = Ach
  import R = AchReturns

  // ----- What each is to say -----

  /** The entry in place `k` is the debit of a completed transfer or the credit of a completed return, and says so in every field. */
  ghost predicate EntryTrue(e: Entry, k: nat, tr: Transfers, re: Returns) {
    match e.id
    case PaymentDebit(t) =>
      && t in tr && tr[t].status == A.Completed && e.account == tr[t].request.account && e.cents == tr[t].request.cents
      && e.kind == Debit && e.sequence == k + 1 && e.postedAt == 10
    case ReturnCredit(r) =>
      && r in re && re[r].status == R.Completed && re[r].request.transfer in tr
      && e.account == tr[re[r].request.transfer].request.account && e.cents == re[r].request.cents
      && e.kind == Credit && e.sequence == k + 1 && e.postedAt == re[r].receivedAt + 5
    case _ => false
  }

  ghost predicate EntriesTrue(entries: seq<Entry>, base: seq<Entry>, tr: Transfers, re: Returns) {
    base <= entries && forall k :: |base| <= k < |entries| ==> EntryTrue(entries[k], k, tr, re)
  }

  /** The description of the request, or the one for a request without. */
  ghost predicate HoldTrue(h: A.Hold, tr: Transfers) {
    && h.transfer in tr
    && h.description == if |tr[h.transfer].request.description| == 0 then "Outbound ACH credit" else tr[h.transfer].request.description
  }

  ghost predicate Numbered(pending: seq<A.Hold>, now: nat) {
    && (forall i, j :: 0 <= i < j < |pending| ==> pending[i].sequence < pending[j].sequence)
    && (now < 10 ==> forall i :: 0 <= i < |pending| ==> pending[i].sequence == i + 1)
  }

  ghost predicate HoldsTrue(pending: seq<A.Hold>, now: nat, tr: Transfers) {
    Numbered(pending, now) && forall h :: h in pending ==> HoldTrue(h, tr)
  }

  ghost predicate HandedOn(t: A.Transfer) {
    t.status == A.Submitted || t.status == A.Processing || t.status == A.Completed
  }

  /** The network has been handed each transfer once that is submitted or further on, and no other. */
  ghost predicate SubmissionsTrue(submissions: seq<string>, tr: Transfers) {
    && (forall i, j :: 0 <= i < j < |submissions| ==> submissions[i] != submissions[j])
    && (forall id :: id in submissions <==> id in tr && HandedOn(tr[id]))
  }

  ghost predicate Diary(n: A.Network, re: Returns, base: seq<Entry>) {
    && EntriesTrue(n.entries, base, n.transfers, re)
    && HoldsTrue(n.pending, n.agenda.now, n.transfers)
    && SubmissionsTrue(n.submissions, n.transfers)
  }

  // ----- What is told stays true -----

  ghost predicate TransferStands(t: A.Transfer, t': A.Transfer) {
    t'.request == t.request && (t.status == A.Completed ==> t'.status == A.Completed)
  }

  ghost predicate ReturnStands(r: R.Return, r': R.Return) {
    r'.request == r.request && r'.receivedAt == r.receivedAt && (r.status == R.Completed ==> r'.status == R.Completed)
  }

  /** Nothing is forgotten, requests stay and what is completed stays so. */
  ghost predicate Stands(tr: Transfers, re: Returns, tr': Transfers, re': Returns) {
    && (forall id :: id in tr ==> id in tr' && TransferStands(tr[id], tr'[id]))
    && (forall id :: id in re ==> id in re' && ReturnStands(re[id], re'[id]))
  }

  lemma EntryStands(e: Entry, k: nat, tr: Transfers, re: Returns, tr': Transfers, re': Returns)
    requires EntryTrue(e, k, tr, re) && Stands(tr, re, tr', re')
    ensures EntryTrue(e, k, tr', re')
  {
    match e.id
    case PaymentDebit(t) => assert TransferStands(tr[t], tr'[t]);
    case ReturnCredit(r) => assert ReturnStands(re[r], re'[r]) && TransferStands(tr[re[r].request.transfer], tr'[re[r].request.transfer]);
    case _ =>
  }

  lemma EntriesStand(entries: seq<Entry>, base: seq<Entry>, tr: Transfers, re: Returns, tr': Transfers, re': Returns)
    requires EntriesTrue(entries, base, tr, re) && Stands(tr, re, tr', re')
    ensures EntriesTrue(entries, base, tr', re')
  {
    forall k | |base| <= k < |entries| ensures EntryTrue(entries[k], k, tr', re') {
      EntryStands(entries[k], k, tr, re, tr', re');
    }
  }

  lemma HoldsStand(pending: seq<A.Hold>, now: nat, later: nat, tr: Transfers, re: Returns, tr': Transfers, re': Returns)
    requires HoldsTrue(pending, now, tr) && now <= later && Stands(tr, re, tr', re')
    ensures HoldsTrue(pending, later, tr')
  {
    forall h | h in pending ensures HoldTrue(h, tr') {
      assert TransferStands(tr[h.transfer], tr'[h.transfer]);
    }
  }

  // ----- What one event adds -----

  ghost predicate SameDiary(n: A.Network, n': A.Network) {
    n'.entries == n.entries && n'.pending == n.pending && n'.submissions == n.submissions
  }

  ghost predicate AddsHold(n: A.Network, n': A.Network, id: string, t: A.Transfer) {
    && n'.entries == n.entries && n'.submissions == n.submissions && n'.pending != []
    && var h := n'.pending[|n'.pending| - 1];
    && n'.pending == n.pending + [h] && h.transfer == id && h.sequence == |n.pending| + 1
    && h.description == if |t.request.description| == 0 then "Outbound ACH credit" else t.request.description
  }

  ghost predicate AddsDebit(entries: seq<Entry>, entries': seq<Entry>, id: string, t: A.Transfer) {
    && t.request.cents >= 0
    && entries' == entries + [Entry(PaymentDebit(id), t.request.account, t.request.cents, Debit, |entries| + 1, 10)]
  }

  /** The step of the transfer `t`, which leaves it as `t'`, changes the network as it should. */
  ghost predicate StepsTruly(n: A.Network, n': A.Network, a: A.Action, t: A.Transfer, t': A.Transfer)
    requires SubjectOf(a).OfTransfer?
  {
    && t'.request == t.request && t.status != A.Completed
    && match a
       case MarkPending(id) => (SameDiary(n, n') || AddsHold(n, n', id, t)) && n.agenda.now == 2 && !HandedOn(t) && !HandedOn(t')
       case Submit(id) =>
         && n'.entries == n.entries && n'.pending == n.pending && n'.submissions == n.submissions + [id]
         && !HandedOn(t) && HandedOn(t')
       case Complete(id) =>
         && n'.submissions == n.submissions && n'.pending == A.Released(n.pending, id) && n.agenda.now == 10
         && HandedOn(t) && t'.status == A.Completed
         && (n'.entries == n.entries || AddsDebit(n.entries, n'.entries, id, t))
       case _ => SameDiary(n, n') && HandedOn(t) == HandedOn(t')
  }

  /** After the event `e` of a transfer. */
  ghost predicate TransferTells(w: R.World, e: Event<A.Action>)
    requires TransferReady(w, e)
  {
    var v, id := R.Execute(w, e.action).world, e.action.transfer;
    id in v.net.transfers && v.returned == w.returned && v.net.transfers == w.net.transfers[id := v.net.transfers[id]]
    && StepsTruly(w.net, v.net, e.action, w.net.transfers[id], v.net.transfers[id])
  }

  lemma MarkPendingTells(w: R.World, e: Event<A.Action>)
    requires TransferReady(w, e) && e.action.MarkPending?
    ensures TransferTells(w, e)
  {
  }

  lemma CompleteTells(w: R.World, e: Event<A.Action>)
    requires TransferReady(w, e) && e.action.Complete?
    ensures TransferTells(w, e)
  {
  }

  lemma ValidateTells(w: R.World, e: Event<A.Action>)
    requires TransferReady(w, e) && e.action.Validate?
    ensures TransferTells(w, e)
  {
  }

  lemma SubmitTells(w: R.World, e: Event<A.Action>)
    requires TransferReady(w, e) && e.action.Submit?
    ensures TransferTells(w, e)
  {
  }

  lemma ProcessTells(w: R.World, e: Event<A.Action>)
    requires TransferReady(w, e) && e.action.Process?
    ensures TransferTells(w, e)
  {
  }

  ghost predicate AddsCredit(w: R.World, v: R.World, id: string)
    requires id in w.returned
  {
    var r := w.returned[id];
    && r.request.transfer in w.net.transfers && r.request.cents >= 0
    && v.net.entries ==
       w.net.entries + [Entry(ReturnCredit(id), w.net.transfers[r.request.transfer].request.account, r.request.cents,
                              Credit, |w.net.entries| + 1, r.receivedAt + 5)]
  }

  /** After the event `e` of a return. */
  ghost predicate ReturnTells(w: R.World, e: Event<A.Action>)
    requires ReturnReady(w, e)
  {
    var v, id := R.Execute(w, e.action).world, e.action.ret;
    && v.net.transfers == w.net.transfers && v.net.pending == w.net.pending && v.net.submissions == w.net.submissions
    && id in v.returned && v.returned == w.returned[id := v.returned[id]]
    && v.returned[id].request == w.returned[id].request && v.returned[id].receivedAt == w.returned[id].receivedAt
    && w.returned[id].status != R.Completed
    && (v.net.entries == w.net.entries || (AddsCredit(w, v, id) && v.returned[id].status == R.Completed))
  }

  lemma ReturnTellsTruly(w: R.World, e: Event<A.Action>)
    requires ReturnReady(w, e)
    ensures ReturnTells(w, e)
  {
    match e.action
    case ValidateReturn(_) =>
    case ProcessReturn(_) =>
    case CompleteReturn(_) =>
  }

  // ----- The three records -----

  lemma EntriesGrow(entries: seq<Entry>, base: seq<Entry>, tr: Transfers, re: Returns, e: Entry)
    requires EntriesTrue(entries, base, tr, re) && EntryTrue(e, |entries|, tr, re)
    ensures EntriesTrue(entries + [e], base, tr, re)
  {
  }

  lemma NumberedGrows(pending: seq<A.Hold>, now: nat, h: A.Hold)
    requires Numbered(pending, now) && now < 10 && h.sequence == |pending| + 1
    ensures Numbered(pending + [h], now)
  {
  }

  lemma {:induction false} ReleasedIncreases(pending: seq<A.Hold>, id: string)
    requires forall i, j :: 0 <= i < j < |pending| ==> pending[i].sequence < pending[j].sequence
    ensures var left := A.Released(pending, id); forall i, j :: 0 <= i < j < |left| ==> left[i].sequence < left[j].sequence
    decreases |pending|
  {
    if pending != [] {
      var init, last := pending[..|pending| - 1], pending[|pending| - 1];
      ReleasedIncreases(init, id);
      ReleasedHas(init, id);
      var left := A.Released(init, id);
      forall i | 0 <= i < |left| ensures left[i].sequence < last.sequence {
        assert left[i] in init;
        var k :| 0 <= k < |init| && init[k] == left[i];
        assert pending[k] == left[i];
      }
      ReleasedLast(pending, id);
    }
  }

  lemma HoldsGrow(pending: seq<A.Hold>, now: nat, tr: Transfers, h: A.Hold)
    requires HoldsTrue(pending, now, tr) && HoldTrue(h, tr) && now < 10 && h.sequence == |pending| + 1
    ensures HoldsTrue(pending + [h], now, tr)
  {
    NumberedGrows(pending, now, h);
  }

  lemma HoldsShrink(pending: seq<A.Hold>, now: nat, tr: Transfers, id: string)
    requires HoldsTrue(pending, now, tr) && now >= 10
    ensures HoldsTrue(A.Released(pending, id), now, tr)
  {
    ReleasedHas(pending, id);
    ReleasedIncreases(pending, id);
  }

  lemma SubmissionsGrow(submissions: seq<string>, tr: Transfers, id: string, t: A.Transfer)
    requires SubmissionsTrue(submissions, tr) && id in tr && !HandedOn(tr[id]) && HandedOn(t)
    ensures SubmissionsTrue(submissions + [id], tr[id := t])
  {
  }

  lemma SubmissionsStay(submissions: seq<string>, tr: Transfers, id: string, t: A.Transfer)
    requires SubmissionsTrue(submissions, tr) && HandedOn(t) == (id in tr && HandedOn(tr[id]))
    ensures SubmissionsTrue(submissions, tr[id := t])
  {
  }

  // ----- One event -----

  lemma TransferStays(tr: Transfers, re: Returns, id: string, t: A.Transfer)
    requires id in tr ==> TransferStands(tr[id], t)
    ensures Stands(tr, re, tr[id := t], re)
  {
  }

  lemma ReturnStays(tr: Transfers, re: Returns, id: string, r: R.Return)
    requires id in re ==> ReturnStands(re[id], r)
    ensures Stands(tr, re, tr, re[id := r])
  {
  }

  lemma TransferEventTells(w: R.World, e: Event<A.Action>, base: seq<Entry>)
    requires TransferReady(w, e) && Diary(w.net, w.returned, base)
    ensures var v := R.Execute(w, e.action).world; Diary(v.net, v.returned, base)
  {
    match e.action {
      case MarkPending(_) => MarkPendingTells(w, e);
      case Complete(_) => CompleteTells(w, e);
      case Validate(_) => ValidateTells(w, e);
      case Submit(_) => SubmitTells(w, e);
      case Process(_) => ProcessTells(w, e);
    }
    ExecuteNow(w, e.action);
    var v, id := R.Execute(w, e.action).world, e.action.transfer;
    DiaryMoves(w.net, v.net, w.returned, base, e.action, v.net.transfers[id]);
  }

  lemma DiaryMoves(n: A.Network, n': A.Network, re: Returns, base: seq<Entry>, a: A.Action, t': A.Transfer)
    requires SubjectOf(a).OfTransfer? && a.transfer in n.transfers && Diary(n, re, base)
    requires n'.agenda.now == n.agenda.now && n'.transfers == n.transfers[a.transfer := t']
    requires StepsTruly(n, n', a, n.transfers[a.transfer], t')
    ensures Diary(n', re, base)
  {
    var id := a.transfer;
    TransferStays(n.transfers, re, id, t');
    EntriesStand(n.entries, base, n.transfers, re, n'.transfers, re);
    HoldsStand(n.pending, n.agenda.now, n.agenda.now, n.transfers, re, n'.transfers, re);
    match a {
      case MarkPending(_) =>
        SubmissionsStay(n.submissions, n.transfers, id, t');
        if n'.pending != n.pending {
          HoldsGrow(n.pending, n.agenda.now, n'.transfers, n'.pending[|n'.pending| - 1]);
        }
      case Submit(_) => SubmissionsGrow(n.submissions, n.transfers, id, t');
      case Complete(_) =>
        SubmissionsStay(n.submissions, n.transfers, id, t');
        HoldsShrink(n.pending, n.agenda.now, n'.transfers, id);
        if n'.entries != n.entries {
          EntriesGrow(n.entries, base, n'.transfers, re, n'.entries[|n.entries|]);
        }
      case _ => SubmissionsStay(n.submissions, n.transfers, id, t');
    }
  }

  lemma ReturnEventTells(w: R.World, e: Event<A.Action>, base: seq<Entry>)
    requires ReturnReady(w, e) && Diary(w.net, w.returned, base)
    ensures var v := R.Execute(w, e.action).world; Diary(v.net, v.returned, base)
  {
    ReturnTellsTruly(w, e);
    ExecuteNow(w, e.action);
    var v, id := R.Execute(w, e.action).world, e.action.ret;
    ReturnStays(w.net.transfers, w.returned, id, v.returned[id]);
    EntriesStand(w.net.entries, base, w.net.transfers, w.returned, v.net.transfers, v.returned);
    if v.net.entries != w.net.entries {
      EntriesGrow(w.net.entries, base, v.net.transfers, v.returned, v.net.entries[|w.net.entries|]);
    }
  }

  // ----- A whole run -----

  lemma EventTells(w: R.World, e: Event<A.Action>, base: seq<Entry>)
    requires Turn(w, e) && Records(w, base) && R.Known(w, e.action) && Diary(w.net, w.returned, base)
    ensures var v := R.Execute(w, e.action).world; Diary(v.net, v.returned, base)
  {
    if SubjectOf(e.action).OfTransfer? {
      TransferTurn(w, e);
      TransferEventTells(w, e, base);
    } else {
      ReturnTurn(w, e);
      ReturnEventTells(w, e, base);
    }
  }

  lemma DiaryLater(w: R.World, agenda: Agenda<A.Action>, base: seq<Entry>)
    requires Diary(w.net, w.returned, base) && w.net.agenda.now <= agenda.now
    ensures Diary(w.net.(agenda := agenda), w.returned, base)
  {
  }

  lemma RunNextTells(w: R.World, base: seq<Entry>)
    requires Inv(w, base) && Diary(w.net, w.returned, base)
    ensures var v := R.RunNext(w).world; Diary(v.net, v.returned, base)
  {
    if w.net.agenda.queue != [] {
      TakeTurn(w);
      TakenFails(w, base);
      var Due(e, rest) := TakeNext(w.net.agenda);
      LaterBooks(w, base, rest);
      DiaryLater(w, rest, base);
      EventTells(R.Timed(w, rest), e, base);
      var s := R.Execute(R.Timed(w, rest), e.action);
      DiaryLater(s.world, Record(s.world.net.agenda, e), base);
    }
  }

  lemma ReceiveTells(w: R.World, base: seq<Entry>, request: A.TransferRequest)
    requires Diary(w.net, w.returned, base)
    ensures Diary(A.Receive(w.net, request).network, w.returned, base)
  {
    if request.id !in w.net.transfers {
      var n, t := A.Receive(w.net, request).network, A.NewTransfer(request);
      TransferStays(w.net.transfers, w.returned, request.id, t);
      EntriesStand(w.net.entries, base, w.net.transfers, w.returned, n.transfers, w.returned);
      HoldsStand(w.net.pending, w.net.agenda.now, w.net.agenda.now, w.net.transfers, w.returned, n.transfers, w.returned);
      SubmissionsStay(w.net.submissions, w.net.transfers, request.id, t);
    }
  }

  lemma FileTells(w: R.World, base: seq<Entry>, request: R.ReturnRequest)
    requires Diary(w.net, w.returned, base)
    ensures var v := R.Receive(w, request); Diary(v.net, v.returned, base)
  {
    if request.id !in w.returned {
      var v, r := R.Receive(w, request), R.NewReturn(request, w.net.agenda.now);
      ReturnStays(w.net.transfers, w.returned, request.id, r);
      EntriesStand(w.net.entries, base, w.net.transfers, w.returned, v.net.transfers, v.returned);
    }
  }

  lemma StepTells(w: R.World, base: seq<Entry>, op: R.Op)
    requires Inv(w, base) && Diary(w.net, w.returned, base)
    ensures var v := R.Step(w, op).world; Diary(v.net, v.returned, base)
  {
    match op
    case ReceiveTransfer(request) => ReceiveTells(w, base, request);
    case ReceiveReturn(request) => FileTells(w, base, request);
    case RunEvent => RunNextTells(w, base);
    case AdvanceClock(time) =>
      if w.net.agenda.now <= time {
        DiaryLater(w, w.net.agenda.(now := time), base);
      }
  }

  lemma {:induction false} ReachedTells(base: seq<Entry>, now: nat, ops: seq<R.Op>, w: R.World)
    requires Reached(base, now, ops, w)
    ensures Diary(w.net, w.returned, base)
    decreases |ops|
  {
    if ops != [] {
      var init, before := ops[..|ops| - 1], R.After(Initial(now, base), ops[..|ops| - 1]);
      ReachedTells(base, now, init, before);
      ReachedInv(base, now, init, before);
      StepTells(before, base, ops[|ops| - 1]);
    }
  }

  // ----- In every reached state -----

  /** Every entry behind the ledger's start is the debit of a completed transfer or the credit of a completed return, in every field. */
  lemma EntriesTold(base: seq<Entry>, now: nat, ops: seq<R.Op>, w: R.World)
    requires Reached(base, now, ops, w)
    ensures EntriesTrue(w.net.entries, base, w.net.transfers, w.returned)
  {
    ReachedTells(base, now, ops, w);
  }

  /** Every hold bears its transfer's description, and the holds are numbered in the order in which they were made. */
  lemma HoldsTold(base: seq<Entry>, now: nat, ops: seq<R.Op>, w: R.World)
    requires Reached(base, now, ops, w)
    ensures HoldsTrue(w.net.pending, w.net.agenda.now, w.net.transfers)
  {
    ReachedTells(base, now, ops, w);
  }

  /** Each transfer that is submitted or further on has been handed to the network once, and no other has. */
  lemma SubmissionsTold(base: seq<Entry>, now: nat, ops: seq<R.Op>, w: R.World)
    requires Reached(base, now, ops, w)
    ensures SubmissionsTrue(w.net.submissions, w.net.transfers)
  {
    ReachedTells(base, now, ops, w);
  }
}
