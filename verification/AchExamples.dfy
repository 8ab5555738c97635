/** Runs of the ACH workflow from a list of requests, and what goes wrong in some of them. */
module AchExamples {
  import opened Scheduling
  import opened Ledgers
  import opened AchSchedule
  import opened AchBooks
  import opened AchTheorems
  import opened AchFailures
  import opened AchFunds
  import opened AchRuns
  import opened AchLate
  import A = Ach
  import R = AchReturns

  function Receipts(requests: seq<A.TransferRequest>): seq<R.Op> {
    seq(|requests|, i requires 0 <= i < |requests| => R.ReceiveTransfer(requests[i]))
  }

  function Turns(count: nat): seq<R.Op> {
    seq(count, _ => R.RunEvent)
  }

  function IdsOf(requests: seq<A.TransferRequest>): seq<string> {
    seq(|requests|, i requires 0 <= i < |requests| => requests[i].id)
  }

  ghost predicate DistinctIds(requests: seq<A.TransferRequest>) {
    forall i, j :: 0 <= i < j < |requests| ==> requests[i].id != requests[j].id
  }

  lemma AfterOne(w: R.World, ops: seq<R.Op>, op: R.Op)
    ensures R.After(w, ops + [op]) == R.Step(R.After(w, ops), op).world
    ensures R.AllPermitted(w, ops) && R.Permitted(R.After(w, ops), op) ==> R.AllPermitted(w, ops + [op])
    ensures LateIds(w, ops + [op]) ==
            LateIds(w, ops) + (if IsLate(R.After(w, ops), op) then {op.request.id} else {})
  {
    assert (ops + [op])[..|ops|] == ops;
  }

  // ----- Running what is there -----

  ghost predicate SameFiles(w: R.World, v: R.World) {
    SameRequests(w, v) && v.net.ids == w.net.ids
  }

  /** A longer run, `more`, leads from `w`, reached by `ops`, to `v`, and files nothing. */
  ghost predicate Leads(base: seq<Entry>, now: nat, ops: seq<R.Op>, w: R.World, more: seq<R.Op>, v: R.World) {
    && Reached(base, now, more, v) && SameFiles(w, v)
    && LateIds(Initial(now, base), more) == LateIds(Initial(now, base), ops)
  }

  lemma LeadsThrough(base: seq<Entry>, now: nat, ops: seq<R.Op>, w: R.World, more: seq<R.Op>, v: R.World, most: seq<R.Op>, u: R.World)
    requires Leads(base, now, ops, w, more, v) && Leads(base, now, more, v, most, u)
    ensures Leads(base, now, ops, w, most, u)
  {
  }

  function OutOf(base: seq<Entry>, now: nat, ops: seq<R.Op>): R.World {
    R.After(Initial(now, base), ops)
  }

  /** As many turns as there is work empty the queue and change no request. */
  lemma {:induction false} TurnsDrain(base: seq<Entry>, now: nat, ops: seq<R.Op>, w: R.World, count: nat)
    requires Reached(base, now, ops, w) && Work(w.net.agenda.queue) <= count
    ensures var v := OutOf(base, now, ops + Turns(count));
            Leads(base, now, ops, w, ops + Turns(count), v) && v.net.agenda.queue == []
    decreases count
  {
    if count == 0 {
      NoTurns(base, now, ops, w);
    } else {
      var next, rest := R.RunNext(w).world, ops + [R.RunEvent];
      OneTurn(base, now, ops, w);
      TurnsDrain(base, now, rest, next, count - 1);
      FirstTurn(ops, count);
      LeadsThrough(base, now, ops, w, rest, next, ops + Turns(count), OutOf(base, now, ops + Turns(count)));
    }
  }

  lemma FirstTurn(ops: seq<R.Op>, count: nat)
    requires count > 0
    ensures ops + Turns(count) == ops + [R.RunEvent] + Turns(count - 1)
  {
    assert Turns(count) == [R.RunEvent] + Turns(count - 1);
  }

  lemma NoTurns(base: seq<Entry>, now: nat, ops: seq<R.Op>, w: R.World)
    requires Reached(base, now, ops, w) && Work(w.net.agenda.queue) == 0
    ensures var v := OutOf(base, now, ops + Turns(0));
            Leads(base, now, ops, w, ops + Turns(0), v) && v.net.agenda.queue == []
  {
    EmptyWork(w.net.agenda.queue);
    assert ops + Turns(0) == ops;
  }

  lemma EmptyWork(q: Queue)
    ensures Work(q) == 0 <==> q == []
  {
    if q != [] {
      WorkTaken(q);
    }
  }

  lemma TurnFiles(base: seq<Entry>, now: nat, ops: seq<R.Op>, w: R.World)
    requires Reached(base, now, ops, w)
    ensures SameFiles(w, R.RunNext(w).world)
    ensures Work(R.RunNext(w).world.net.agenda.queue) < Work(w.net.agenda.queue) || Work(w.net.agenda.queue) == 0
    ensures w.net.agenda.queue == [] ==> R.RunNext(w).world == w
  {
    if w.net.agenda.queue != [] {
      ReachedInv(base, now, ops, w);
      TakenFails(w, base);
      var Due(e, rest) := TakeNext(w.net.agenda);
      RunNextRequests(w, e, rest);
      RunNextShrinks(w);
    }
  }

  lemma OneTurn(base: seq<Entry>, now: nat, ops: seq<R.Op>, w: R.World)
    requires Reached(base, now, ops, w)
    ensures var v := R.RunNext(w).world;
            && Leads(base, now, ops, w, ops + [R.RunEvent], v)
            && (Work(v.net.agenda.queue) < Work(w.net.agenda.queue) || Work(v.net.agenda.queue) == 0)
  {
    AfterOne(Initial(now, base), ops, R.RunEvent);
    TurnFiles(base, now, ops, w);
    EmptyWork(w.net.agenda.queue);
  }

  // ----- Receiving -----

  /** The transfers kept are the requests, each waiting for its validation. */
  ghost predicate Holds(w: R.World, requests: seq<A.TransferRequest>, now: nat) {
    && w.net.agenda.now == now && w.net.ids == IdsOf(requests) && w.returned == map[]
    && Work(w.net.agenda.queue) == 5 * |requests|
    && forall id :: id in w.net.transfers <==> id in IdsOf(requests)
  }

  ghost predicate Asked(w: R.World, requests: seq<A.TransferRequest>) {
    forall i :: 0 <= i < |requests| ==>
      requests[i].id in w.net.transfers && w.net.transfers[requests[i].id].request == requests[i]
  }

  /** The requests, received in time from the start, are kept and none is late. */
  ghost predicate Received(base: seq<Entry>, now: nat, requests: seq<A.TransferRequest>, w: R.World) {
    && Reached(base, now, Receipts(requests), w) && Holds(w, requests, now) && Asked(w, requests)
    && LateIds(Initial(now, base), Receipts(requests)) == {}
  }

  ghost predicate AllReceived(base: seq<Entry>, now: nat, requests: seq<A.TransferRequest>) {
    Received(base, now, requests, OutOf(base, now, Receipts(requests)))
  }

  lemma {:induction false} ReceiptsHold(base: seq<Entry>, now: nat, requests: seq<A.TransferRequest>)
    requires Sound(base) && now <= 1 && DistinctIds(requests)
    ensures AllReceived(base, now, requests)
    decreases |requests|
  {
    if requests != [] {
      var init, last := requests[..|requests| - 1], requests[|requests| - 1];
      LastIsNew(requests);
      ReceiptsHold(base, now, init);
      OneMore(base, now, init, last);
      SameReceipts(base, now, init + [last], requests);
    } else {
      NoReceipts(base, now);
    }
  }

  lemma SameReceipts(base: seq<Entry>, now: nat, requests: seq<A.TransferRequest>, others: seq<A.TransferRequest>)
    requires AllReceived(base, now, requests) && requests == others
    ensures AllReceived(base, now, others)
  {
  }

  lemma LastIsNew(requests: seq<A.TransferRequest>)
    requires requests != [] && DistinctIds(requests)
    ensures requests[|requests| - 1].id !in IdsOf(requests[..|requests| - 1])
    ensures DistinctIds(requests[..|requests| - 1])
  {
  }

  lemma NoReceipts(base: seq<Entry>, now: nat)
    requires Sound(base)
    ensures AllReceived(base, now, [])
  {
    assert Receipts([]) == [];
  }

  lemma OneMore(base: seq<Entry>, now: nat, requests: seq<A.TransferRequest>, last: A.TransferRequest)
    requires AllReceived(base, now, requests) && now <= 1 && last.id !in IdsOf(requests)
    ensures AllReceived(base, now, requests + [last])
  {
    assert Receipts(requests + [last]) == Receipts(requests) + [R.ReceiveTransfer(last)];
    AfterOne(Initial(now, base), Receipts(requests), R.ReceiveTransfer(last));
    OneReceipt(OutOf(base, now, Receipts(requests)), requests, now, last);
  }

  lemma OneReceipt(w: R.World, requests: seq<A.TransferRequest>, now: nat, last: A.TransferRequest)
    requires Holds(w, requests, now) && Asked(w, requests) && now <= 1 && last.id !in IdsOf(requests)
    ensures var v := R.Step(w, R.ReceiveTransfer(last)).world;
            Holds(v, requests + [last], now) && Asked(v, requests + [last])
  {
    var v := R.Step(w, R.ReceiveTransfer(last)).world;
    WorkInserted(w.net.agenda.queue, Event(1, w.net.agenda.nextOrder, A.Validate(last.id)));
    assert IdsOf(requests + [last]) == IdsOf(requests) + [last.id];
  }

  // ----- A whole run -----

  /** The requests in time, then every event. */
  function Script(requests: seq<A.TransferRequest>): seq<R.Op> {
    Receipts(requests) + Turns(5 * |requests|)
  }

  function Outturn(base: seq<Entry>, now: nat, requests: seq<A.TransferRequest>): R.World {
    R.After(Initial(now, base), Script(requests))
  }

  lemma ScriptRuns(base: seq<Entry>, now: nat, requests: seq<A.TransferRequest>)
    requires Sound(base) && now <= 1 && DistinctIds(requests)
    ensures var w := Outturn(base, now, requests);
            && Reached(base, now, Script(requests), w) && w.net.agenda.queue == []
            && w.net.ids == IdsOf(requests) && w.returned == map[] && Asked(w, requests)
    ensures LateIds(Initial(now, base), Script(requests)) == {}
  {
    var v := R.After(Initial(now, base), Receipts(requests));
    ReceiptsHold(base, now, requests);
    TurnsDrain(base, now, Receipts(requests), v, 5 * |requests|);
    assert Leads(base, now, Receipts(requests), v, Script(requests), Outturn(base, now, requests));
  }

  /** Whatever is asked for together, each transfer ends as its own verdict and description say. */
  lemma EachEndsAlone(base: seq<Entry>, now: nat, requests: seq<A.TransferRequest>, i: nat)
    requires Sound(base) && now <= 1 && DistinctIds(requests) && i < |requests|
    ensures var w := Outturn(base, now, requests);
            && Reached(base, now, Script(requests), w) && w.net.agenda.queue == []
            && requests[i].id in w.net.transfers
            && w.net.transfers[requests[i].id].request == requests[i]
            && w.net.transfers[requests[i].id].status == Outcome(base, requests[i])
  {
    ScriptRuns(base, now, requests);
    EndsAs(base, now, Script(requests), Outturn(base, now, requests), requests[i].id);
  }

  /** What the requests take from the account: those that complete, and whose debit the ledger has room for. */
  ghost function Charges(base: seq<Entry>, requests: seq<A.TransferRequest>, account: string): int {
    if requests == [] then 0
    else
      var last := requests[|requests| - 1];
      Charges(base, requests[..|requests| - 1], account) + Charge(base, last, account)
  }

  ghost function Charge(base: seq<Entry>, r: A.TransferRequest, account: string): int {
    if r.account == account && Outcome(base, r) == A.Completed && DebitDue(base, r.id) then r.cents else 0
  }

  /** Each request has ended as it should. */
  ghost predicate Ended(base: seq<Entry>, requests: seq<A.TransferRequest>, tr: Transfers) {
    forall i :: 0 <= i < |requests| ==> EndedOne(base, requests[i], tr)
  }

  ghost predicate EndedOne(base: seq<Entry>, r: A.TransferRequest, tr: Transfers) {
    && r.id in tr && tr[r.id].request == r && tr[r.id].status == Outcome(base, r)
    && (Debited(tr[r.id]) <==> tr[r.id].status == A.Completed && DebitDue(base, r.id))
  }

  lemma {:induction false} ChargesTotal(base: seq<Entry>, requests: seq<A.TransferRequest>, tr: Transfers, account: string)
    requires Ended(base, requests, tr)
    ensures Total(IdsOf(requests), tr, DebitedFrom(account)) == Charges(base, requests, account)
    decreases |requests|
  {
    if requests != [] {
      var init, last := requests[..|requests| - 1], requests[|requests| - 1];
      ChargesTotal(base, init, tr, account);
      assert IdsOf(requests) == IdsOf(init) + [last.id];
      assert EndedOne(base, last, tr);
    }
  }

  lemma AllEnd(base: seq<Entry>, now: nat, requests: seq<A.TransferRequest>)
    requires Sound(base) && now <= 1 && DistinctIds(requests)
    ensures Ended(base, requests, Outturn(base, now, requests).net.transfers)
  {
    var w := Outturn(base, now, requests);
    forall i | 0 <= i < |requests| ensures EndedOne(base, requests[i], w.net.transfers) {
      EachEndsAlone(base, now, requests, i);
      DebitsAreDue(base, now, Script(requests), w, requests[i].id);
    }
  }

  lemma DebitsAreDue(base: seq<Entry>, now: nat, ops: seq<R.Op>, w: R.World, id: string)
    requires Reached(base, now, ops, w) && id in w.net.transfers
    ensures Debited(w.net.transfers[id]) <==> w.net.transfers[id].status == A.Completed && DebitDue(base, id)
  {
    ReachedInv(base, now, ops, w);
    assert OnlyIfDue(base, w.net.transfers, w.returned);
  }

  /**
   What the run of a list of requests leaves in an account: each is checked
   against the opening balance by itself, and all that pass are taken. So the
   account is overdrawn exactly when these come to more than it had.
   */
  lemma EndBalance(base: seq<Entry>, now: nat, requests: seq<A.TransferRequest>, account: string)
    requires Sound(base) && now <= 1 && DistinctIds(requests)
    ensures var w := Outturn(base, now, requests);
            && w.net.pending == []
            && A.Available(w.net, account) == AccountBalance(w.net.entries, account)
               == AccountBalance(base, account) - Charges(base, requests, account)
  {
    var w := Outturn(base, now, requests);
    ScriptRuns(base, now, requests);
    DrainedIsSettled(base, now, Script(requests), w);
    AllEnd(base, now, requests);
    ChargesTotal(base, requests, w.net.transfers, account);
    AvailableIs(base, now, Script(requests), w, account);
    TotalNothing(w.rids, w.returned, CreditedTo(w.net.transfers, account));
    NothingHeld(w);
  }

  lemma NothingHeld(w: R.World)
    requires Settled(w)
    ensures Total(w.net.ids, w.net.transfers, HeldCents) == 0
  {
    TotalNothing(w.net.ids, w.net.transfers, HeldCents);
  }

  // ----- One account, opened with 100 cents -----

  function OpenedAt(time: nat): seq<Entry> {
    [Entry(Opening, "ACC", 100, Credit, 1, time)]
  }

  function Transfer60(id: string, description: string): A.TransferRequest {
    A.TransferRequest(id, "ACC", "BANK", "REF", 60, description)
  }

  lemma OpenedIs(time: nat)
    ensures Sound(OpenedAt(time)) && AccountBalance(OpenedAt(time), "ACC") == 100 && LastPosted(OpenedAt(time)) == time
    ensures forall id :: PaymentDebit(id) !in Ids(OpenedAt(time)) && ReturnCredit(id) !in Ids(OpenedAt(time))
  {
    assert OpenedAt(time)[..0] == [];
  }

  lemma Accepted60(time: nat, id: string, description: string)
    requires id == "T" || id == "U"
    ensures Verdict(OpenedAt(time), Transfer60(id, description)).None?
  {
    OpenedIs(time);
    assert id[0] != ' ' && "ACC"[0] == 'A' && "BANK"[0] == 'B' && "REF"[0] == 'R';
  }

  /** A transfer described by one space: validated, then pending for ever, without a hold. */
  lemma BlankDescriptionExample()
    ensures var ops := Script([Transfer60("T", " ")]);
            var w := R.After(Initial(0, OpenedAt(0)), ops);
            && Reached(OpenedAt(0), 0, ops, w) && w.net.agenda.queue == [] && w.net.pending == []
            && "T" in w.net.transfers && w.net.transfers["T"].status == A.Pending
            && A.MarkPending("T") in RaisedActions(Initial(0, OpenedAt(0)), ops)
  {
    var requests := [Transfer60("T", " ")];
    OpenedIs(0);
    Accepted60(0, "T", " ");
    EachEndsAlone(OpenedAt(0), 0, requests, 0);
    DrainedIsSettled(OpenedAt(0), 0, Script(requests), Outturn(OpenedAt(0), 0, requests));
    RaisedIff(OpenedAt(0), 0, Script(requests), Outturn(OpenedAt(0), 0, requests), "T");
  }

  /** On a ledger that already stands at time 300 the transfer completes, and the account keeps its money. */
  lemma LateLedgerExample()
    ensures var ops := Script([Transfer60("T", "")]);
            var w := R.After(Initial(0, OpenedAt(300)), ops);
            && Reached(OpenedAt(300), 0, ops, w) && w.net.agenda.queue == []
            && "T" in w.net.transfers && w.net.transfers["T"].status == A.Completed
            && A.Complete("T") in RaisedActions(Initial(0, OpenedAt(300)), ops)
            && PaymentDebit("T") !in Ids(w.net.entries)
  {
    var requests := [Transfer60("T", "")];
    OpenedIs(300);
    Accepted60(300, "T", "");
    A.FlawedIff(requests[0]);
    EachEndsAlone(OpenedAt(300), 0, requests, 0);
    RaisedIff(OpenedAt(300), 0, Script(requests), Outturn(OpenedAt(300), 0, requests), "T");
    OnePostingEach(OpenedAt(300), 0, Script(requests), Outturn(OpenedAt(300), 0, requests), "T");
  }

  /** Received at time 2: kept, refused by the scheduler, and nothing left to run. */
  lemma LateTransferExample()
    ensures var s := R.Step(Initial(2, OpenedAt(0)), R.ReceiveTransfer(Transfer60("T", "")));
            && s.raised && s.world.net.agenda.queue == []
            && s.world.net.transfers["T"].status == A.Received && R.RunNext(s.world).world == s.world
  {
  }

  /** Two transfers of 60, each within the 100 that are there, and the account ends at -20. */
  lemma OverdrawExample()
    ensures var w := Outturn(OpenedAt(0), 0, [Transfer60("T", ""), Transfer60("U", "")]);
            A.Available(w.net, "ACC") == AccountBalance(w.net.entries, "ACC") == -20
  {
    var requests := [Transfer60("T", ""), Transfer60("U", "")];
    OpenedIs(0);
    EndBalance(OpenedAt(0), 0, requests, "ACC");
    Charge60("T");
    Charge60("U");
    assert requests[..1] == [Transfer60("T", "")] && requests[..1][..0] == [];
    assert Charges(OpenedAt(0), requests[..1], "ACC") == 60;
  }

  lemma Charge60(id: string)
    requires id == "T" || id == "U"
    ensures Charge(OpenedAt(0), Transfer60(id, ""), "ACC") == 60
  {
    OpenedIs(0);
    Accepted60(0, id, "");
    A.FlawedIff(Transfer60(id, ""));
  }
}
