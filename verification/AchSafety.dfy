/** On which ledgers no account can ever come to stand above what it had. */
module AchSafety {
  import opened Wrappers
  import opened Ledgers
  import opened AchBooks
  import opened AchTheorems
  import opened AchFunds
  import opened AchLate
  import opened AchExamples
  import opened AchRefunds
  import A = Ach
  import R = AchReturns

  /** Whatever is received and run, no account stands above what it had. */
  ghost predicate NeverGives(base: seq<Entry>) {
    forall now, ops, w, account :: Reached(base, now, ops, w) ==>
      AccountBalance(w.net.entries, account) <= AccountBalance(base, account)
  }

  /** The ledger has room for the debit of every transfer that validation can accept. */
  ghost predicate RoomForDebits(base: seq<Entry>) {
    LastPosted(base) <= 10 && forall id :: !A.Blank(id) ==> PaymentDebit(id) !in Ids(base)
  }

  ghost predicate NothingToSend(base: seq<Entry>) {
    forall account :: !A.Blank(account) ==> AccountBalance(base, account) <= 0
  }

  // ----- Room, or nothing to send: safe -----

  lemma ReturnedWasAccepted(base: seq<Entry>, now: nat, ops: seq<R.Op>, w: R.World, r: string)
    requires Reached(base, now, ops, w) && r in w.returned && Credited(w.returned[r])
    ensures var t := w.returned[r].request.transfer;
            && t in w.net.transfers && w.net.transfers[t].request.id == t
            && Verdict(base, w.net.transfers[t].request).None?
  {
    ReachedInv(base, now, ops, w);
    var t := w.returned[r].request.transfer;
    assert Returning(w.net.transfers, w.returned, w.byTransfer);
    assert Corrects(w.returned[r], w.net.transfers);
    assert GoodTransfer(t, w.net.transfers[t]);
    JudgedAlone(base, now, ops, w, t);
  }

  lemma SafeReturns(base: seq<Entry>, now: nat, ops: seq<R.Op>, w: R.World)
    requires Reached(base, now, ops, w) && (RoomForDebits(base) || NothingToSend(base))
    ensures ReturnedAreDue(base, w.returned)
  {
    forall r | r in w.returned && Credited(w.returned[r]) ensures DebitDue(base, w.returned[r].request.transfer) {
      ReturnedWasAccepted(base, now, ops, w, r);
    }
  }

  lemma SafeNeverGives(base: seq<Entry>)
    requires RoomForDebits(base) || NothingToSend(base)
    ensures NeverGives(base)
  {
    forall now, ops, w, account | Reached(base, now, ops, w)
      ensures AccountBalance(w.net.entries, account) <= AccountBalance(base, account)
    {
      SafeReturns(base, now, ops, w);
      NeverAboveOpening(base, now, ops, w, account);
    }
  }

  // ----- Neither: a run that gives -----

  /** The length of the longest identifier of a return that the ledger has credited. */
  function Longest(entries: seq<Entry>): nat {
    if entries == [] then 0
    else
      var e := entries[|entries| - 1];
      Max(Longest(entries[..|entries| - 1]), if e.id.ReturnCredit? then |e.id.ret| else 0)
  }

  lemma {:induction false} LongestBounds(entries: seq<Entry>, i: nat)
    requires i < |entries| && entries[i].id.ReturnCredit?
    ensures |entries[i].id.ret| <= Longest(entries)
    decreases |entries|
  {
    if i < |entries| - 1 {
      LongestBounds(entries[..|entries| - 1], i);
    }
  }

  function NewName(entries: seq<Entry>): string {
    seq(Longest(entries) + 1, _ => 'R')
  }

  lemma NewNameIsNew(entries: seq<Entry>)
    ensures !A.Blank(NewName(entries)) && ReturnCredit(NewName(entries)) !in Ids(entries)
  {
    assert NewName(entries)[0] == 'R' && !A.IsSpace('R');
    forall i | 0 <= i < |entries| ensures entries[i].id != ReturnCredit(NewName(entries)) {
      if entries[i].id.ReturnCredit? {
        LongestBounds(entries, i);
      }
    }
  }

  function OneCent(id: string, account: string): A.TransferRequest {
    A.TransferRequest(id, account, "BANK", "REF", 1, "")
  }

  /** Send one cent, wait until the ledger's time has come, and file the return. */
  function Giving(base: seq<Entry>, id: string, account: string): seq<R.Op> {
    SendAndWait(base, id, account) + Filing(R.ReturnRequest(NewName(base), id, 1))
  }

  function SendAndWait(base: seq<Entry>, id: string, account: string): seq<R.Op> {
    Script([OneCent(id, account)]) + [R.AdvanceClock(Max(10, LastPosted(base)))]
  }

  lemma OneCentPasses(base: seq<Entry>, id: string, account: string)
    requires !A.Blank(id) && !A.Blank(account) && AccountBalance(base, account) > 0
    ensures Outcome(base, OneCent(id, account)) == A.Completed
  {
    assert "BANK"[0] == 'B' && "REF"[0] == 'R';
    A.FlawedIff(OneCent(id, account));
  }

  /** The one transfer is completed, nothing is pending and nothing returned. */
  ghost predicate SentOne(w: R.World, id: string, account: string) {
    && w.net.agenda.queue == [] && w.returned == map[] && w.net.transfers.Keys == {id}
    && w.net.transfers[id].request == OneCent(id, account) && w.net.transfers[id].status == A.Completed
  }

  lemma ScriptSends(base: seq<Entry>, id: string, account: string)
    requires Sound(base) && !A.Blank(id) && !A.Blank(account) && AccountBalance(base, account) > 0
    ensures var requests := [OneCent(id, account)];
            Reached(base, 0, Script(requests), Outturn(base, 0, requests)) && SentOne(Outturn(base, 0, requests), id, account)
  {
    var requests := [OneCent(id, account)];
    var w := Outturn(base, 0, requests);
    OneCentPasses(base, id, account);
    ScriptRuns(base, 0, requests);
    EachEndsAlone(base, 0, requests, 0);
    ReachedInv(base, 0, Script(requests), w);
    assert IdsOf(requests) == [id] && Filed(w.net.ids, w.net.transfers);
  }

  lemma WaitingSends(base: seq<Entry>, id: string, account: string)
    requires Sound(base) && !A.Blank(id) && !A.Blank(account) && AccountBalance(base, account) > 0
    ensures var w := OutOf(base, 0, SendAndWait(base, id, account));
            && Reached(base, 0, SendAndWait(base, id, account), w) && SentOne(w, id, account)
            && LastPosted(base) <= w.net.agenda.now
  {
    var ops, w := Script([OneCent(id, account)]), Outturn(base, 0, [OneCent(id, account)]);
    ScriptSends(base, id, account);
    ReachedOne(base, 0, ops, w, R.AdvanceClock(Max(10, LastPosted(base))));
  }

  lemma GivingGives(base: seq<Entry>, id: string, account: string)
    requires Sound(base) && !A.Blank(id) && !A.Blank(account) && AccountBalance(base, account) > 0 && !DebitDue(base, id)
    ensures var w := OutOf(base, 0, Giving(base, id, account));
            && Reached(base, 0, Giving(base, id, account), w)
            && AccountBalance(w.net.entries, account) > AccountBalance(base, account)
  {
    var ops, request := SendAndWait(base, id, account), R.ReturnRequest(NewName(base), id, 1);
    var w := OutOf(base, 0, ops);
    WaitingSends(base, id, account);
    NewNameIsNew(base);
    Returnable(base, 0, ops, w, request);
    LoneReturn(base, 0, ops, w, request);
    FilingKeepsRequests(base, 0, ops, w, request, id);
    CreditRaises(base, 0, ops + Filing(request), OutOf(base, 0, ops + Filing(request)), NewName(base));
  }

  /**
   On a ledger no account can come to stand above what it had, whatever is
   received and run, if and only if the ledger has room for the debit of every
   transfer that validation can accept, or no account has anything to send.
   */
  lemma NeverGivesIff(base: seq<Entry>)
    requires Sound(base)
    ensures NeverGives(base) <==> RoomForDebits(base) || NothingToSend(base)
  {
    if RoomForDebits(base) || NothingToSend(base) {
      SafeNeverGives(base);
    } else {
      var account :| !A.Blank(account) && AccountBalance(base, account) > 0;
      var id := NotDue(base);
      GivingGives(base, id, account);
    }
  }

  lemma NotDue(base: seq<Entry>) returns (id: string)
    requires !RoomForDebits(base)
    ensures !A.Blank(id) && !DebitDue(base, id)
  {
    if LastPosted(base) > 10 {
      id := "T";
      assert id[0] == 'T' && !A.IsSpace('T');
    } else {
      id :| !A.Blank(id) && PaymentDebit(id) in Ids(base);
    }
  }
}
