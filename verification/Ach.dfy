/** The outbound ACH workflow: guarded transitions at fixed times, holds, and one debit. */
module Ach {
  import opened Wrappers
  import opened Scheduling
  import opened Ledgers

  datatype TransferStatus = Received | Validated | Pending | Submitted | Processing | Completed | Rejected

  datatype Reason =
    | BlankTransferId
    | BlankSourceAccount
    | BlankInstitution
    | BlankReference
    | ZeroAmount
    | NegativeAmount
    | InsufficientFunds

  datatype TransferRequest = TransferRequest(
    id: string,
    account: string,
    institution: string,
    reference: string,
    cents: int,
    description: string)

  datatype Observation = Observation(time: nat, status: TransferStatus)

  datatype Transfer = Transfer(request: TransferRequest, status: TransferStatus, reason: Option<Reason>, history: seq<Observation>)

  datatype Hold = Hold(transfer: string, cents: int, description: string, sequence: nat)

  /** What the scheduler can be asked to run, here and in the return workflow. */
  datatype Action =
    | Validate(transfer: string)
    | MarkPending(transfer: string)
    | Submit(transfer: string)
    | Process(transfer: string)
    | Complete(transfer: string)
    | ValidateReturn(ret: string)
    | ProcessReturn(ret: string)
    | CompleteReturn(ret: string)

  /** The network; `ids` is the order in which the dictionary of transfers was filled. */
  datatype Network = Network(
    agenda: Agenda<Action>,
    entries: seq<Entry>,
    ids: seq<string>,
    transfers: map<string, Transfer>,
    pending: seq<Hold>,
    submissions: seq<string>)

  /** Where a call leaves the network, and whether it raised. */
  datatype Stepped = Stepped(network: Network, raised: bool)

  predicate Allowed(from: TransferStatus, to: TransferStatus) {
    match from
    case Received => to == Validated || to == Rejected
    case Validated => to == Pending
    case Pending => to == Submitted
    case Submitted => to == Processing
    case Processing => to == Completed
    case Completed => false
    case Rejected => false
  }

  function NewTransfer(request: TransferRequest): Transfer {
    Transfer(request, Received, None, [Observation(0, Received)])
  }

  function Moved(t: Transfer, status: TransferStatus, time: nat): Transfer {
    t.(status := status, history := t.history + [Observation(time, status)])
  }

  function Open(now: nat, entries: seq<Entry>): Network {
    Network(Start(now), entries, [], map[], [], [])
  }

  // ----- Balances -----

  function Held(pending: seq<Hold>): int {
    if pending == [] then 0 else Held(pending[..|pending| - 1]) + pending[|pending| - 1].cents
  }

  /** The account's posted balance less all holds, whichever account they are for. */
  function Available(n: Network, account: string): int {
    AccountBalance(n.entries, account) - Held(n.pending)
  }

  // ----- Texts -----

  /** What stripping a string removes at its ends. */
  predicate IsSpace(c: char) {
    var n := c as int;
    || 0x09 <= n <= 0x0d || 0x1c <= n <= 0x20 || n == 0x85 || n == 0xa0 || n == 0x1680
    || 0x2000 <= n <= 0x200a || n == 0x2028 || n == 0x2029 || n == 0x202f || n == 0x205f || n == 0x3000
  }

  predicate Blank(s: string) {
    forall i :: 0 <= i < |s| ==> IsSpace(s[i])
  }

  /** The description of the hold and of the debit: an empty one is replaced. */
  function Text(r: TransferRequest): string {
    if r.description == "" then "Outbound ACH credit" else r.description
  }

  /** A description that validation accepts, because it is text, and the hold does not, because it is blank. */
  predicate Flawed(r: TransferRequest) {
    Blank(Text(r))
  }

  lemma FlawedIff(r: TransferRequest)
    ensures Flawed(r) <==> r.description != "" && Blank(r.description)
  {
    assert Text(r)[0] == 'O' || r.description != "";
  }

  function InvalidReason(r: TransferRequest): Option<Reason> {
    if Blank(r.id) then Some(BlankTransferId)
    else if Blank(r.account) then Some(BlankSourceAccount)
    else if Blank(r.institution) then Some(BlankInstitution)
    else if Blank(r.reference) then Some(BlankReference)
    else if r.cents == 0 then Some(ZeroAmount)
    else if r.cents < 0 then Some(NegativeAmount)
    else None
  }

  /** Everything but the holds of one transfer, in order. */
  function Released(pending: seq<Hold>, transfer: string): seq<Hold> {
    if pending == [] then []
    else
      var init, last := pending[..|pending| - 1], pending[|pending| - 1];
      Released(init, transfer) + (if last.transfer == transfer then [] else [last])
  }

  // ----- The steps -----

  function Put(n: Network, id: string, t: Transfer): Network {
    n.(transfers := n.transfers[id := t])
  }

  function Schedule(n: Network, time: nat, action: Action): Stepped {
    match ScheduleAt(n.agenda, time, action)
    case Some(agenda) => Stepped(n.(agenda := agenda), false)
    case None => Stepped(n, true)
  }

  /** A transfer received after time 1 is kept, but the call raises and nothing will validate it. */
  function Receive(n: Network, request: TransferRequest): Stepped {
    if request.id in n.transfers then Stepped(n, true)
    else
      var kept := n.(ids := n.ids + [request.id], transfers := n.transfers[request.id := NewTransfer(request)]);
      Schedule(kept, 1, Validate(request.id))
  }

  function Refusal(n: Network, t: Transfer): Option<Reason> {
    if InvalidReason(t.request).Some? then InvalidReason(t.request)
    else if t.request.cents > Available(n, t.request.account) then Some(InsufficientFunds)
    else None
  }

  function ValidateStep(n: Network, id: string): Stepped
    requires id in n.transfers
  {
    var t := n.transfers[id];
    var reason := Refusal(n, t);
    if reason.Some? then
      if !Allowed(t.status, Rejected) then Stepped(n, true)
      else Stepped(Put(n, id, Moved(t, Rejected, n.agenda.now).(reason := reason)), false)
    else if !Allowed(t.status, Validated) then Stepped(n, true)
    else Schedule(Put(n, id, Moved(t, Validated, 1)), 2, MarkPending(id))
  }

  /** The transfer is pending before the hold is made, and making the hold raises on a blank text. */
  function MarkPendingStep(n: Network, id: string): Stepped
    requires id in n.transfers
  {
    var t := n.transfers[id];
    if !Allowed(t.status, Pending) then Stepped(n, true)
    else
      var moved := Put(n, id, Moved(t, Pending, 2));
      if t.request.cents <= 0 || Blank(t.request.id) || Flawed(t.request) then Stepped(moved, true)
      else Schedule(moved.(pending := n.pending + [HoldOf(t, |n.pending| + 1)]), 3, Submit(id))
  }

  function HoldOf(t: Transfer, sequence: nat): Hold {
    Hold(t.request.id, t.request.cents, Text(t.request), sequence)
  }

  function SubmitStep(n: Network, id: string): Stepped
    requires id in n.transfers
  {
    var t := n.transfers[id];
    if !Allowed(t.status, Submitted) then Stepped(n, true)
    else Schedule(Put(n, id, Moved(t, Submitted, 3)).(submissions := n.submissions + [id]), 5, Process(id))
  }

  function ProcessStep(n: Network, id: string): Stepped
    requires id in n.transfers
  {
    var t := n.transfers[id];
    if !Allowed(t.status, Processing) then Stepped(n, true)
    else Schedule(Put(n, id, Moved(t, Processing, 5)), 10, Complete(id))
  }

  function DebitOf(t: Transfer, sequence: nat): Entry
    requires t.request.cents > 0
  {
    Entry(PaymentDebit(t.request.id), t.request.account, t.request.cents, Debit, sequence, 10)
  }

  /** The transfer is completed and its hold gone before the ledger is asked. */
  function CompleteStep(n: Network, id: string): Stepped
    requires id in n.transfers
  {
    var t := n.transfers[id];
    if !Allowed(t.status, Completed) then Stepped(n, true)
    else
      if t.request.cents <= 0 || Blank(t.request.account) || Flawed(t.request) then Stepped(Unposted(n, id), true)
      else if Objection(n.entries, DebitOf(t, |n.entries| + 1)).Some? then Stepped(Unposted(n, id), true)
      else Stepped(Posted(n, id), false)
  }

  function Unposted(n: Network, id: string): Network
    requires id in n.transfers
  {
    Put(n, id, Moved(n.transfers[id], Completed, 10)).(pending := Released(n.pending, id))
  }

  function Posted(n: Network, id: string): Network
    requires id in n.transfers && n.transfers[id].request.cents > 0
  {
    var t := n.transfers[id];
    Put(n, id, Moved(Moved(t, Completed, 10), Completed, 10)).(
      pending := Released(n.pending, id),
      entries := n.entries + [DebitOf(t, |n.entries| + 1)])
  }
}
