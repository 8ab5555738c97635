/** The ACH network and the return processor as mutable objects over one scheduler and one ledger. */
module AchObjects {
  import opened Wrappers
  import opened Ledgers
  import SchedulerObject
  import A = Ach
  import R = AchReturns
  import AchRuns

  class AchNetwork {
    const ledger: Ledger
    const scheduler: SchedulerObject.EventScheduler<A.Action>
    var ids: seq<string>
    var transfers: map<string, A.Transfer>
    var pending: seq<A.Hold>
    var submissions: seq<string>

    ghost function Repr(): set<object> {
      {this, ledger, scheduler}
    }

    function Model(): A.Network
      reads this, ledger, scheduler
    {
      A.Network(scheduler.Model(), ledger.entries, ids, transfers, pending, submissions)
    }

    constructor (ledger: Ledger, scheduler: SchedulerObject.EventScheduler<A.Action>)
      ensures this.ledger == ledger && this.scheduler == scheduler
      ensures Model() == A.Network(scheduler.Model(), ledger.entries, [], map[], [], [])
    {
      this.ledger, this.scheduler := ledger, scheduler;
      ids, transfers, pending, submissions := [], map[], [], [];
    }

    /** Schedule the next step; true if the scheduler raised. */
    method Schedule(time: nat, action: A.Action) returns (raised: bool)
      modifies scheduler
      ensures A.Stepped(Model(), raised) == A.Schedule(old(Model()), time, action)
    {
      var accepted := scheduler.ScheduleAt(time, action);
      raised := !accepted;
    }

    /** Apply an allowed transition, or raise. */
    method Transition(id: string, status: A.TransferStatus, time: nat) returns (raised: bool)
      requires id in transfers
      modifies this`transfers
      ensures raised <==> !A.Allowed(old(transfers)[id].status, status)
      ensures transfers == if raised then old(transfers) else old(transfers)[id := A.Moved(old(transfers)[id], status, time)]
    {
      raised := !A.Allowed(transfers[id].status, status);
      if !raised {
        transfers := transfers[id := A.Moved(transfers[id], status, time)];
      }
    }

    method Receive(request: A.TransferRequest) returns (raised: bool)
      modifies this, scheduler
      ensures A.Stepped(Model(), raised) == A.Receive(old(Model()), request)
    {
      if request.id in transfers {
        return true;
      }
      ids := ids + [request.id];
      transfers := transfers[request.id := A.NewTransfer(request)];
      raised := Schedule(1, A.Validate(request.id));
    }

    method Validate(id: string) returns (raised: bool)
      requires id in transfers
      modifies this, scheduler
      ensures A.Stepped(Model(), raised) == A.ValidateStep(old(Model()), id)
    {
      var t := transfers[id];
      var reason := A.Refusal(Model(), t);
      if reason.Some? {
        raised := Transition(id, A.Rejected, scheduler.clock);
        if !raised {
          transfers := transfers[id := transfers[id].(reason := reason)];
        }
        return;
      }
      raised := Transition(id, A.Validated, 1);
      if !raised {
        raised := Schedule(2, A.MarkPending(id));
      }
    }

    method MarkPending(id: string) returns (raised: bool)
      requires id in transfers
      modifies this, scheduler
      ensures A.Stepped(Model(), raised) == A.MarkPendingStep(old(Model()), id)
    {
      raised := Transition(id, A.Pending, 2);
      if raised {
        return;
      }
      var request := transfers[id].request;
      if request.cents <= 0 || A.Blank(request.id) || A.Flawed(request) {
        return true;
      }
      pending := pending + [A.HoldOf(transfers[id], |pending| + 1)];
      raised := Schedule(3, A.Submit(id));
    }

    method Submit(id: string) returns (raised: bool)
      requires id in transfers
      modifies this, scheduler
      ensures A.Stepped(Model(), raised) == A.SubmitStep(old(Model()), id)
    {
      raised := Transition(id, A.Submitted, 3);
      if !raised {
        submissions := submissions + [id];
        raised := Schedule(5, A.Process(id));
      }
    }

    method Process(id: string) returns (raised: bool)
      requires id in transfers
      modifies this, scheduler
      ensures A.Stepped(Model(), raised) == A.ProcessStep(old(Model()), id)
    {
      raised := Transition(id, A.Processing, 5);
      if !raised {
        raised := Schedule(10, A.Complete(id));
      }
    }

    /** Drop the holds of one transfer. */
    method Release(id: string)
      modifies this`pending
      ensures pending == A.Released(old(pending), id)
    {
      var kept: seq<A.Hold> := [];
      for i := 0 to |pending|
        invariant pending == old(pending)
        invariant kept == A.Released(pending[..i], id)
      {
        assert pending[..i + 1][..i] == pending[..i];
        if pending[i].transfer != id {
          kept := kept + [pending[i]];
        }
      }
      assert pending[..|pending|] == pending;
      pending := kept;
    }

    /** Complete once, clear the hold, and append exactly one debit. */
    method Complete(id: string) returns (raised: bool)
      requires id in transfers && ledger.Valid()
      modifies this, ledger
      ensures ledger.Valid()
      ensures A.Stepped(Model(), raised) == A.CompleteStep(old(Model()), id)
    {
      var t := transfers[id];
      raised := Transition(id, A.Completed, 10);
      if raised {
        return;
      }
      Release(id);
      if t.request.cents <= 0 || A.Blank(t.request.account) || A.Flawed(t.request) {
        return true;
      }
      var error := ledger.Append(A.DebitOf(t, |ledger.entries| + 1));
      if error.Some? {
        return true;
      }
      transfers := transfers[id := A.Moved(transfers[id], A.Completed, 10)];
    }
  }

  class AchReturnProcessor {
    const network: AchNetwork
    var rids: seq<string>
    var returned: map<string, R.Return>
    var byTransfer: map<string, string>

    function Model(): R.World
      reads this, network, network.ledger, network.scheduler
    {
      R.World(network.Model(), rids, returned, byTransfer)
    }

    constructor (network: AchNetwork)
      ensures this.network == network && Model() == R.Open(network.Model())
    {
      this.network := network;
      rids, returned, byTransfer := [], map[], map[];
    }

    method Transition(id: string, status: R.ReturnStatus) returns (raised: bool)
      requires id in returned
      modifies this`returned
      ensures raised <==> !R.Allowed(old(returned)[id].status, status)
      ensures returned ==
              if raised then old(returned) else old(returned)[id := R.Moved(old(returned)[id], status, network.scheduler.clock)]
    {
      raised := !R.Allowed(returned[id].status, status);
      if !raised {
        returned := returned[id := R.Moved(returned[id], status, network.scheduler.clock)];
      }
    }

    method Receive(request: R.ReturnRequest)
      modifies this, network.scheduler
      ensures Model() == R.Receive(old(Model()), request)
    {
      if request.id !in returned {
        rids := rids + [request.id];
        returned := returned[request.id := R.NewReturn(request, network.scheduler.clock)];
        network.scheduler.ScheduleAfter(1, A.ValidateReturn(request.id));
      }
    }

    method Validate(id: string) returns (raised: bool)
      requires id in returned
      modifies this, network.scheduler
      ensures R.Stepped(Model(), raised) == R.ValidateStep(old(Model()), id)
    {
      var reason := R.InvalidReason(Model(), returned[id].request);
      if reason.Some? {
        raised := Transition(id, R.Rejected);
        if !raised {
          returned := returned[id := returned[id].(reason := reason)];
        }
        return;
      }
      raised := Transition(id, R.Validated);
      if !raised {
        byTransfer := byTransfer[returned[id].request.transfer := id];
        network.scheduler.ScheduleAfter(1, A.ProcessReturn(id));
      }
    }

    method Process(id: string) returns (raised: bool)
      requires id in returned
      modifies this, network.scheduler
      ensures R.Stepped(Model(), raised) == R.ProcessStep(old(Model()), id)
    {
      raised := Transition(id, R.Processing);
      if !raised {
        network.scheduler.ScheduleAfter(3, A.CompleteReturn(id));
      }
    }

    /** Append one full corrective credit after the guarded transition. */
    method Complete(id: string) returns (raised: bool)
      requires id in returned && network.ledger.Valid()
      modifies this, network.ledger
      ensures network.ledger.Valid()
      ensures R.Stepped(Model(), raised) == R.CompleteStep(old(Model()), id)
    {
      var r, now := returned[id], network.scheduler.clock;
      raised := Transition(id, R.Completed);
      if raised {
        return;
      }
      if R.CreditRefused(Model(), r.request) {
        return true;
      }
      var account := network.transfers[r.request.transfer].request.account;
      var error := network.ledger.Append(R.CreditOf(r, account, |network.ledger.entries| + 1, now));
      if error.Some? {
        return true;
      }
      var correction := Some(ReturnCredit(r.request.id));
      returned := returned[id := R.Moved(returned[id].(completedAt := Some(now), correction := correction), R.Completed, now)];
    }

    /** Dispatch one action of the scheduler. */
    method Execute(a: A.Action) returns (raised: bool)
      requires R.Known(Model(), a) && network.ledger.Valid()
      modifies this, network.Repr()
      ensures network.ledger.Valid()
      ensures R.Stepped(Model(), raised) == R.Execute(old(Model()), a)
    {
      match a
      case Validate(t) => raised := network.Validate(t);
      case MarkPending(t) => raised := network.MarkPending(t);
      case Submit(t) => raised := network.Submit(t);
      case Process(t) => raised := network.Process(t);
      case Complete(t) => raised := network.Complete(t);
      case ValidateReturn(r) => raised := Validate(r);
      case ProcessReturn(r) => raised := Process(r);
      case CompleteReturn(r) => raised := Complete(r);
    }

    /** Run one event. */
    method RunNext() returns (raised: bool)
      requires network.ledger.Valid() && network.scheduler.queue != []
      modifies this, network.Repr()
      ensures network.ledger.Valid()
      ensures R.Stepped(Model(), raised) == R.RunNext(old(Model()))
    {
      var taken := network.scheduler.Take();
      if taken.None? || !R.Known(Model(), taken.value.action) {
        return true;
      }
      raised := Execute(taken.value.action);
      if !raised {
        network.scheduler.Executed(taken.value);
      }
    }

    /** Run events until none remain or one raises. */
    method Run() returns (raised: bool)
      requires network.ledger.Valid()
      modifies this, network.Repr()
      ensures network.ledger.Valid()
      ensures R.Stepped(Model(), raised) == AchRuns.Run(old(Model()))
    {
      raised := false;
      while network.scheduler.queue != []
        invariant network.ledger.Valid()
        invariant AchRuns.Run(Model()) == AchRuns.Run(old(Model()))
        decreases AchRuns.Work(network.scheduler.queue)
      {
        AchRuns.RunNextShrinks(Model());
        raised := RunNext();
        if raised {
          return;
        }
      }
    }
  }
}
