/** The pending events of the two ACH workflows mirror the statuses. */
module AchSchedule {
  import opened Wrappers
  import opened Scheduling
  import A = Ach
  import R = AchReturns

  type Transfers = map<string, A.Transfer>
  type Returns = map<string, R.Return>
  type Queue = seq<Event<A.Action>>

  datatype Subject = OfTransfer(id: string) | OfReturn(id: string)

  function SubjectOf(a: A.Action): Subject {
    match a
    case ValidateReturn(r) => OfReturn(r)
    case ProcessReturn(r) => OfReturn(r)
    case CompleteReturn(r) => OfReturn(r)
    case _ => OfTransfer(a.transfer)
  }

  /** The step a transfer is waiting for, and when it is due; none once its hold could not be made. */
  function NextOf(id: string, t: A.Transfer): Option<(A.Action, nat)> {
    match t.status
    case Received => Some((A.Validate(id), 1))
    case Validated => Some((A.MarkPending(id), 2))
    case Pending => if A.Flawed(t.request) then None else Some((A.Submit(id), 3))
    case Submitted => Some((A.Process(id), 5))
    case Processing => Some((A.Complete(id), 10))
    case Completed => None
    case Rejected => None
  }

  function NextOfReturn(id: string, r: R.Return): Option<(A.Action, nat)> {
    match r.status
    case Received => Some((A.ValidateReturn(id), r.receivedAt + 1))
    case Validated => Some((A.ProcessReturn(id), r.receivedAt + 2))
    case Processing => Some((A.CompleteReturn(id), r.receivedAt + 5))
    case Completed => None
    case Rejected => None
  }

  function Next(tr: Transfers, re: Returns, s: Subject): Option<(A.Action, nat)> {
    match s
    case OfTransfer(id) => if id in tr then NextOf(id, tr[id]) else None
    case OfReturn(id) => if id in re then NextOfReturn(id, re[id]) else None
  }

  /** An event is what its subject is waiting for. */
  ghost predicate Expected(e: Event<A.Action>, tr: Transfers, re: Returns) {
    Next(tr, re, SubjectOf(e.action)) == Some((e.action, e.time))
  }

  ghost predicate AllExpected(q: Queue, tr: Transfers, re: Returns) {
    forall e :: e in q ==> Expected(e, tr, re)
  }

  ghost predicate OneEach(q: Queue) {
    forall e, f :: e in q && f in q && SubjectOf(e.action) == SubjectOf(f.action) ==> e == f
  }

  ghost predicate InQueue(q: Queue, step: (A.Action, nat)) {
    exists e :: e in q && e.action == step.0 && e.time == step.1
  }

  /** Whatever waits for a step has it scheduled; a transfer received too late has not. */
  ghost predicate Awaited(q: Queue, tr: Transfers, re: Returns, s: Subject) {
    var next := Next(tr, re, s);
    next.Some? ==> InQueue(q, next.value) || next.value.0.Validate?
  }

  ghost predicate AllAwaited(q: Queue, tr: Transfers, re: Returns) {
    forall s :: Awaited(q, tr, re, s)
  }

  ghost predicate AllButAwaited(q: Queue, tr: Transfers, re: Returns, but: Subject) {
    forall s :: s != but ==> Awaited(q, tr, re, s)
  }

  ghost predicate Mirrored(q: Queue, tr: Transfers, re: Returns) {
    AllExpected(q, tr, re) && OneEach(q) && AllAwaited(q, tr, re)
  }

  /** As when the subject `s` has just had its event taken. */
  ghost predicate MirroredBut(q: Queue, tr: Transfers, re: Returns, s: Subject) {
    && AllExpected(q, tr, re) && OneEach(q) && AllButAwaited(q, tr, re, s)
    && forall e :: e in q ==> SubjectOf(e.action) != s
  }

  /** The workflows of all other subjects are the same. */
  ghost predicate OthersSame(tr: Transfers, re: Returns, tr': Transfers, re': Returns, s: Subject) {
    forall o :: o != s ==> Next(tr', re', o) == Next(tr, re, o)
  }

  ghost predicate Removed(q: Queue, e: Event<A.Action>, rest: Queue) {
    && e in q && e !in rest
    && forall x :: x in q <==> x == e || x in rest
  }

  lemma TakeMirrors(q: Queue, e: Event<A.Action>, rest: Queue, tr: Transfers, re: Returns)
    requires Mirrored(q, tr, re) && Removed(q, e, rest)
    ensures Expected(e, tr, re) && MirroredBut(rest, tr, re, SubjectOf(e.action))
  {
    forall s | s != SubjectOf(e.action) ensures Awaited(rest, tr, re, s) {
      assert Awaited(q, tr, re, s);
      var next := Next(tr, re, s);
      if next.Some? && InQueue(q, next.value) {
        NextHasSubject(tr, re, s);
        var x :| x in q && x.action == next.value.0 && x.time == next.value.1;
        assert x in rest;
      }
    }
  }

  lemma NextHasSubject(tr: Transfers, re: Returns, s: Subject)
    ensures Next(tr, re, s).Some? ==> SubjectOf(Next(tr, re, s).value.0) == s
  {
  }

  lemma OthersKeepMirror(q: Queue, tr: Transfers, re: Returns, tr': Transfers, re': Returns, s: Subject)
    requires MirroredBut(q, tr, re, s) && OthersSame(tr, re, tr', re', s)
    ensures MirroredBut(q, tr', re', s)
  {
    forall o | o != s ensures Awaited(q, tr', re', o) {
      assert Awaited(q, tr, re, o);
    }
  }

  /** The subject has come to an end. */
  lemma EndMirrors(q: Queue, tr: Transfers, re: Returns, s: Subject)
    requires MirroredBut(q, tr, re, s)
    requires Next(tr, re, s).None? || Next(tr, re, s).value.0.Validate?
    ensures Mirrored(q, tr, re)
  {
    forall o ensures Awaited(q, tr, re, o) {
      assert o != s ==> Awaited(q, tr, re, o);
    }
  }

  ghost predicate Added(q: Queue, e: Event<A.Action>, q': Queue) {
    forall x :: x in q' <==> x == e || x in q
  }

  /** The subject's next step has been scheduled. */
  lemma PushMirrors(q: Queue, e: Event<A.Action>, q': Queue, tr: Transfers, re: Returns)
    requires MirroredBut(q, tr, re, SubjectOf(e.action)) && Expected(e, tr, re) && Added(q, e, q')
    ensures Mirrored(q', tr, re)
  {
    forall o ensures Awaited(q', tr, re, o) {
      if o == SubjectOf(e.action) {
        assert e in q';
      } else {
        assert Awaited(q, tr, re, o);
        var next := Next(tr, re, o);
        if next.Some? && InQueue(q, next.value) {
          var x :| x in q && x.action == next.value.0 && x.time == next.value.1;
          assert x in q';
        }
      }
    }
  }

  /** A subject that is not known has no event. */
  lemma NewcomerMirrors(q: Queue, tr: Transfers, re: Returns, s: Subject)
    requires Mirrored(q, tr, re) && Next(tr, re, s).None?
    ensures MirroredBut(q, tr, re, s)
  {
  }
}
