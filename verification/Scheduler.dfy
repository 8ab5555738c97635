/**
 The discrete-event scheduler and its clock, as values.

 The heap of the scheduler is used only through "push" and "pop the least
 (time, order)", so it is represented by the sequence of its events in that
 order.  Callbacks are represented by a datatype `A` of actions; whoever drives
 the agenda decides what an action does.
 */
module Scheduling {
  import opened Wrappers

  datatype Event<+A> = Event(time: nat, order: nat, action: A)

  datatype Execution = Execution(time: nat, order: nat)

  datatype Agenda<+A> = Agenda(now: nat, nextOrder: nat, queue: seq<Event<A>>, history: seq<Execution>)

  /** What one `run_next` finds: nothing, an event the clock has passed, or a due event. */
  datatype Taken<+A> = Empty | Late(rest: Agenda<A>) | Due(event: Event<A>, rest: Agenda<A>)

  predicate Before<A>(e: Event<A>, f: Event<A>) {
    e.time < f.time || (e.time == f.time && e.order < f.order)
  }

  ghost predicate Sorted<A>(q: seq<Event<A>>) {
    forall i, j :: 0 <= i < j < |q| ==> Before(q[i], q[j])
  }

  ghost predicate Valid<A>(s: Agenda<A>) {
    && Sorted(s.queue)
    && forall e :: e in s.queue ==> e.order < s.nextOrder
  }

  /** No pending event lies behind the clock. */
  ghost predicate OnTime<A>(s: Agenda<A>) {
    forall e :: e in s.queue ==> s.now <= e.time
  }

  /** How many leading events run before `e`. */
  function Position<A>(q: seq<Event<A>>, e: Event<A>): (p: nat)
    ensures p <= |q|
    ensures forall i :: 0 <= i < p ==> !Before(e, q[i])
    ensures p < |q| ==> Before(e, q[p])
  {
    if q == [] || Before(e, q[0]) then 0
    else
      var p := 1 + Position(q[1..], e);
      assert forall i :: 1 <= i < p ==> q[i] == q[1..][i - 1];
      p
  }

  function Insert<A>(q: seq<Event<A>>, e: Event<A>): seq<Event<A>> {
    var p := Position(q, e);
    q[..p] + [e] + q[p..]
  }

  function Start<A>(now: nat): Agenda<A> {
    Agenda(now, 0, [], [])
  }

  /** Scheduling in the past is refused. */
  function ScheduleAt<A>(s: Agenda<A>, time: int, action: A): Option<Agenda<A>> {
    if time < 0 || time < s.now then None
    else Some(s.(queue := Insert(s.queue, Event(time, s.nextOrder, action)), nextOrder := s.nextOrder + 1))
  }

  function ScheduleAfter<A>(s: Agenda<A>, delay: nat, action: A): Agenda<A> {
    s.(queue := Insert(s.queue, Event(s.now + delay, s.nextOrder, action)), nextOrder := s.nextOrder + 1)
  }

  function TakeNext<A>(s: Agenda<A>): Taken<A> {
    if s.queue == [] then Empty
    else if s.queue[0].time < s.now then Late(s.(queue := s.queue[1..]))
    else Due(s.queue[0], s.(now := s.queue[0].time, queue := s.queue[1..]))
  }

  /** From outside the clock may be moved forward, to a time that no pending event precedes. */
  predicate MayAdvance<A>(s: Agenda<A>, time: int) {
    s.now <= time && (s.queue == [] || time <= s.queue[0].time)
  }

  function Advance<A>(s: Agenda<A>, time: int): (r: Agenda<A>)
    ensures s.now <= r.now && r.queue == s.queue && r.nextOrder == s.nextOrder
  {
    if MayAdvance(s, time) then s.(now := time) else s
  }

  function Record<A>(s: Agenda<A>, e: Event<A>): Agenda<A> {
    s.(history := s.history + [Execution(e.time, e.order)])
  }

  lemma AdvanceValid<A>(s: Agenda<A>, time: int)
    requires Valid(s) && OnTime(s)
    ensures Valid(Advance(s, time)) && OnTime(Advance(s, time))
  {
    forall e | e in s.queue ensures s.queue[0] == e || Before(s.queue[0], e) {
      var i :| 0 <= i < |s.queue| && s.queue[i] == e;
    }
  }

  lemma InsertAdds<A>(q: seq<Event<A>>, e: Event<A>)
    ensures forall x :: x in Insert(q, e) <==> x == e || x in q
  {
    var p := Position(q, e);
    assert q == q[..p] + q[p..];
  }

  lemma InsertKeepsOrder<A>(q: seq<Event<A>>, e: Event<A>)
    requires Sorted(q)
    requires forall x :: x in q ==> x.order < e.order
    ensures Sorted(Insert(q, e))
  {
    var p := Position(q, e);
    var r := Insert(q, e);
    forall i, j | 0 <= i < j < |r| ensures Before(r[i], r[j]) {
      assert i < p ==> r[i] == q[i] && q[i] in q;
      assert j > p ==> r[j] == q[j - 1] && (p < j - 1 ==> Before(q[p], q[j - 1]));
      assert i > p ==> r[i] == q[i - 1];
    }
  }

  lemma ScheduleAfterValid<A>(s: Agenda<A>, delay: nat, action: A)
    requires Valid(s)
    ensures Valid(ScheduleAfter(s, delay, action))
    ensures OnTime(s) ==> OnTime(ScheduleAfter(s, delay, action))
    ensures var e := Event(s.now + delay, s.nextOrder, action);
            forall x :: x in ScheduleAfter(s, delay, action).queue <==> x == e || x in s.queue
  {
    var e := Event(s.now + delay, s.nextOrder, action);
    var r := ScheduleAfter(s, delay, action);
    InsertKeepsOrder(s.queue, e);
    InsertAdds(s.queue, e);
    assert r.queue == Insert(s.queue, e);
    forall x | x in r.queue ensures x.order < r.nextOrder && (OnTime(s) ==> s.now <= x.time) {
      assert x == e || x in s.queue;
    }
  }

  lemma ScheduleAtValid<A>(s: Agenda<A>, time: int, action: A)
    requires Valid(s)
    requires ScheduleAt(s, time, action).Some?
    ensures var r := ScheduleAt(s, time, action).value;
            && Valid(r) && (OnTime(s) ==> OnTime(r))
            && forall x :: x in r.queue <==> x == Event(time, s.nextOrder, action) || x in s.queue
  {
    InsertKeepsOrder(s.queue, Event(time, s.nextOrder, action));
    InsertAdds(s.queue, Event(time, s.nextOrder, action));
  }

  /** The event taken runs before everything left, and the clock stands at its time. */
  lemma TakeNextValid<A>(s: Agenda<A>)
    requires Valid(s) && OnTime(s) && s.queue != []
    ensures TakeNext(s).Due?
    ensures var Due(e, rest) := TakeNext(s);
            && Valid(rest) && OnTime(rest)
            && e in s.queue && e !in rest.queue
            && (forall x :: x in s.queue <==> x == e || x in rest.queue)
            && (forall x :: x in rest.queue ==> Before(e, x))
            && s.now <= e.time == rest.now
  {
    assert s.queue == [s.queue[0]] + s.queue[1..];
    assert forall i :: 1 <= i < |s.queue| ==> s.queue[i] == s.queue[1..][i - 1];
  }

  // ----- What the pending events amount to -----

  /** Everything the pending events stand for, in the order in which they will run. */
  ghost function Collect<A, B>(q: seq<Event<A>>, f: Event<A> -> seq<B>): seq<B> {
    if q == [] then [] else f(q[0]) + Collect(q[1..], f)
  }

  lemma {:induction false} CollectConcat<A, B>(q: seq<Event<A>>, r: seq<Event<A>>, f: Event<A> -> seq<B>)
    ensures Collect(q + r, f) == Collect(q, f) + Collect(r, f)
  {
    if q == [] {
      assert q + r == r;
    } else {
      assert (q + r)[0] == q[0] && (q + r)[1..] == q[1..] + r;
      CollectConcat(q[1..], r, f);
    }
  }

  lemma CollectOne<A, B>(e: Event<A>, f: Event<A> -> seq<B>)
    ensures Collect([e], f) == f(e)
  {
    assert [e][1..] == [];
    assert Collect([e], f) == f(e) + Collect([e][1..], f);
  }

  lemma CollectAround<A, B>(before: seq<Event<A>>, e: Event<A>, after: seq<Event<A>>, f: Event<A> -> seq<B>)
    ensures Collect(before + [e] + after, f) == Collect(before, f) + f(e) + Collect(after, f)
  {
    CollectConcat(before + [e], after, f);
    CollectConcat(before, [e], f);
    CollectOne(e, f);
  }

  lemma MiddleAdds<B>(x: seq<B>, y: seq<B>, z: seq<B>)
    ensures multiset(x + y + z) == multiset(x + z) + multiset(y)
    ensures y == [] ==> x + y + z == x + z
  {
  }

  /** A new event adds what it stands for, and leaves the rest in place. */
  lemma CollectInsert<A, B>(q: seq<Event<A>>, e: Event<A>, f: Event<A> -> seq<B>)
    ensures multiset(Collect(Insert(q, e), f)) == multiset(Collect(q, f)) + multiset(f(e))
    ensures f(e) == [] ==> Collect(Insert(q, e), f) == Collect(q, f)
  {
    var p := Position(q, e);
    CollectAround(q[..p], e, q[p..], f);
    assert Collect(q, f) == Collect(q[..p], f) + Collect(q[p..], f) by {
      CollectConcat(q[..p], q[p..], f);
      assert q == q[..p] + q[p..];
    }
    MiddleAdds(Collect(q[..p], f), f(e), Collect(q[p..], f));
  }

  /** Where a new event's part goes. */
  lemma CollectSplit<A, B>(q: seq<Event<A>>, e: Event<A>, f: Event<A> -> seq<B>) returns (x: seq<B>, y: seq<B>)
    ensures Collect(q, f) == x + y && Collect(Insert(q, e), f) == x + f(e) + y
  {
    var p := Position(q, e);
    x, y := Collect(q[..p], f), Collect(q[p..], f);
    CollectAround(q[..p], e, q[p..], f);
    assert Collect(q, f) == x + y by {
      CollectConcat(q[..p], q[p..], f);
      assert q == q[..p] + q[p..];
    }
  }
}
