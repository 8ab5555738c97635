/** The scheduler with its mutable clock, heap, counter and history. */
module SchedulerObject {
  import opened Wrappers
  import opened Scheduling

  class EventScheduler<A> {
    var clock: nat
    var queue: seq<Event<A>>
    var nextOrder: nat
    var history: seq<Execution>

    function Model(): Agenda<A>
      reads this
    {
      Agenda(clock, nextOrder, queue, history)
    }

    constructor (initialTime: nat)
      ensures Model() == Start(initialTime)
    {
      clock, queue, nextOrder, history := initialTime, [], 0, [];
    }

    /** Push onto the heap, which keeps the least (time, order) in front. */
    method Push(e: Event<A>)
      modifies this`queue
      ensures queue == Insert(old(queue), e)
    {
      var p := 0;
      while p < |queue| && !Before(e, queue[p])
        invariant p <= |queue|
        invariant Position(queue, e) == p + Position(queue[p..], e)
      {
        assert queue[p..][1..] == queue[p + 1..];
        p := p + 1;
      }
      queue := queue[..p] + [e] + queue[p..];
    }

    method ScheduleAt(time: int, action: A) returns (accepted: bool)
      modifies this
      ensures accepted <==> Scheduling.ScheduleAt(old(Model()), time, action).Some?
      ensures Model() == if accepted then Scheduling.ScheduleAt(old(Model()), time, action).value else old(Model())
    {
      if time < 0 || time < clock {
        return false;
      }
      Push(Event(time, nextOrder, action));
      nextOrder := nextOrder + 1;
      accepted := true;
    }

    method ScheduleAfter(delay: nat, action: A)
      modifies this
      ensures Model() == Scheduling.ScheduleAfter(old(Model()), delay, action)
    {
      var accepted := ScheduleAt(clock + delay, action);
    }

    /** The clock never moves backward. */
    method AdvanceTo(time: nat) returns (accepted: bool)
      modifies this`clock
      ensures accepted <==> old(clock) <= time
      ensures clock == if accepted then time else old(clock)
    {
      accepted := clock <= time;
      if accepted {
        clock := time;
      }
    }

    /** The first half of `run_next`: pop the least event and advance the clock to it. */
    method Take() returns (taken: Option<Event<A>>)
      requires queue != []
      modifies this
      ensures match TakeNext(old(Model()))
              case Empty => false
              case Late(rest) => taken == None && Model() == rest
              case Due(e, rest) => taken == Some(e) && Model() == rest
    {
      var e := queue[0];
      queue := queue[1..];
      var accepted := AdvanceTo(e.time);
      taken := if accepted then Some(e) else None;
    }

    /** The second half of `run_next`, after the callback has returned. */
    method Executed(e: Event<A>)
      modifies this`history
      ensures Model() == Record(old(Model()), e)
    {
      history := history + [Execution(e.time, e.order)];
    }
  }
}
