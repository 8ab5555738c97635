/**
 What holds of the pool at every event boundary, and the proof that every
 operation keeps it.

 `ord[k]` and `who[k]` name, for the k-th payment handed to a worker, the
 scheduling order of its completion event and the worker that has it.
 */
module WorkerPoolInvariant {
  import opened Wrappers
  import opened Scheduling
  import opened WorkerPools

  /** Payments wait, are assigned and complete in arrival order. */
  ghost predicate Fifo(s: Pool, a: nat) {
    && |s.completed| <= a <= |s.items|
    && |s.waiting| == |s.items| - a
    && |s.posted| == |s.completed|
    && (forall i :: 0 <= i < |s.waiting| ==> s.waiting[i] == a + i)
    && (forall i :: 0 <= i < |s.completed| ==> s.completed[i] == i && s.posted[i] == s.items[i].posting)
  }

  /** The timestamps on the table of items, when `a` are assigned and `c` completed. */
  ghost predicate Stamped(items: seq<Item>, a: nat, c: nat, period: nat, now: nat) {
    && c <= a <= |items|
    && (forall k :: 0 <= k < |items| ==> items[k].queuedAt <= now)
    && (forall k :: 0 <= k < |items| ==> (items[k].startedAt.Some? <==> k < a))
    && (forall k :: 0 <= k < |items| ==> (items[k].completedAt.Some? <==> k < c))
    && (forall k :: 0 <= k < a ==> items[k].queuedAt <= items[k].startedAt.value <= now)
    && (forall k :: 0 <= k < c ==> items[k].completedAt.value == items[k].startedAt.value + period <= now)
  }

  ghost predicate Monotone(items: seq<Item>) {
    && (forall j, k :: 0 <= j <= k < |items| ==> items[j].queuedAt <= items[k].queuedAt)
    && (forall j, k :: 0 <= j <= k < |items| && items[j].startedAt.Some? && items[k].startedAt.Some? ==>
                         items[j].startedAt.value <= items[k].startedAt.value)
  }

  /** The one-line recurrence: the k-th payment starts on arrival or when payment k - n is done. */
  ghost function Recurrence(items: seq<Item>, n: nat, period: nat, k: nat): nat
    requires k < |items|
  {
    if k < n || items[k - n].startedAt.None? then items[k].queuedAt
    else Max(items[k].queuedAt, items[k - n].startedAt.value + period)
  }

  ghost predicate Recurs(items: seq<Item>, n: nat, period: nat) {
    forall k :: 0 <= k < |items| && items[k].startedAt.Some? ==>
                  items[k].startedAt.value == Recurrence(items, n, period, k)
  }

  /** The completion event of payment `k`. */
  ghost function Completion(items: seq<Item>, period: nat, ord: seq<nat>, who: seq<nat>, k: nat): Event<Action>
    requires k < |ord| == |who| <= |items|
    requires items[k].startedAt.Some?
  {
    Event(items[k].startedAt.value + period, ord[k], Complete(who[k]))
  }

  /** Payments `c` up to `|ord|` are in service: each has its own worker and its own pending completion. */
  ghost predicate InService(queue: seq<Event<Action>>, workers: seq<Worker>, items: seq<Item>, period: nat,
                            c: nat, ord: seq<nat>, who: seq<nat>)
  {
    && |ord| == |who| <= |items|
    && (forall k :: 0 <= k < |ord| ==> items[k].startedAt.Some?)
    && (forall k :: c <= k < |ord| ==> who[k] < |workers| && workers[who[k]].current == Some(k))
    && (forall k :: c <= k < |ord| ==> Completion(items, period, ord, who, k) in queue)
    && (forall w :: 0 <= w < |workers| && workers[w].current.Some? ==>
                      c <= workers[w].current.value < |ord| && who[workers[w].current.value] == w)
  }

  ghost predicate OnlyTheirs(queue: seq<Event<Action>>, workers: seq<Worker>, items: seq<Item>, period: nat,
                             ord: seq<nat>, who: seq<nat>)
  {
    && |ord| == |who| <= |items|
    && (forall k :: 0 <= k < |ord| ==> items[k].startedAt.Some?)
    && (forall e :: e in queue && e.action.Complete? ==>
                      && e.action.worker < |workers|
                      && workers[e.action.worker].current.Some?
                      && workers[e.action.worker].current.value < |ord|
                      && e == Completion(items, period, ord, who, workers[e.action.worker].current.value))
  }

  ghost predicate Ascending(ord: seq<nat>) {
    forall j, k :: 0 <= j < k < |ord| ==> ord[j] < ord[k]
  }

  ghost predicate Core(s: Pool, ord: seq<nat>, who: seq<nat>) {
    && WellFormed(s)
    && Valid(s.agenda) && OnTime(s.agenda)
    && Fifo(s, |ord|)
    && Stamped(s.items, |ord|, |s.completed|, s.period, s.agenda.now)
    && Monotone(s.items)
    && Recurs(s.items, |s.workers|, s.period)
    && InService(s.agenda.queue, s.workers, s.items, s.period, |s.completed|, ord, who)
    && OnlyTheirs(s.agenda.queue, s.workers, s.items, s.period, ord, who)
    && Ascending(ord)
    && (forall k :: 0 <= k < |ord| ==> ord[k] < s.agenda.nextOrder)
  }

  ghost predicate AllBusy(s: Pool) {
    forall w :: 0 <= w < |s.workers| ==> Busy(s, w)
  }

  ghost predicate Inv(s: Pool, ord: seq<nat>, who: seq<nat>) {
    && |s.workers| > 0
    && Core(s, ord, who)
    && (s.waiting != [] ==> AllBusy(s))
  }

  // ----- How many are in service -----

  ghost function Below(n: nat): (r: set<nat>)
    ensures |r| == n
    ensures forall x: nat :: x in r <==> x < n
  {
    if n == 0 then {} else Below(n - 1) + {n - 1}
  }

  ghost function Elements(xs: seq<nat>): (r: set<nat>)
    ensures forall x :: x in r <==> x in xs
  {
    if xs == [] then {} else {xs[0]} + Elements(xs[1..])
  }

  lemma {:induction false} DistinctCount(xs: seq<nat>)
    requires forall i, j :: 0 <= i < j < |xs| ==> xs[i] != xs[j]
    ensures |Elements(xs)| == |xs|
  {
    if xs != [] {
      DistinctCount(xs[1..]);
      assert xs[0] !in xs[1..];
    }
  }

  lemma SubsetSize(small: set<nat>, big: set<nat>)
    requires small <= big
    ensures |small| <= |big|
    ensures |small| == |big| ==> small == big
  {
    assert big == small + (big - small);
    assert |big| == |small| + |big - small|;
  }

  /** Distinct numbers below `n`: at most `n` of them, and exactly `n` when none is missing. */
  lemma Pigeonhole(xs: seq<nat>, n: nat)
    requires forall i :: 0 <= i < |xs| ==> xs[i] < n
    requires forall i, j :: 0 <= i < j < |xs| ==> xs[i] != xs[j]
    ensures |xs| <= n
    ensures (forall w: nat :: w < n ==> w in xs) <==> |xs| == n
  {
    DistinctCount(xs);
    SubsetSize(Elements(xs), Below(n));
    if forall w: nat :: w < n ==> w in xs {
      assert Elements(xs) == Below(n);
    }
    if |xs| == n {
      forall w: nat | w < n ensures w in xs { assert w in Below(n); }
    }
  }

  /** No more are in service than there are workers, and every worker is busy exactly when as many are. */
  lemma ServiceCount(s: Pool, ord: seq<nat>, who: seq<nat>)
    requires Core(s, ord, who)
    ensures |ord| - |s.completed| <= |s.workers|
    ensures AllBusy(s) <==> |ord| - |s.completed| == |s.workers|
  {
    BusyAreServing(s, ord, who);
    Pigeonhole(who[|s.completed|..], |s.workers|);
  }

  /** The busy workers are those serving, each named once. */
  lemma BusyAreServing(s: Pool, ord: seq<nat>, who: seq<nat>)
    requires Core(s, ord, who)
    ensures var xs := who[|s.completed|..];
            && |xs| == |ord| - |s.completed|
            && (forall i :: 0 <= i < |xs| ==> xs[i] < |s.workers|)
            && (forall i, j :: 0 <= i < j < |xs| ==> xs[i] != xs[j])
            && forall w: nat :: w < |s.workers| ==> (w in xs <==> Busy(s, w))
  {
    var c := |s.completed|;
    var xs := who[c..];
    assert forall i :: 0 <= i < |xs| ==> xs[i] == who[c + i] && s.workers[xs[i]].current == Some(c + i);
    forall w: nat | w < |s.workers| ensures w in xs <==> Busy(s, w) {
      if Busy(s, w) {
        assert xs[s.workers[w].current.value - c] == w;
      }
    }
  }

  // ----- Handing a payment to a worker -----

  ghost function StartItem(items: seq<Item>, a: nat, now: nat): seq<Item>
    requires a < |items|
  {
    items[a := items[a].(startedAt := Some(now))]
  }

  lemma StartItemStamped(items: seq<Item>, a: nat, c: nat, period: nat, now: nat)
    requires a < |items| && Stamped(items, a, c, period, now) && Monotone(items)
    ensures Stamped(StartItem(items, a, now), a + 1, c, period, now)
    ensures Monotone(StartItem(items, a, now))
  {
  }

  lemma StartItemRecurs(items: seq<Item>, a: nat, c: nat, n: nat, period: nat, now: nat)
    requires a < |items| && Stamped(items, a, c, period, now) && Recurs(items, n, period)
    requires now == Recurrence(items, n, period, a)
    requires n > 0
    ensures Recurs(StartItem(items, a, now), n, period)
  {
    var items' := StartItem(items, a, now);
    forall k | 0 <= k < |items'| && items'[k].startedAt.Some?
      ensures items'[k].startedAt.value == Recurrence(items', n, period, k)
    {
      assert k <= a;
      assert k < a ==> items[k].startedAt.value == Recurrence(items, n, period, k);
    }
  }

  ghost predicate Adds(queue: seq<Event<Action>>, e: Event<Action>, queue': seq<Event<Action>>) {
    forall x :: x in queue' <==> x == e || x in queue
  }

  lemma StartInService(queue: seq<Event<Action>>, workers: seq<Worker>, items: seq<Item>, period: nat, c: nat,
                       ord: seq<nat>, who: seq<nat>, w: nat, e: Event<Action>, now: nat, queue': seq<Event<Action>>)
    requires InService(queue, workers, items, period, c, ord, who)
    requires w < |workers| && workers[w].current.None? && c <= |ord| < |items|
    requires e.time == now + period && e.action == Complete(w) && Adds(queue, e, queue')
    ensures InService(queue', workers[w := workers[w].(current := Some(|ord|))], StartItem(items, |ord|, now), period, c,
                      ord + [e.order], who + [w])
  {
    var items', ord', who' := StartItem(items, |ord|, now), ord + [e.order], who + [w];
    assert Completion(items', period, ord', who', |ord|) == e;
    forall k | c <= k < |ord| ensures Completion(items', period, ord', who', k) in queue' {
      assert Completion(items', period, ord', who', k) == Completion(items, period, ord, who, k);
    }
  }

  lemma StartOnlyTheirs(queue: seq<Event<Action>>, workers: seq<Worker>, items: seq<Item>, period: nat,
                        ord: seq<nat>, who: seq<nat>, w: nat, e: Event<Action>, now: nat, queue': seq<Event<Action>>)
    requires OnlyTheirs(queue, workers, items, period, ord, who)
    requires w < |workers| && workers[w].current.None? && |ord| < |items|
    requires e.time == now + period && e.action == Complete(w) && Adds(queue, e, queue')
    ensures OnlyTheirs(queue', workers[w := workers[w].(current := Some(|ord|))], StartItem(items, |ord|, now), period,
                       ord + [e.order], who + [w])
  {
    var items', ord', who' := StartItem(items, |ord|, now), ord + [e.order], who + [w];
    assert Completion(items', period, ord', who', |ord|) == e;
    forall k | 0 <= k < |ord|
      ensures Completion(items', period, ord', who', k) == Completion(items, period, ord, who, k)
    {
    }
  }

  lemma AssignService(s: Pool, w: nat, ord: seq<nat>, who: seq<nat>)
    requires Core(s, ord, who) && s.waiting != [] && w < |s.workers| && !Busy(s, w)
    ensures var s', ord', who' := Assign(s, w), ord + [s.agenda.nextOrder], who + [w];
            && InService(s'.agenda.queue, s'.workers, s'.items, s.period, |s.completed|, ord', who')
            && OnlyTheirs(s'.agenda.queue, s'.workers, s'.items, s.period, ord', who')
  {
    var s', now, e := Assign(s, w), s.agenda.now, Event(s.agenda.now + s.period, s.agenda.nextOrder, Complete(w));
    ScheduleAfterValid(s.agenda, s.period, Complete(w));
    assert s.waiting[0] == |ord|;
    StartInService(s.agenda.queue, s.workers, s.items, s.period, |s.completed|, ord, who, w, e, now, s'.agenda.queue);
    StartOnlyTheirs(s.agenda.queue, s.workers, s.items, s.period, ord, who, w, e, now, s'.agenda.queue);
  }

  lemma AssignCore(s: Pool, w: nat, ord: seq<nat>, who: seq<nat>)
    requires |s.workers| > 0
    requires Core(s, ord, who) && s.waiting != [] && w < |s.workers| && !Busy(s, w)
    requires s.agenda.now == Recurrence(s.items, |s.workers|, s.period, |ord|)
    ensures Core(Assign(s, w), ord + [s.agenda.nextOrder], who + [w])
  {
    var s' := Assign(s, w);
    assert s'.items == StartItem(s.items, |ord|, s.agenda.now);
    ScheduleAfterValid(s.agenda, s.period, Complete(w));
    StartItemStamped(s.items, |ord|, |s.completed|, s.period, s.agenda.now);
    StartItemRecurs(s.items, |ord|, |s.completed|, |s.workers|, s.period, s.agenda.now);
    AssignService(s, w, ord, who);
  }

  // ----- Dispatching -----

  lemma {:induction false} DispatchNobodyIdle(s: Pool, w: nat)
    requires WellFormed(s) && w <= |s.workers|
    requires forall v :: w <= v < |s.workers| ==> Busy(s, v)
    ensures Dispatch(s, w) == s
    decreases |s.workers| - w
  {
    if w < |s.workers| && s.waiting != [] {
      DispatchNobodyIdle(s, w + 1);
    }
  }

  /** When one payment waits, or one worker is idle, dispatching is one assignment to the lowest idle worker. */
  lemma {:induction false} DispatchOne(s: Pool, w: nat, idle: nat)
    requires WellFormed(s) && s.waiting != [] && w <= idle < |s.workers|
    requires !Busy(s, idle) && forall v :: w <= v < idle ==> Busy(s, v)
    requires |s.waiting| == 1 || forall v :: idle < v < |s.workers| ==> Busy(s, v)
    ensures Dispatch(s, w) == Assign(s, idle)
    decreases idle - w
  {
    if w < idle {
      DispatchOne(s, w + 1, idle);
    } else if |s.waiting| != 1 {
      var s' := Assign(s, idle);
      assert forall v :: idle < v < |s.workers| ==> s'.workers[v] == s.workers[v] && Busy(s, v);
      DispatchNobodyIdle(s', idle + 1);
    }
  }

  /** The lowest idle worker from `w` on. */
  lemma {:induction false} LowestIdle(s: Pool, w: nat) returns (idle: nat)
    requires WellFormed(s) && w <= |s.workers|
    requires exists v :: w <= v < |s.workers| && !Busy(s, v)
    ensures w <= idle < |s.workers| && !Busy(s, idle)
    ensures forall v :: w <= v < idle ==> Busy(s, v)
    decreases |s.workers| - w
  {
    if Busy(s, w) {
      idle := LowestIdle(s, w + 1);
    } else {
      idle := w;
    }
  }

  // ----- Arrivals -----

  lemma JoinItems(items: seq<Item>, x: Item, a: nat, c: nat, n: nat, period: nat, now: nat)
    requires Stamped(items, a, c, period, now) && Monotone(items) && Recurs(items, n, period)
    requires x.startedAt.None? && x.completedAt.None? && x.queuedAt == now
    ensures Stamped(items + [x], a, c, period, now) && Monotone(items + [x]) && Recurs(items + [x], n, period)
  {
    var items' := items + [x];
    forall k | 0 <= k < |items'| && items'[k].startedAt.Some?
      ensures items'[k].startedAt.value == Recurrence(items', n, period, k)
    {
      assert items'[k] == items[k];
      assert k >= n ==> items'[k - n] == items[k - n];
    }
  }

  lemma JoinCore(s: Pool, p: Posting, ord: seq<nat>, who: seq<nat>)
    requires |s.workers| > 0 && Core(s, ord, who)
    ensures Core(Join(s, p), ord, who)
  {
    var s' := Join(s, p);
    var x := s'.items[|s.items|];
    assert s'.items == s.items + [x];
    JoinItems(s.items, x, |ord|, |s.completed|, |s.workers|, s.period, s.agenda.now);
    JoinService(s, p, ord, who);
  }

  lemma JoinService(s: Pool, p: Posting, ord: seq<nat>, who: seq<nat>)
    requires Core(s, ord, who)
    ensures var s' := Join(s, p);
            && InService(s'.agenda.queue, s'.workers, s'.items, s.period, |s.completed|, ord, who)
            && OnlyTheirs(s'.agenda.queue, s'.workers, s'.items, s.period, ord, who)
  {
    var s' := Join(s, p);
    forall k | 0 <= k < |ord|
      ensures s'.items[k] == s.items[k]
      ensures Completion(s'.items, s.period, ord, who, k) == Completion(s.items, s.period, ord, who, k)
    {
    }
  }

  lemma JoinBusy(s: Pool, p: Posting)
    requires WellFormed(s)
    ensures AllBusy(Join(s, p)) <==> AllBusy(s)
  {
    assert forall w :: 0 <= w < |s.workers| ==> Busy(s, w) == Busy(Join(s, p), w);
  }

  /** Joining never leaves a payment waiting beside an idle worker. */
  lemma EnqueueKeepsInv(s: Pool, p: Posting, ord: seq<nat>, who: seq<nat>) returns (ord': seq<nat>, who': seq<nat>)
    requires Inv(s, ord, who)
    ensures Inv(Enqueue(s, p), ord', who')
  {
    var s1 := Join(s, p);
    JoinCore(s, p, ord, who);
    JoinBusy(s, p);
    if AllBusy(s1) {
      DispatchNobodyIdle(s1, 0);
      ord', who' := ord, who;
    } else {
      assert s.waiting == [] && |s1.waiting| == 1;
      var idle := LowestIdle(s1, 0);
      DispatchOne(s1, 0, idle);
      ServiceCount(s1, ord, who);
      JoinStartsNow(s, p, ord, who);
      AssignCore(s1, idle, ord, who);
      ord', who' := ord + [s1.agenda.nextOrder], who + [idle];
    }
  }

  lemma JoinStartsNow(s: Pool, p: Posting, ord: seq<nat>, who: seq<nat>)
    requires WellFormed(s) && Core(Join(s, p), ord, who) && |Join(s, p).waiting| == 1
    requires |ord| - |s.completed| < |s.workers|
    ensures var s1 := Join(s, p); s1.agenda.now == Recurrence(s1.items, |s1.workers|, s1.period, |ord|)
  {
    var s1 := Join(s, p);
    var a, n := |ord|, |s1.workers|;
    assert s1.items[a].queuedAt == s1.agenda.now;
    if n <= a {
      assert s1.items[a - n].completedAt.value == s1.items[a - n].startedAt.value + s1.period <= s1.agenda.now;
    }
  }

  // ----- Completions -----

  lemma HeadRunsFirst(q: seq<Event<Action>>, f: Event<Action>)
    requires Sorted(q) && f in q
    ensures f == q[0] || Before(q[0], f)
  {
  }

  /** The next completion is that of the oldest payment in service. */
  lemma NextCompletionIsOldest(s: Pool, ord: seq<nat>, who: seq<nat>)
    requires Core(s, ord, who)
    requires s.agenda.queue != [] && s.agenda.queue[0].action.Complete?
    ensures var e, c := s.agenda.queue[0], |s.completed|;
            && e.action.worker < |s.workers| && s.workers[e.action.worker].current == Some(c)
            && c < |ord| && e == Completion(s.items, s.period, ord, who, c)
  {
    var e, c := s.agenda.queue[0], |s.completed|;
    assert e in s.agenda.queue;
    var k := s.workers[e.action.worker].current.value;
    if k != c {
      var f := Completion(s.items, s.period, ord, who, c);
      HeadRunsFirst(s.agenda.queue, f);
    }
  }

  ghost function FinishItem(items: seq<Item>, c: nat, now: nat): seq<Item>
    requires c < |items|
  {
    items[c := items[c].(completedAt := Some(now))]
  }

  lemma FinishItemKeeps(items: seq<Item>, a: nat, c: nat, n: nat, period: nat, before: nat, now: nat)
    requires c < a && Stamped(items, a, c, period, before) && Monotone(items) && Recurs(items, n, period)
    requires before <= now == items[c].startedAt.value + period
    ensures Stamped(FinishItem(items, c, now), a, c + 1, period, now)
    ensures Monotone(FinishItem(items, c, now))
    ensures Recurs(FinishItem(items, c, now), n, period)
  {
    FinishItemRecurs(items, c, n, period, now);
  }

  lemma FinishItemRecurs(items: seq<Item>, c: nat, n: nat, period: nat, now: nat)
    requires c < |items| && Recurs(items, n, period)
    ensures Recurs(FinishItem(items, c, now), n, period)
  {
    var items' := FinishItem(items, c, now);
    forall k | 0 <= k < |items'| && items'[k].startedAt.Some?
      ensures items'[k].startedAt.value == Recurrence(items', n, period, k)
    {
      assert items[k].startedAt.value == Recurrence(items, n, period, k);
    }
  }

  lemma FinishService(queue: seq<Event<Action>>, workers: seq<Worker>, items: seq<Item>, period: nat, c: nat,
                      ord: seq<nat>, who: seq<nat>, w: nat, idle: Worker, now: nat, queue': seq<Event<Action>>)
    requires InService(queue, workers, items, period, c, ord, who) && OnlyTheirs(queue, workers, items, period, ord, who)
    requires w < |workers| && workers[w].current == Some(c) && idle.current.None? && c < |ord| && Ascending(ord)
    requires Adds(queue', Completion(items, period, ord, who, c), queue) && Completion(items, period, ord, who, c) !in queue'
    ensures InService(queue', workers[w := idle], FinishItem(items, c, now), period, c + 1, ord, who)
    ensures OnlyTheirs(queue', workers[w := idle], FinishItem(items, c, now), period, ord, who)
  {
    var items' := FinishItem(items, c, now);
    forall k | 0 <= k < |ord|
      ensures Completion(items', period, ord, who, k) == Completion(items, period, ord, who, k)
      ensures k != c ==> Completion(items, period, ord, who, k) != Completion(items, period, ord, who, c)
    {
    }
  }

  lemma ReleaseCore(s: Pool, ord: seq<nat>, who: seq<nat>)
    requires Core(s, ord, who)
    requires TakeNext(s.agenda).Due? && TakeNext(s.agenda).event.action.Complete?
    ensures var Due(e, rest) := TakeNext(s.agenda);
            var s1 := s.(agenda := rest);
            && e.action.worker < |s1.workers| && Busy(s1, e.action.worker)
            && var s2 := Release(s1, e.action.worker);
            && Core(s2, ord, who)
            && |s.completed| < |ord|
            && s2.agenda.now == s2.items[|s.completed|].startedAt.value + s2.period
  {
    var Due(e, rest) := TakeNext(s.agenda);
    var c, w := |s.completed|, e.action.worker;
    NextCompletionIsOldest(s, ord, who);
    TakeNextValid(s.agenda);
    var s2 := Release(s.(agenda := rest), w);
    FinishItemKeeps(s.items, |ord|, c, |s.workers|, s.period, s.agenda.now, rest.now);
    FinishService(s.agenda.queue, s.workers, s.items, s.period, c, ord, who, w, s2.workers[w], rest.now, rest.queue);
    assert s2.items == FinishItem(s.items, c, rest.now);
    ReleaseFifo(s, rest, w, |ord|);
  }

  lemma ReleaseFifo(s: Pool, rest: Agenda<Action>, w: nat, a: nat)
    requires WellFormed(s) && Fifo(s, a) && w < |s.workers| && s.workers[w].current == Some(|s.completed|)
    requires |s.completed| < a
    ensures Fifo(Release(s.(agenda := rest), w), a)
  {
  }

  lemma RecordedKeepsInv(s: Pool, e: Event<Action>, ord: seq<nat>, who: seq<nat>)
    requires Inv(s, ord, who)
    ensures Inv(Recorded(s, e), ord, who)
  {
    assert forall w :: 0 <= w < |s.workers| ==> Busy(s, w) == Busy(Recorded(s, e), w);
  }

  /** A freed worker picks the oldest waiting payment exactly when the recurrence says. */
  lemma FreedStartsNow(s: Pool, ord: seq<nat>, who: seq<nat>)
    requires Core(s, ord, who) && s.waiting != [] && |s.completed| > 0
    requires |ord| - |s.workers| == |s.completed| - 1
    requires s.agenda.now == s.items[|s.completed| - 1].startedAt.value + s.period
    ensures s.agenda.now == Recurrence(s.items, |s.workers|, s.period, |ord|)
  {
  }

  lemma AssignLastIdle(s: Pool, w: nat)
    requires WellFormed(s) && s.waiting != [] && w < |s.workers|
    requires forall v :: 0 <= v < |s.workers| && v != w ==> Busy(s, v)
    ensures AllBusy(Assign(s, w)) && |Assign(s, w).workers| == |s.workers|
  {
    var s' := Assign(s, w);
    assert forall v :: 0 <= v < |s'.workers| && v != w ==> s'.workers[v] == s.workers[v] && Busy(s, v);
  }

  /** Worker `w` alone is idle because it has just finished the oldest payment in service. */
  ghost predicate Freed(s: Pool, w: nat, ord: seq<nat>, who: seq<nat>) {
    && Core(s, ord, who)
    && w < |s.workers| && !Busy(s, w)
    && |s.completed| > 0
    && s.agenda.now == s.items[|s.completed| - 1].startedAt.value + s.period
    && (s.waiting != [] ==>
          && |ord| - |s.workers| == |s.completed| - 1
          && forall v :: 0 <= v < |s.workers| && v != w ==> Busy(s, v))
  }

  lemma RefillKeepsInv(s: Pool, w: nat, ord: seq<nat>, who: seq<nat>)
    requires Freed(s, w, ord, who) && s.waiting != []
    ensures Inv(Dispatch(s, 0), ord + [s.agenda.nextOrder], who + [w])
  {
    assert Dispatch(s, 0) == Assign(s, w) by { DispatchOne(s, 0, w); }
    FreedStartsNow(s, ord, who);
    AssignLastIdle(s, w);
    AssignCore(s, w, ord, who);
  }

  lemma ReleaseFrees(s: Pool, ord: seq<nat>, who: seq<nat>)
    requires Inv(s, ord, who)
    requires TakeNext(s.agenda).Due? && TakeNext(s.agenda).event.action.Complete?
    ensures var Due(e, rest) := TakeNext(s.agenda);
            var s1 := s.(agenda := rest);
            && e.action.worker < |s1.workers| && Busy(s1, e.action.worker)
            && Freed(Release(s1, e.action.worker), e.action.worker, ord, who)
  {
    var Due(e, rest) := TakeNext(s.agenda);
    ReleaseCore(s, ord, who);
    var s2 := Release(s.(agenda := rest), e.action.worker);
    ServiceCount(s, ord, who);
    if s2.waiting != [] {
      assert forall v :: 0 <= v < |s2.workers| && v != e.action.worker ==> s2.workers[v] == s.workers[v] && Busy(s, v);
    }
  }

  /** After a completion at most one payment starts, and it starts at that very instant. */
  lemma CompletionStepIs(s: Pool)
    requires WellFormed(s) && TakeNext(s.agenda).Due? && TakeNext(s.agenda).event.action.Complete?
    requires TakeNext(s.agenda).event.action.worker < |s.workers| && Busy(s, TakeNext(s.agenda).event.action.worker)
    ensures var Due(e, rest) := TakeNext(s.agenda);
            Step(s) == Recorded(Dispatch(Release(s.(agenda := rest), e.action.worker), 0), e)
  {
  }

  lemma CompletionKeepsInv(s: Pool, ord: seq<nat>, who: seq<nat>) returns (ord': seq<nat>, who': seq<nat>)
    requires Inv(s, ord, who)
    requires TakeNext(s.agenda).Due? && TakeNext(s.agenda).event.action.Complete?
    ensures Inv(Step(s), ord', who')
  {
    var Due(e, rest) := TakeNext(s.agenda);
    var w := e.action.worker;
    ReleaseFrees(s, ord, who);
    CompletionStepIs(s);
    var s2 := Release(s.(agenda := rest), w);
    ord', who' := DispatchAfterRelease(s2, w, e, ord, who);
  }

  lemma DispatchAfterRelease(s: Pool, w: nat, e: Event<Action>, ord: seq<nat>, who: seq<nat>)
    returns (ord': seq<nat>, who': seq<nat>)
    requires Freed(s, w, ord, who)
    ensures Inv(Recorded(Dispatch(s, 0), e), ord', who')
  {
    if s.waiting == [] {
      ord', who' := ord, who;
    } else {
      RefillKeepsInv(s, w, ord, who);
      ord', who' := ord + [s.agenda.nextOrder], who + [w];
    }
    RecordedKeepsInv(Dispatch(s, 0), e, ord', who');
  }

  // ----- Every operation -----

  lemma CreateInv(n: nat, period: nat, now: nat)
    requires n > 0
    ensures Inv(Create(n, period, Start(now)), [], [])
  {
  }

  /** Taking an arrival off the agenda leaves the pool as it was, only later. */
  lemma ArrivalTaken(s: Pool, ord: seq<nat>, who: seq<nat>)
    requires Inv(s, ord, who)
    requires TakeNext(s.agenda).Due? && TakeNext(s.agenda).event.action.Arrive?
    ensures Inv(s.(agenda := TakeNext(s.agenda).rest), ord, who)
  {
    var Due(e, rest) := TakeNext(s.agenda);
    TakeNextValid(s.agenda);
    var s1 := s.(agenda := rest);
    assert forall w :: 0 <= w < |s.workers| ==> Busy(s, w) == Busy(s1, w);
    assert forall k :: |s.completed| <= k < |ord| ==> Completion(s.items, s.period, ord, who, k) in s1.agenda.queue;
  }

  lemma ArrivalStepIs(s: Pool)
    requires WellFormed(s) && TakeNext(s.agenda).Due? && TakeNext(s.agenda).event.action.Arrive?
    ensures var Due(e, rest) := TakeNext(s.agenda);
            Step(s) == Recorded(Enqueue(s.(agenda := rest), e.action.posting), e)
  {
  }

  lemma ArrivalKeepsInv(s: Pool, ord: seq<nat>, who: seq<nat>) returns (ord': seq<nat>, who': seq<nat>)
    requires Inv(s, ord, who)
    requires TakeNext(s.agenda).Due? && TakeNext(s.agenda).event.action.Arrive?
    ensures Inv(Step(s), ord', who')
  {
    var Due(e, rest) := TakeNext(s.agenda);
    var s1 := s.(agenda := rest);
    ArrivalTaken(s, ord, who);
    ArrivalStepIs(s);
    ord', who' := EnqueueKeepsInv(s1, e.action.posting, ord, who);
    RecordedKeepsInv(Enqueue(s1, e.action.posting), e, ord', who');
  }

  lemma StepKeepsInv(s: Pool, ord: seq<nat>, who: seq<nat>) returns (ord': seq<nat>, who': seq<nat>)
    requires Inv(s, ord, who)
    ensures Inv(Step(s), ord', who')
  {
    if s.agenda.queue == [] {
      ord', who' := ord, who;
    } else {
      TakeNextValid(s.agenda);
      if TakeNext(s.agenda).event.action.Arrive? {
        ord', who' := ArrivalKeepsInv(s, ord, who);
      } else {
        ord', who' := CompletionKeepsInv(s, ord, who);
      }
    }
  }

  lemma ScheduleKeepsInv(s: Pool, t: int, p: Posting, ord: seq<nat>, who: seq<nat>)
    requires Inv(s, ord, who)
    ensures Inv(Do(s, ScheduleArrival(t, p)), ord, who)
  {
    var a := ScheduleAt(s.agenda, t, Arrive(p));
    if a.Some? {
      ScheduleAtValid(s.agenda, t, Arrive(p));
      var s' := s.(agenda := a.value);
      assert forall w :: 0 <= w < |s.workers| ==> Busy(s, w) == Busy(s', w);
      assert forall k :: |s.completed| <= k < |ord| ==> Completion(s.items, s.period, ord, who, k) in s'.agenda.queue;
    }
  }

  lemma AdvanceKeepsInv(s: Pool, time: int, ord: seq<nat>, who: seq<nat>)
    requires Inv(s, ord, who)
    ensures Inv(Do(s, AdvanceClock(time)), ord, who)
  {
    AdvanceValid(s.agenda, time);
    var s' := Do(s, AdvanceClock(time));
    assert forall w :: 0 <= w < |s.workers| ==> Busy(s, w) == Busy(s', w);
  }

  lemma DoKeepsInv(s: Pool, op: Op, ord: seq<nat>, who: seq<nat>) returns (ord': seq<nat>, who': seq<nat>)
    requires Inv(s, ord, who)
    ensures Inv(Do(s, op), ord', who')
  {
    ord', who' := ord, who;
    match op
    case ScheduleArrival(t, p) => ScheduleKeepsInv(s, t, p, ord, who);
    case EnqueueNow(p) => ord', who' := EnqueueKeepsInv(s, p, ord, who);
    case AdvanceClock(t) => AdvanceKeepsInv(s, t, ord, who);
    case RunNext => ord', who' := StepKeepsInv(s, ord, who);
  }

  lemma {:induction false} ExecKeepsInv(s: Pool, ops: seq<Op>, ord: seq<nat>, who: seq<nat>)
    returns (ord': seq<nat>, who': seq<nat>)
    requires Inv(s, ord, who)
    ensures Inv(Exec(s, ops), ord', who')
    decreases |ops|
  {
    if ops == [] {
      ord', who' := ord, who;
    } else {
      ord', who' := ExecKeepsInv(s, ops[..|ops| - 1], ord, who);
      ord', who' := DoKeepsInv(Exec(s, ops[..|ops| - 1]), ops[|ops| - 1], ord', who');
    }
  }

  lemma {:induction false} DispatchKeepsSize(s: Pool, w: nat)
    requires WellFormed(s) && w <= |s.workers|
    ensures |Dispatch(s, w).workers| == |s.workers| && Dispatch(s, w).period == s.period
    decreases |s.workers| - w
  {
    if w < |s.workers| && s.waiting != [] {
      DispatchKeepsSize(if Busy(s, w) then s else Assign(s, w), w + 1);
    }
  }

  lemma DoKeepsSize(s: Pool, op: Op)
    requires WellFormed(s)
    ensures |Do(s, op).workers| == |s.workers| && Do(s, op).period == s.period
  {
    match op
    case ScheduleArrival(_, _) =>
    case EnqueueNow(p) => DispatchKeepsSize(Join(s, p), 0);
    case AdvanceClock(_) =>
    case RunNext =>
      match TakeNext(s.agenda) {
        case Due(e, rest) =>
          var s1 := s.(agenda := rest);
          match e.action {
            case Arrive(p) => DispatchKeepsSize(Join(s1, p), 0);
            case Complete(w) => if w < |s1.workers| && Busy(s1, w) { DispatchKeepsSize(Release(s1, w), 0); }
          }
        case _ =>
      }
  }

  lemma {:induction false} ExecKeepsSize(s: Pool, ops: seq<Op>)
    requires WellFormed(s)
    ensures |Exec(s, ops).workers| == |s.workers| && Exec(s, ops).period == s.period
    decreases |ops|
  {
    if ops != [] {
      ExecKeepsSize(s, ops[..|ops| - 1]);
      DoKeepsSize(Exec(s, ops[..|ops| - 1]), ops[|ops| - 1]);
    }
  }
}
