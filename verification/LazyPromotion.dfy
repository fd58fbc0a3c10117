/**
 The order in which the FIFO task pool hands out its tasks.

 The pool keeps deadlines in a heap and moves a task whose deadline has passed to the front of the queue only when
 someone holds the lock anyway: before a dequeue and before an explicit cancellation (the lazy pool). The design
 claims that this is the order of a pool with one timer per task, which moves a task to the front at the very
 instant its deadline passes (the eager pool). Both pools are defined here, and the claim is `LazyIsEager`.
 */
module LazyPromotion {
  import opened Collections
  import opened Options

  /** The waiting tasks in order, the deadlines that are still being watched, the tasks already moved to the front. */
  datatype Pool<T> = Pool(queue: seq<T>, armed: map<T, int>, expedited: set<T>)

  ghost predicate ValidPool<T>(p: Pool<T>) {
    && NoDuplicates(p.queue)
    && (forall t | t in p.armed :: t in p.queue && t !in p.expedited)
    && (forall t | t in p.expedited :: t in p.queue)
  }

  function Without<T(==)>(s: seq<T>, t: T): (r: seq<T>)
  {
    if s == [] then [] else if s[0] == t then s[1..] else [s[0]] + Without(s[1..], t)
  }

  function Append<T(==)>(p: Pool<T>, t: T, deadline: Option<int>): (r: Pool<T>)
  {
    Pool(p.queue + [t], if deadline.Some? then p.armed[t := deadline.value] else p.armed, p.expedited)
  }

  /** Moves a waiting task to the front, once. */
  function Requeue<T(==)>(p: Pool<T>, t: T): (r: Pool<T>)
  {
    if t in p.queue && t !in p.expedited then
      Pool([t] + Without(p.queue, t), p.armed - {t}, p.expedited + {t})
    else p
  }

  function RequeueAll<T(==)>(p: Pool<T>, order: seq<T>): (r: Pool<T>)
    decreases |order|
  {
    if order == [] then p else RequeueAll(Requeue(p, order[0]), order[1..])
  }

  function DropHead<T(==)>(p: Pool<T>): (r: Pool<T>)
    requires p.queue != []
  {
    Pool(p.queue[1..], p.armed - {p.queue[0]}, p.expedited - {p.queue[0]})
  }

  datatype Event<T> =
    | Add(task: T, deadline: Option<int>)
    | Cancel(task: T)
    | Dequeue

  datatype Timed<T> = Timed(now: int, event: Event<T>)

  // ---------------------------------------------------------------- the lazy pool

  /** The expired tasks in the order a deadline heap yields them. */
  ghost predicate FiringOrder<T>(p: Pool<T>, now: int, order: seq<T>) {
    && NoDuplicates(order)
    && (forall t | t in order :: t in p.armed && p.armed[t] <= now)
    && (forall t | t in p.armed && p.armed[t] <= now :: t in order)
    && (forall i, j | 0 <= i < j < |order| :: p.armed[order[i]] <= p.armed[order[j]])
  }

  /** One lock section of the pool: p before, r after, out the task handed to the executor. */
  ghost predicate LazyStep<T>(p: Pool<T>, e: Timed<T>, order: seq<T>, r: Pool<T>, out: Option<T>) {
    match e.event
    case Add(t, d) =>
      && out == None && order == []
      && r == if d.Some? && d.value <= e.now then p else Append(p, t, d)
    case Cancel(t) =>
      && out == None
      && ((FiringOrder(p, e.now, order) && r == Requeue(RequeueAll(p, order), t))
          || (t !in p.queue && order == [] && r == p))  // the task object is already gone
    case Dequeue =>
      if p.queue == [] then out == None && order == [] && r == p
      else
        && FiringOrder(p, e.now, order)
        && var q := RequeueAll(p, order);
        && q.queue != []
        && out == Some(q.queue[0]) && r == DropHead(q)
  }

  /** A run of the lazy pool from the empty pool. */
  ghost predicate LazyRun<T>(trace: seq<Timed<T>>, states: seq<Pool<T>>, orders: seq<seq<T>>, outs: seq<Option<T>>) {
    && |states| == |trace| + 1 && |orders| == |outs| == |trace|
    && states[0] == Pool([], map[], {})
    && forall i | 0 <= i < |trace| :: LazyStep(states[i], trace[i], orders[i], states[i + 1], outs[i])
  }

  // ---------------------------------------------------------------- the eager pool

  /** The timer of the task whose deadline is this instant goes off. */
  ghost function FireAt<T>(p: Pool<T>, instant: int): (r: Pool<T>)
  {
    if exists t :: t in p.armed && p.armed[t] == instant then
      var t :| t in p.armed && p.armed[t] == instant;
      Requeue(p, t)
    else p
  }

  /** All instants after `from` up to `until` pass, one after the other. */
  ghost function Advance<T>(p: Pool<T>, from: int, until: int): (r: Pool<T>)
    decreases until - from
  {
    if until <= from then p else FireAt(Advance(p, from, until - 1), until)
  }

  datatype Eager<T> = Eager(pool: Pool<T>, clock: int, outs: seq<Option<T>>)

  ghost function EagerStep<T>(s: Eager<T>, e: Timed<T>): (r: Eager<T>)
  {
    var p := Advance(s.pool, s.clock, e.now);
    match e.event
    case Add(t, d) =>
      Eager(if d.Some? && d.value <= e.now then p else Append(p, t, d), e.now, s.outs + [None])
    case Cancel(t) => Eager(Requeue(p, t), e.now, s.outs + [None])
    case Dequeue =>
      if p.queue == [] then Eager(p, e.now, s.outs + [None])
      else Eager(DropHead(p), e.now, s.outs + [Some(p.queue[0])])
  }

  /** The eager pool's timers run from `start` on. */
  ghost function EagerRun<T>(trace: seq<Timed<T>>, start: int): (r: Eager<T>)
  {
    if trace == [] then Eager(Pool([], map[], {}), start, [])
    else EagerStep(EagerRun(trace[..|trace| - 1], start), trace[|trace| - 1])
  }

  // ---------------------------------------------------------------- what moving tasks keeps

  /** r has the tasks of p, watches no deadline that p does not watch, and is as well-formed. */
  ghost predicate Keeps<T>(p: Pool<T>, r: Pool<T>) {
    && ValidPool(r)
    && (forall t | t in r.queue :: t in p.queue)
    && (forall t | t in p.queue :: t in r.queue)
    && (forall t | t in r.armed :: t in p.armed && r.armed[t] == p.armed[t])
  }

  lemma {:induction false} WithoutKeeps<T>(s: seq<T>, t: T)
    requires NoDuplicates(s)
    ensures NoDuplicates(Without(s, t))
    ensures forall u | u in Without(s, t) :: u in s && u != t
    ensures forall u | u in s && u != t :: u in Without(s, t)
  {
    if s != [] {
      assert s[0] !in s[1..];
      if s[0] != t {
        WithoutKeeps(s[1..], t);
        var rest := Without(s[1..], t);
        forall i | 0 <= i < |rest| ensures rest[i] != s[0] { assert rest[i] in rest; }
      }
    }
  }

  lemma RequeueKeeps<T>(p: Pool<T>, t: T)
    requires ValidPool(p)
    ensures Keeps(p, Requeue(p, t))
  {
    WithoutKeeps(p.queue, t);
    if t in p.queue && t !in p.expedited {
      var rest := Without(p.queue, t);
      forall i | 0 <= i < |rest| ensures rest[i] != t { assert rest[i] in rest; }
    }
  }

  lemma {:induction false} RequeueAllKeeps<T>(p: Pool<T>, order: seq<T>)
    requires ValidPool(p)
    ensures Keeps(p, RequeueAll(p, order))
    decreases |order|
  {
    if order != [] {
      RequeueKeeps(p, order[0]);
      RequeueAllKeeps(Requeue(p, order[0]), order[1..]);
    }
  }

  lemma FireAtKeeps<T>(p: Pool<T>, instant: int)
    requires ValidPool(p)
    ensures Keeps(p, FireAt(p, instant))
  {
    if exists t :: t in p.armed && p.armed[t] == instant {
      var t :| t in p.armed && p.armed[t] == instant && FireAt(p, instant) == Requeue(p, t);
      RequeueKeeps(p, t);
    }
  }

  lemma {:induction false} AdvanceKeeps<T>(p: Pool<T>, from: int, until: int)
    requires ValidPool(p)
    ensures Keeps(p, Advance(p, from, until))
    decreases until - from
  {
    if from < until {
      AdvanceKeeps(p, from, until - 1);
      FireAtKeeps(Advance(p, from, until - 1), until);
    }
  }

  // ---------------------------------------------------------------- the refinement

  ghost predicate Distinct<T>(armed: map<T, int>) {
    forall t, u | t in armed && u in armed && t != u :: armed[t] != armed[u]
  }

  /** Time never runs backwards and every task is added once. */
  ghost predicate OrderedTrace<T>(trace: seq<Timed<T>>) {
    && (forall i, j | 0 <= i < j < |trace| :: trace[i].now <= trace[j].now)
    && (forall i, j | 0 <= i < j < |trace| && trace[i].event.Add? && trace[j].event.Add? ::
          trace[i].event.task != trace[j].event.task)
  }

  /** Moreover, no two tasks have the same deadline. */
  ghost predicate FairTrace<T>(trace: seq<Timed<T>>) {
    && OrderedTrace(trace)
    && (forall i, j | 0 <= i < j < |trace| && trace[i].event.Add? && trace[j].event.Add? ::
          trace[i].event.deadline.Some? ==> trace[i].event.deadline != trace[j].event.deadline)
  }

  lemma {:induction false} NothingFires<T>(p: Pool<T>, from: int, until: int)
    requires forall t | t in p.armed :: p.armed[t] <= from || until < p.armed[t]
    ensures Advance(p, from, until) == p
    decreases until - from
  {
    if from < until { NothingFires(p, from, until - 1); }
  }

  lemma {:induction false} AdvanceTwice<T>(p: Pool<T>, from: int, mid: int, until: int)
    requires from <= mid <= until
    ensures Advance(Advance(p, from, mid), mid, until) == Advance(p, from, until)
    decreases until - mid
  {
    if mid < until { AdvanceTwice(p, from, mid, until - 1); }
  }

  lemma FirstIsEarliest<T>(p: Pool<T>, now: int, order: seq<T>, t: T)
    requires Distinct(p.armed) && FiringOrder(p, now, order) && order != []
    requires t in p.armed && t != order[0]
    ensures p.armed[order[0]] < p.armed[t]
  {
    assert order[0] in order;
    if p.armed[t] <= now {
      assert t in order;
      var i :| 0 <= i < |order| && order[i] == t;
      assert p.armed[order[0]] <= p.armed[order[i]];
    }
  }

  lemma RestIsFiringOrder<T>(p: Pool<T>, now: int, order: seq<T>)
    requires ValidPool(p) && FiringOrder(p, now, order) && order != []
    ensures FiringOrder(Requeue(p, order[0]), now, order[1..])
  {
    assert order[0] in order && order[0] !in order[1..];
    var q := Requeue(p, order[0]);
    assert q.armed == p.armed - {order[0]};
    forall t | t in order[1..]
      ensures t in q.armed && q.armed[t] <= now
    {
      assert t in order;
    }
    forall t | t in q.armed && q.armed[t] <= now
      ensures t in order[1..]
    {
      assert t in order;
    }
  }

  /** Yielding the expired tasks from a heap at the end moves them exactly as their timers would have. */
  lemma {:induction false} HeapOrderIsTimeOrder<T>(p: Pool<T>, from: int, now: int, order: seq<T>)
    requires ValidPool(p) && Distinct(p.armed)
    requires from <= now && forall t | t in p.armed :: from < p.armed[t]
    requires FiringOrder(p, now, order)
    ensures RequeueAll(p, order) == Advance(p, from, now)
    ensures forall t | t in RequeueAll(p, order).armed :: now < RequeueAll(p, order).armed[t]
    decreases |order|
  {
    if order == [] {
      NothingFires(p, from, now);
    } else {
      assert order[0] in order;
      var due := p.armed[order[0]];
      forall t | t in p.armed && t != order[0]
        ensures due < p.armed[t]
      {
        FirstIsEarliest(p, now, order, t);
      }
      NothingFires(p, from, due - 1);
      assert Advance(p, from, due) == Requeue(p, order[0]);
      AdvanceTwice(p, from, due, now);
      RequeueKeeps(p, order[0]);
      RestIsFiringOrder(p, now, order);
      HeapOrderIsTimeOrder(Requeue(p, order[0]), due, now, order[1..]);
    }
  }

  lemma {:induction false} WithoutAppend<T>(s: seq<T>, t: T, u: T)
    requires u in s && u != t
    ensures Without(s + [t], u) == Without(s, u) + [t]
  {
    assert (s + [t])[1..] == s[1..] + [t];
    if s[0] != u {
      WithoutAppend(s[1..], t, u);
    }
  }

  lemma RequeueThenAppend<T>(p: Pool<T>, t: T, d: Option<int>, u: T)
    requires u in p.queue && u != t
    ensures Requeue(Append(p, t, d), u) == Append(Requeue(p, u), t, d)
  {
    WithoutAppend(p.queue, t, u);
  }

  lemma FireThenAppend<T>(p: Pool<T>, t: T, d: Option<int>, instant: int)
    requires ValidPool(p) && t !in p.queue && Distinct(p.armed)
    requires d.Some? ==> instant < d.value
    ensures FireAt(Append(p, t, d), instant) == Append(FireAt(p, instant), t, d)
  {
    var q := Append(p, t, d);
    if u :| u in p.armed && p.armed[u] == instant {
      assert u in q.armed && q.armed[u] == instant;
      assert FireAt(p, instant) == Requeue(p, u);
      assert FireAt(q, instant) == Requeue(q, u);
      RequeueThenAppend(p, t, d, u);
    }
  }

  /** A task that is added with a later deadline does not disturb the timers that go off before. */
  lemma {:induction false} AppendCommutes<T>(p: Pool<T>, t: T, d: Option<int>, from: int, now: int)
    requires ValidPool(p) && t !in p.queue && Distinct(p.armed)
    requires d.Some? ==> now < d.value
    ensures Advance(Append(p, t, d), from, now) == Append(Advance(p, from, now), t, d)
    decreases now - from
  {
    if from < now {
      AppendCommutes(p, t, d, from, now - 1);
      AdvanceKeeps(p, from, now - 1);
      FireThenAppend(Advance(p, from, now - 1), t, d, now);
    }
  }

  /** Every waiting task was added by one of the first n events, every watched deadline came with it. */
  ghost predicate Grounded<T>(trace: seq<Timed<T>>, n: nat, p: Pool<T>)
    requires n <= |trace|
  {
    && (forall t | t in p.queue :: exists i | 0 <= i < n :: trace[i].event.Add? && trace[i].event.task == t)
    && (forall t | t in p.armed :: exists i | 0 <= i < n :: trace[i].event == Add(t, Some(p.armed[t])))
  }

  lemma DeadlinesDiffer<T>(trace: seq<Timed<T>>, i: nat, j: nat, t: T, u: T, d: int)
    requires FairTrace(trace) && i < |trace| && j < |trace| && t != u
    requires trace[i].event == Add(t, Some(d))
    ensures trace[j].event != Add(u, Some(d))
  {
    assert i < j || j < i || i == j;
  }

  lemma ArmedDistinct<T>(trace: seq<Timed<T>>, n: nat, p: Pool<T>)
    requires FairTrace(trace) && n <= |trace| && Grounded(trace, n, p)
    ensures Distinct(p.armed)
  {
    hide FairTrace;
    forall t, u | t in p.armed && u in p.armed && t != u
      ensures p.armed[t] != p.armed[u]
    {
      var i :| 0 <= i < n && trace[i].event == Add(t, Some(p.armed[t]));
      var j :| 0 <= j < n && trace[j].event == Add(u, Some(p.armed[u]));
      DeadlinesDiffer(trace, i, j, t, u, p.armed[t]);
    }
  }

  lemma StaysGrounded<T>(trace: seq<Timed<T>>, n: nat, p: Pool<T>, r: Pool<T>)
    requires n < |trace| && Grounded(trace, n, p)
    requires forall t | t in r.queue :: t in p.queue || (trace[n].event.Add? && trace[n].event.task == t)
    requires forall t | t in r.armed :: (t in p.armed && r.armed[t] == p.armed[t])
                                        || trace[n].event == Add(t, Some(r.armed[t]))
    ensures Grounded(trace, n + 1, r)
  {
  }

  /** What links the lazy pool to the eager one: the eager pool has fired the timers that the lazy one owes. */
  ghost predicate Linked<T>(p: Pool<T>, e: Eager<T>, from: int)
  {
    && ValidPool(p)
    && (forall t | t in p.armed :: from < p.armed[t])
    && from <= e.clock
    && e.pool == Advance(p, from, e.clock)
  }

  lemma LinkAdd<T>(p: Pool<T>, e: Eager<T>, from: int, ev: Timed<T>, r: Pool<T>)
    requires Linked(p, e, from) && e.clock <= ev.now && Distinct(p.armed)
    requires ev.event.Add? && ev.event.task !in p.queue && LazyStep(p, ev, [], r, None)
    ensures Linked(r, EagerStep(e, ev), from)
  {
    AdvanceTwice(p, from, e.clock, ev.now);
    var d := ev.event.deadline;
    if !(d.Some? && d.value <= ev.now) {
      AppendCommutes(p, ev.event.task, d, from, ev.now);
    }
  }

  /** When the overdue tasks have been moved, the lazy pool owes nothing. */
  lemma CaughtUp<T>(p: Pool<T>, e: Eager<T>, from: int, now: int, order: seq<T>)
    requires Linked(p, e, from) && e.clock <= now && Distinct(p.armed) && FiringOrder(p, now, order)
    ensures var q := RequeueAll(p, order);
            q == Advance(e.pool, e.clock, now) && Keeps(p, q) && forall t | t in q.armed :: now < q.armed[t]
  {
    AdvanceTwice(p, from, e.clock, now);
    HeapOrderIsTimeOrder(p, from, now, order);
    RequeueAllKeeps(p, order);
    hide Keeps;
  }

  lemma NothingOwed<T>(p: Pool<T>, now: int)
    ensures Advance(p, now, now) == p
  {
  }

  lemma LinkPromotion<T>(p: Pool<T>, e: Eager<T>, from: int, ev: Timed<T>, order: seq<T>, r: Pool<T>, out: Option<T>)
    requires Linked(p, e, from) && e.clock <= ev.now && Distinct(p.armed)
    requires !ev.event.Add? && LazyStep(p, ev, order, r, out)
    requires FiringOrder(p, ev.now, order)
    requires ev.event.Cancel? ==> r == Requeue(RequeueAll(p, order), ev.event.task)
    requires ev.event.Dequeue? ==> p.queue != []
    ensures Linked(r, EagerStep(e, ev), ev.now)
    ensures EagerStep(e, ev).outs == e.outs + [out]
    ensures forall t | t in r.queue :: t in p.queue
    ensures forall t | t in r.armed :: t in p.armed && r.armed[t] == p.armed[t]
  {
    hide FiringOrder, RequeueAll, Requeue, Distinct, Advance;
    var q := RequeueAll(p, order);
    CaughtUp(p, e, from, ev.now, order);
    NothingOwed(r, ev.now);
    if ev.event.Cancel? { RequeueKeeps(q, ev.event.task); }
  }

  lemma LinkIdle<T>(p: Pool<T>, e: Eager<T>, from: int, ev: Timed<T>)
    requires Linked(p, e, from) && e.clock <= ev.now
    requires (ev.event.Cancel? && ev.event.task !in p.queue) || (ev.event.Dequeue? && p.queue == [])
    ensures Linked(p, EagerStep(e, ev), from)
    ensures EagerStep(e, ev).outs == e.outs + [None]
  {
    AdvanceTwice(p, from, e.clock, ev.now);
    AdvanceKeeps(p, from, ev.now);
    var q := Advance(p, from, ev.now).queue;
    assert q != [] ==> q[0] in q;
  }

  lemma {:induction false} LinkStep<T>(trace: seq<Timed<T>>, n: nat, p: Pool<T>, e: Eager<T>, from: int,
                                       order: seq<T>, r: Pool<T>, out: Option<T>) returns (from': int)
    requires FairTrace(trace) && n < |trace|
    requires Grounded(trace, n, p) && Linked(p, e, from) && e.clock <= trace[n].now
    requires LazyStep(p, trace[n], order, r, out)
    ensures Grounded(trace, n + 1, r) && Linked(r, EagerStep(e, trace[n]), from')
    ensures EagerStep(e, trace[n]).outs == e.outs + [out]
    ensures EagerStep(e, trace[n]).clock == trace[n].now
  {
    var ev := trace[n];
    ArmedDistinct(trace, n, p);
    if ev.event.Add? {
      assert ev.event.task !in p.queue;
      LinkAdd(p, e, from, ev, r);
      from' := from;
    } else if FiringOrder(p, ev.now, order) && (ev.event.Dequeue? ==> p.queue != [])
              && (ev.event.Cancel? ==> r == Requeue(RequeueAll(p, order), ev.event.task)) {
      LinkPromotion(p, e, from, ev, order, r, out);
      from' := ev.now;
    } else {
      LinkIdle(p, e, from, ev);
      from' := from;
    }
    StaysGrounded(trace, n, p, r);
  }

  lemma EagerRunStep<T>(trace: seq<Timed<T>>, n: nat, start: int)
    requires n < |trace|
    ensures EagerRun(trace[..n + 1], start) == EagerStep(EagerRun(trace[..n], start), trace[n])
  {
    assert trace[..n + 1][..n] == trace[..n];
  }

  lemma RunStep<T>(trace: seq<Timed<T>>, states: seq<Pool<T>>, orders: seq<seq<T>>, outs: seq<Option<T>>, n: nat)
    requires LazyRun(trace, states, orders, outs) && n < |trace|
    ensures |states| == |trace| + 1 && |orders| == |outs| == |trace|
    ensures LazyStep(states[n], trace[n], orders[n], states[n + 1], outs[n])
  {
    hide LazyStep;
  }

  lemma TimeGoesOn<T>(trace: seq<Timed<T>>, n: nat)
    requires FairTrace(trace) && n + 1 < |trace|
    ensures trace[n].now <= trace[n + 1].now
  {
  }

  lemma LinkedAtStart<T>(trace: seq<Timed<T>>, states: seq<Pool<T>>, orders: seq<seq<T>>, outs: seq<Option<T>>,
                         start: int)
    requires LazyRun(trace, states, orders, outs)
    ensures EagerRun(trace[..0], start) == Eager(Pool([], map[], {}), start, []) && |states| > 0
    ensures Grounded(trace, 0, states[0]) && Linked(states[0], EagerRun(trace[..0], start), start)
  {
  }

  lemma {:induction false} RunsLinked<T>(trace: seq<Timed<T>>, states: seq<Pool<T>>, orders: seq<seq<T>>,
                                         outs: seq<Option<T>>, start: int, n: nat) returns (e: Eager<T>, from: int)
    requires FairTrace(trace) && LazyRun(trace, states, orders, outs) && n <= |trace|
    requires trace != [] ==> start <= trace[0].now
    ensures e == EagerRun(trace[..n], start) && e.outs == outs[..n]
    ensures n < |trace| ==> e.clock <= trace[n].now
    ensures Grounded(trace, n, states[n]) && Linked(states[n], e, from)
    decreases n
  {
    hide EagerRun, EagerStep, Linked, Grounded, LazyStep, FairTrace, LazyRun;
    if n == 0 {
      LinkedAtStart(trace, states, orders, outs, start);
      e, from := EagerRun(trace[..0], start), start;
    } else {
      RunStep(trace, states, orders, outs, n - 1);
      e, from := RunsLinked(trace, states, orders, outs, start, n - 1);
      from := LinkStep(trace, n - 1, states[n - 1], e, from, orders[n - 1], states[n], outs[n - 1]);
      EagerRunStep(trace, n - 1, start);
      e := EagerStep(e, trace[n - 1]);
      assert outs[..n] == outs[..n - 1] + [outs[n - 1]];
      if n < |trace| { TimeGoesOn(trace, n - 1); }
    }
  }

  /** Every dequeue of every run of the lazy pool hands out the task that the eager pool would hand out. */
  lemma LazyIsEager<T>(trace: seq<Timed<T>>, states: seq<Pool<T>>, orders: seq<seq<T>>, outs: seq<Option<T>>,
                       start: int)
    requires FairTrace(trace) && (trace != [] ==> start <= trace[0].now)
    requires LazyRun(trace, states, orders, outs)
    ensures outs == EagerRun(trace, start).outs
  {
    var e, from := RunsLinked(trace, states, orders, outs, start, |trace|);
    assert trace[..|trace|] == trace && outs[..|outs|] == outs;
  }
}
