/**
 Tasks with the same deadline: the lazy pool hands out tasks in the order of a pool with one timer per task, in which
 timers that are due at the same instant go off one after the other, in some order.

 The eager pool of `LazyPromotion` has at most one timer per instant. Here every instant is split into `grain` moments
 and the timers that are due at one instant go off at different moments of it, as `tie` says.
 */
module TiedDeadlines {
  import opened Collections
  import opened Options
  import opened LazyPromotion

  /** The moment `tie` of an instant. */
  function Moment(instant: int, tie: int, grain: nat): int {
    instant * grain + tie
  }

  function TieOf<T(==)>(ties: map<T, nat>, t: T): nat {
    if t in ties then ties[t] else 0
  }

  /** Every task that is added gets a moment of its own. */
  ghost predicate TieBreak<T>(trace: seq<Timed<T>>, ties: map<T, nat>, grain: nat) {
    && (forall t | t in ties :: ties[t] < grain)
    && (forall t, u | t in ties && u in ties && t != u :: ties[t] != ties[u])
    && (forall i | 0 <= i < |trace| && trace[i].event.Add? :: trace[i].event.task in ties)
  }

  /** A deadline passes at its moment; an event comes at the last moment of its instant. */
  function Refined<T(==)>(e: Timed<T>, ties: map<T, nat>, grain: nat): Timed<T> {
    Timed(Moment(e.now, grain - 1, grain),
          if e.event.Add? && e.event.deadline.Some? then
            Add(e.event.task, Some(Moment(e.event.deadline.value, TieOf(ties, e.event.task), grain)))
          else e.event)
  }

  function RefinedTrace<T(==)>(trace: seq<Timed<T>>, ties: map<T, nat>, grain: nat): (r: seq<Timed<T>>)
    ensures |r| == |trace| && forall i | 0 <= i < |r| :: r[i] == Refined(trace[i], ties, grain)
  {
    seq(|trace|, i requires 0 <= i < |trace| => Refined(trace[i], ties, grain))
  }

  function RefinedPool<T(==)>(p: Pool<T>, ties: map<T, nat>, grain: nat): Pool<T> {
    Pool(p.queue, map t | t in p.armed :: Moment(p.armed[t], TieOf(ties, t), grain), p.expedited)
  }

  // ---------------------------------------------------------------- moments

  lemma AtLeastOne(k: int, grain: nat)
    requires k >= 1
    ensures k * grain >= grain
  {
    assert k * grain == (k - 1) * grain + grain;
    assert (k - 1) * grain >= 0;
  }

  /** Moments are ordered by instant, then by tie. */
  lemma MomentsInOrder(a: int, x: int, b: int, y: int, grain: nat)
    requires 0 <= x < grain && 0 <= y < grain
    ensures Moment(a, x, grain) <= Moment(b, y, grain) <==> a < b || (a == b && x <= y)
  {
    assert b * grain - a * grain == (b - a) * grain;
    if a < b {
      AtLeastOne(b - a, grain);
    } else if b < a {
      AtLeastOne(a - b, grain);
      assert (a - b) * grain == a * grain - b * grain;
    }
  }

  // ---------------------------------------------------------------- the lazy pool does not see the difference

  lemma RequeueRefined<T>(p: Pool<T>, t: T, ties: map<T, nat>, grain: nat)
    ensures RefinedPool(Requeue(p, t), ties, grain) == Requeue(RefinedPool(p, ties, grain), t)
  {
    hide Moment;
  }

  lemma {:induction false} RequeueAllRefined<T>(p: Pool<T>, order: seq<T>, ties: map<T, nat>, grain: nat)
    ensures RefinedPool(RequeueAll(p, order), ties, grain) == RequeueAll(RefinedPool(p, ties, grain), order)
    decreases |order|
  {
    hide RefinedPool;
    if order != [] {
      RequeueRefined(p, order[0], ties, grain);
      RequeueAllRefined(Requeue(p, order[0]), order[1..], ties, grain);
    }
  }

  lemma AppendRefined<T>(p: Pool<T>, t: T, d: Option<int>, ties: map<T, nat>, grain: nat)
    ensures RefinedPool(Append(p, t, d), ties, grain) ==
              Append(RefinedPool(p, ties, grain), t,
                     if d.Some? then Some(Moment(d.value, TieOf(ties, t), grain)) else None)
  {
    hide Moment;
  }

  lemma DropHeadRefined<T>(p: Pool<T>, ties: map<T, nat>, grain: nat)
    requires p.queue != []
    ensures RefinedPool(DropHead(p), ties, grain) == DropHead(RefinedPool(p, ties, grain))
  {
    hide Moment;
  }

  /** Within a firing order, tasks with the same deadline come in the order of their ties. */
  ghost predicate TiesFollow<T>(armed: map<T, int>, order: seq<T>, ties: map<T, nat>) {
    forall a, b | 0 <= a < b < |order| && order[a] in armed && order[b] in armed
                  && armed[order[a]] == armed[order[b]] ::
      TieOf(ties, order[a]) <= TieOf(ties, order[b])
  }

  ghost predicate TiesFit<T>(ties: map<T, nat>, grain: nat) {
    grain > 0 && forall t | t in ties :: ties[t] < grain
  }

  lemma FiringOrderRefined<T>(p: Pool<T>, now: int, order: seq<T>, ties: map<T, nat>, grain: nat)
    requires FiringOrder(p, now, order) && TiesFollow(p.armed, order, ties) && TiesFit(ties, grain)
    ensures FiringOrder(RefinedPool(p, ties, grain), Moment(now, grain - 1, grain), order)
  {
    var q, later := RefinedPool(p, ties, grain), Moment(now, grain - 1, grain);
    forall t | t in p.armed ensures q.armed[t] <= later <==> p.armed[t] <= now {
      MomentsInOrder(p.armed[t], TieOf(ties, t), now, grain - 1, grain);
    }
    forall i, j | 0 <= i < j < |order| ensures q.armed[order[i]] <= q.armed[order[j]] {
      assert order[i] in order && order[j] in order;
      MomentsInOrder(p.armed[order[i]], TieOf(ties, order[i]), p.armed[order[j]], TieOf(ties, order[j]), grain);
    }
    hide Moment;
  }

  lemma SameQueue<T>(p: Pool<T>, ties: map<T, nat>, grain: nat)
    ensures RefinedPool(p, ties, grain).queue == p.queue
  {
  }

  lemma LazyStepRefined<T>(p: Pool<T>, e: Timed<T>, order: seq<T>, r: Pool<T>, out: Option<T>, ties: map<T, nat>,
                           grain: nat)
    requires LazyStep(p, e, order, r, out) && TiesFollow(p.armed, order, ties) && TiesFit(ties, grain)
    ensures LazyStep(RefinedPool(p, ties, grain), Refined(e, ties, grain), order, RefinedPool(r, ties, grain), out)
  {
    if FiringOrder(p, e.now, order) { FiringOrderRefined(p, e.now, order, ties, grain); }
    RequeueAllRefined(p, order, ties, grain);
    hide RefinedPool, FiringOrder, RequeueAll, Requeue, Append, DropHead, TiesFollow;
    match e.event
    case Add(t, d) =>
      if d.Some? { MomentsInOrder(d.value, TieOf(ties, t), e.now, grain - 1, grain); }
      AppendRefined(p, t, d, ties, grain);
    case Cancel(t) =>
      RequeueRefined(RequeueAll(p, order), t, ties, grain);
      SameQueue(p, ties, grain);
    case Dequeue =>
      SameQueue(p, ties, grain);
      SameQueue(RequeueAll(p, order), ties, grain);
      if p.queue != [] { DropHeadRefined(RequeueAll(p, order), ties, grain); }
  }

  // ---------------------------------------------------------------- a tie-break from the run

  /** The first place of t in the line. */
  ghost function Place<T>(line: seq<T>, t: T): (i: nat)
    requires t in line
    ensures i < |line| && line[i] == t && t !in line[..i]
  {
    if line[0] == t then 0 else
      var i := Place(line[1..], t) + 1;
      assert line[..i] == [line[0]] + line[1..][..i - 1];
      i
  }

  /** The tasks whose timers went off, in the order in which the lazy pool saw it. */
  ghost function Fired<T>(orders: seq<seq<T>>): (line: seq<T>) {
    if orders == [] then [] else Fired(orders[..|orders| - 1]) + orders[|orders| - 1]
  }

  ghost function Added<T>(trace: seq<Timed<T>>): (line: seq<T>)
    ensures forall i | 0 <= i < |trace| && trace[i].event.Add? :: trace[i].event.task in line
  {
    if trace == [] then [] else
      Added(trace[..|trace| - 1]) + if trace[|trace| - 1].event.Add? then [trace[|trace| - 1].event.task] else []
  }

  ghost function LineOf<T>(trace: seq<Timed<T>>, orders: seq<seq<T>>): (line: seq<T>) {
    Fired(orders) + Added(trace)
  }

  ghost function Ties<T>(line: seq<T>): (ties: map<T, nat>) {
    map t | t in line :: Place(line, t)
  }

  lemma TiesBreak<T>(trace: seq<Timed<T>>, orders: seq<seq<T>>)
    ensures var line := LineOf(trace, orders); TieBreak(trace, Ties(line), |line| + 1)
  {
    var line := LineOf(trace, orders);
    forall t, u | t in line && u in line && t != u ensures Place(line, t) != Place(line, u) {
      assert line[Place(line, t)] == t && line[Place(line, u)] == u;
    }
  }

  lemma {:induction false} FiredPrefix<T>(orders: seq<seq<T>>, n: nat)
    requires n <= |orders|
    ensures Fired(orders[..n]) <= Fired(orders)
    decreases |orders|
  {
    if n == |orders| {
      assert orders[..n] == orders;
    } else {
      var most := orders[..|orders| - 1];
      assert most[..n] == orders[..n];
      FiredPrefix(most, n);
    }
  }

  lemma PlaceInPart<T>(line: seq<T>, before: seq<T>, order: seq<T>, a: nat)
    requires before + order <= line && NoDuplicates(order) && a < |order| && order[a] !in before
    ensures order[a] in line && Place(line, order[a]) == |before| + a
  {
    var i := |before| + a;
    assert line[i] == (before + order)[i] == order[a];
  }

  // ---------------------------------------------------------------- no task is fired twice

  lemma {:induction false} RequeueAllDisarms<T>(p: Pool<T>, order: seq<T>, t: T)
    requires ValidPool(p) && t in order && t in p.queue
    ensures t !in RequeueAll(p, order).armed
    decreases |order|
  {
    RequeueKeeps(p, order[0]);
    if order[0] == t {
      RequeueAllKeeps(Requeue(p, order[0]), order[1..]);
    } else {
      RequeueAllDisarms(Requeue(p, order[0]), order[1..], t);
    }
  }

  lemma DropHeadKeeps<T>(p: Pool<T>)
    requires ValidPool(p) && p.queue != []
    ensures ValidPool(DropHead(p))
  {
    var r := DropHead(p);
    forall t | t in p.queue && t != p.queue[0] ensures t in r.queue {
      var i :| 0 <= i < |p.queue| && p.queue[i] == t;
      assert r.queue[i - 1] == t;
    }
  }

  /** The tasks in fired are no longer watched, and never will be again: they have been added. */
  ghost predicate Done<T>(trace: seq<Timed<T>>, n: nat, fired: seq<T>, p: Pool<T>)
    requires n <= |trace|
  {
    forall t | t in fired ::
      t !in p.armed && exists i | 0 <= i < n :: trace[i].event.Add? && trace[i].event.task == t
  }

  lemma PromotionKeeps<T>(p: Pool<T>, e: Timed<T>, order: seq<T>, r: Pool<T>, out: Option<T>)
    requires ValidPool(p) && FiringOrder(p, e.now, order) && LazyStep(p, e, order, r, out) && !e.event.Add?
    ensures ValidPool(r)
    ensures forall t | t in r.queue :: t in p.queue
    ensures forall t | t in r.armed :: t in p.armed && r.armed[t] == p.armed[t]
    ensures forall t | t in order :: t in p.armed && t !in r.armed
  {
    var q := RequeueAll(p, order);
    RequeueAllKeeps(p, order);
    forall t | t in order ensures t in p.armed && t !in q.armed { RequeueAllDisarms(p, order, t); }
    hide RequeueAll, FiringOrder;
    if e.event.Cancel? {
      RequeueKeeps(q, e.event.task);
      hide Requeue;
    } else if p.queue != [] {
      DropHeadKeeps(q);
    }
  }

  lemma AddKeeps<T>(trace: seq<Timed<T>>, n: nat, p: Pool<T>, t: T, d: Option<int>)
    requires OrderedTrace(trace) && n < |trace| && ValidPool(p) && Grounded(trace, n, p)
    requires trace[n].event == Add(t, d)
    ensures ValidPool(Append(p, t, d))
  {
    assert t !in p.queue;
  }

  lemma LazyStepKeeps<T>(trace: seq<Timed<T>>, n: nat, p: Pool<T>, order: seq<T>, r: Pool<T>, out: Option<T>)
    requires OrderedTrace(trace) && n < |trace| && ValidPool(p) && Grounded(trace, n, p)
    requires LazyStep(p, trace[n], order, r, out)
    ensures ValidPool(r) && Grounded(trace, n + 1, r)
    ensures forall t | t in order :: t in p.armed && t !in r.armed
    ensures forall t | t in r.armed :: t in p.armed || (trace[n].event.Add? && trace[n].event.task == t)
  {
    hide OrderedTrace, Grounded, ValidPool, FiringOrder, RequeueAll, Requeue;
    if trace[n].event.Add? {
      AddKeeps(trace, n, p, trace[n].event.task, trace[n].event.deadline);
    } else if FiringOrder(p, trace[n].now, order) {
      PromotionKeeps(p, trace[n], order, r, out);
    }
    StaysGrounded(trace, n, p, r);
  }

  lemma {:induction false} NeverFiredTwice<T>(trace: seq<Timed<T>>, states: seq<Pool<T>>, orders: seq<seq<T>>,
                                              outs: seq<Option<T>>, n: nat)
    requires OrderedTrace(trace) && LazyRun(trace, states, orders, outs) && n <= |trace|
    ensures ValidPool(states[n]) && Grounded(trace, n, states[n])
    ensures Done(trace, n, Fired(orders[..n]), states[n])
  {
    if n > 0 {
      NeverFiredTwice(trace, states, orders, outs, n - 1);
      assert LazyStep(states[n - 1], trace[n - 1], orders[n - 1], states[n], outs[n - 1]);
      LazyStepKeeps(trace, n - 1, states[n - 1], orders[n - 1], states[n], outs[n - 1]);
      assert orders[..n][..n - 1] == orders[..n - 1];
      hide LazyStep, ValidPool, Fired;
    }
  }

  /** In the order in which they went off, timers of one instant are in the order of their ties. */
  lemma RunFollowsTies<T>(trace: seq<Timed<T>>, states: seq<Pool<T>>, orders: seq<seq<T>>, outs: seq<Option<T>>, n: nat)
    requires OrderedTrace(trace) && LazyRun(trace, states, orders, outs) && n < |trace|
    ensures TiesFollow(states[n].armed, orders[n], Ties(LineOf(trace, orders)))
  {
    NeverFiredTwice(trace, states, orders, outs, n);
    var line, before, order := LineOf(trace, orders), Fired(orders[..n]), orders[n];
    FiredPrefix(orders, n + 1);
    assert orders[..n + 1][..n] == orders[..n];
    assert before + order <= line;
    assert LazyStep(states[n], trace[n], order, states[n + 1], outs[n]);
    forall a, b | 0 <= a < b < |order| && order[a] in states[n].armed && order[b] in states[n].armed
      ensures TieOf(Ties(line), order[a]) <= TieOf(Ties(line), order[b])
    {
      PlaceInPart(line, before, order, a);
      PlaceInPart(line, before, order, b);
    }
  }

  lemma AllFollowTies<T>(trace: seq<Timed<T>>, states: seq<Pool<T>>, orders: seq<seq<T>>, outs: seq<Option<T>>)
    requires OrderedTrace(trace) && LazyRun(trace, states, orders, outs)
    ensures forall n | 0 <= n < |trace| :: TiesFollow(states[n].armed, orders[n], Ties(LineOf(trace, orders)))
  {
    hide TiesFollow, LazyStep, OrderedTrace;
    forall n | 0 <= n < |trace| ensures TiesFollow(states[n].armed, orders[n], Ties(LineOf(trace, orders))) {
      RunFollowsTies(trace, states, orders, outs, n);
    }
  }

  // ---------------------------------------------------------------- the refinement

  lemma BreakFits<T>(trace: seq<Timed<T>>, ties: map<T, nat>, grain: nat)
    requires TieBreak(trace, ties, grain) && grain > 0
    ensures TiesFit(ties, grain)
  {
  }

  lemma RefinedIsFair<T>(trace: seq<Timed<T>>, ties: map<T, nat>, grain: nat)
    requires OrderedTrace(trace) && TieBreak(trace, ties, grain) && grain > 0
    ensures FairTrace(RefinedTrace(trace, ties, grain))
  {
    var fine := RefinedTrace(trace, ties, grain);
    forall i, j | 0 <= i < j < |fine| ensures fine[i].now <= fine[j].now {
      MomentsInOrder(trace[i].now, grain - 1, trace[j].now, grain - 1, grain);
    }
    forall i, j | 0 <= i < j < |fine| && fine[i].event.Add? && fine[j].event.Add? && fine[i].event.deadline.Some?
      ensures fine[i].event.deadline != fine[j].event.deadline
    {
      if fine[j].event.deadline.Some? {
        var a, b := trace[i].event, trace[j].event;
        MomentsInOrder(a.deadline.value, ties[a.task], b.deadline.value, ties[b.task], grain);
        MomentsInOrder(b.deadline.value, ties[b.task], a.deadline.value, ties[a.task], grain);
      }
    }
    hide Moment;
  }

  lemma LazyRunRefined<T>(trace: seq<Timed<T>>, states: seq<Pool<T>>, orders: seq<seq<T>>, outs: seq<Option<T>>,
                          ties: map<T, nat>, grain: nat) returns (fine: seq<Pool<T>>)
    requires LazyRun(trace, states, orders, outs) && TiesFit(ties, grain)
    requires forall i | 0 <= i < |trace| :: TiesFollow(states[i].armed, orders[i], ties)
    ensures LazyRun(RefinedTrace(trace, ties, grain), fine, orders, outs)
  {
    fine := seq(|states|, i requires 0 <= i < |states| => RefinedPool(states[i], ties, grain));
    assert fine[0] == Pool([], map[], {});
    hide LazyStep, RefinedPool, Refined;
    forall i | 0 <= i < |trace|
      ensures LazyStep(fine[i], Refined(trace[i], ties, grain), orders[i], fine[i + 1], outs[i])
    {
      assert LazyStep(states[i], trace[i], orders[i], states[i + 1], outs[i]);
      LazyStepRefined(states[i], trace[i], orders[i], states[i + 1], outs[i], ties, grain);
    }
  }

  /**
   Every dequeue of every run of the lazy pool, with any deadlines, hands out the task that a pool with one timer per
   task would hand out, for some order among the timers of one instant; with distinct deadlines, there is nothing to
   choose.
   */
  lemma LazyIsEagerUpToTies<T>(trace: seq<Timed<T>>, states: seq<Pool<T>>, orders: seq<seq<T>>, outs: seq<Option<T>>,
                               start: int) returns (ties: map<T, nat>, grain: nat)
    requires OrderedTrace(trace) && (trace != [] ==> start <= trace[0].now)
    requires LazyRun(trace, states, orders, outs)
    ensures grain > 0 && TieBreak(trace, ties, grain)
    ensures outs == EagerRun(RefinedTrace(trace, ties, grain), Moment(start, grain - 1, grain)).outs
    ensures FairTrace(trace) ==> outs == EagerRun(trace, start).outs
  {
    hide LazyRun, FairTrace, OrderedTrace, EagerRun, Moment, LineOf, Ties, TiesFollow, TieBreak;
    if FairTrace(trace) { LazyIsEager(trace, states, orders, outs, start); }
    var line := LineOf(trace, orders);
    ties, grain := Ties(line), |line| + 1;
    TiesBreak(trace, orders);
    BreakFits(trace, ties, grain);
    AllFollowTies(trace, states, orders, outs);
    var fine := LazyRunRefined(trace, states, orders, outs, ties, grain);
    RefinedIsFair(trace, ties, grain);
    if trace != [] { MomentsInOrder(start, grain - 1, trace[0].now, grain - 1, grain); }
    LazyIsEager(RefinedTrace(trace, ties, grain), fine, orders, outs, Moment(start, grain - 1, grain));
  }
}
