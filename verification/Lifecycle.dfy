/**
 The service lifecycle: starting registered components in order, stopping them in phases, rolling a failed start back.

 Calls of start and stop take turns. A stop phase launches the stop of every component of the phase and then waits for
 each; a wait may end by time-out, and then the stop operation goes on and a later call takes it up again. One step is
 one iteration of one of those loops, or the return of one stop operation. `log` is the history of all calls.
 */
module Lifecycle {
  import opened Collections
  import opened Options

  datatype Kind = Source | Sink | Storage | DelayPool | TaskPool | PriorityPool | Component

  /** A stop operation of a component, until the lifecycle has collected it. */
  datatype Operation = NoOperation | InFlight | Finished(ok: bool)

  datatype Event = Started(who: nat) | Invoked(who: nat, rollback: bool) | Returned(who: nat, ok: bool)

  /** What a phase stops; in a rollback each component is a phase of its own, `left` are to follow. */
  datatype Phase = Admission | Executors | Sinks | Rollback(left: nat)

  /** What the call that has the turn is doing. */
  datatype Driver =
    | Idle
    | StartingUp(plan: seq<nat>, next: nat)
    | Launching(phase: Phase, list: seq<nat>, next: nat)
    | Awaiting(phase: Phase, list: seq<nat>, next: nat, failed: bool)

  datatype State = Created | Starting | Running | Stopping | Stopped

  datatype Life = Life(
    kinds: seq<Kind>, started: seq<bool>, operations: seq<Operation>,
    order: seq<nat>,              // started_
    state: State, rollbackPending: bool, beforeGraphDrained: bool,
    driver: Driver,
    log: seq<Event>)

  function Registered(kinds: seq<Kind>): Life {
    Life(kinds, seq(|kinds|, _ => false), seq(|kinds|, _ => NoOperation), [], Created, false, false, Idle, [])
  }

  /** The first `n` registered components of one kind, in order of registration. */
  function Ascending(kinds: seq<Kind>, kind: Kind, n: nat): seq<nat>
    requires n <= |kinds|
  {
    if n == 0 then []
    else Ascending(kinds, kind, n - 1) + if kinds[n - 1] == kind then [n - 1] else []
  }

  /** The same components, the last one first. */
  function Descending(kinds: seq<Kind>, kind: Kind, n: nat): seq<nat>
    requires n <= |kinds|
  {
    if n == 0 then []
    else (if kinds[n - 1] == kind then [n - 1] else []) + Descending(kinds, kind, n - 1)
  }

  const START_ORDER: seq<Kind> := [Storage, DelayPool, TaskPool, PriorityPool, Component, Sink]

  function PlanFor(kinds: seq<Kind>, groups: seq<Kind>): seq<nat> {
    if groups == [] then []
    else PlanFor(kinds, groups[..|groups| - 1]) + Ascending(kinds, groups[|groups| - 1], |kinds|)
  }

  /** startGraph leaves the data sources out. */
  function Plan(kinds: seq<Kind>, admission: bool): seq<nat> {
    PlanFor(kinds, if admission then START_ORDER + [Source] else START_ORDER)
  }

  function ListOf(kinds: seq<Kind>, phase: Phase): seq<nat>
    requires !phase.Rollback?
  {
    var n := |kinds|;
    match phase
    case Admission => Descending(kinds, Source, n) + Descending(kinds, Component, n)
    case Executors =>
      Descending(kinds, PriorityPool, n) + Descending(kinds, TaskPool, n) + Descending(kinds, DelayPool, n)
      + Descending(kinds, Storage, n)
    case Sinks => Descending(kinds, Sink, n)
  }

  function Begin(s: Life, phase: Phase): Life
    requires phase.Rollback? ==> phase.left < |s.order|
  {
    s.(driver := Launching(phase, if phase.Rollback? then [s.order[phase.left]] else ListOf(s.kinds, phase), 0))
  }

  /** The next component to roll back, or the end of the rollback. */
  function RollBack(s: Life, left: nat): Life
    requires left <= |s.order|
  {
    if left == 0 then s.(rollbackPending := false, state := Stopped, driver := Idle)
    else Begin(s, Rollback(left - 1))
  }

  datatype Step =
    | CallStart(admission: bool)
    | StartNext(ok: bool)
    | StartDone
    | CallStopBefore
    | CallStopAfter
    | Launch
    | Launched
    | Await(timeout: bool)
    | EndPhase
    | OperationReturns(who: nat, ok: bool)

  predicate Enabled(s: Life, step: Step) {
    match step
    case CallStart(_) => s.driver.Idle? && s.state == Created
    case StartNext(_) =>
      s.driver.StartingUp? && s.driver.next < |s.driver.plan| && s.driver.plan[s.driver.next] < |s.started|
    case StartDone => s.driver.StartingUp? && s.driver.next == |s.driver.plan|
    case CallStopBefore => s.driver.Idle?
    case CallStopAfter => s.driver.Idle? && s.state == Stopping && s.beforeGraphDrained
    case Launch =>
      && s.driver.Launching? && s.driver.next < |s.driver.list|
      && s.driver.list[s.driver.next] < |s.started| && |s.started| == |s.operations|
    case Launched => s.driver.Launching? && s.driver.next == |s.driver.list|
    case Await(timeout) =>
      && s.driver.Awaiting? && s.driver.next < |s.driver.list|
      && s.driver.list[s.driver.next] < |s.started| && |s.started| == |s.operations|
      && (timeout <==> s.started[s.driver.list[s.driver.next]] && s.operations[s.driver.list[s.driver.next]].InFlight?)
    case EndPhase =>
      && s.driver.Awaiting? && s.driver.next == |s.driver.list|
      && (s.driver.phase.Rollback? ==> s.driver.phase.left <= |s.order|)
    case OperationReturns(i, _) => i < |s.operations| && s.operations[i].InFlight?
  }

  function StopBefore(s: Life): Life
    requires s.driver.Idle?
  {
    if s.state == Created then s.(state := Stopped)
    else if s.state == Stopped then s
    else if s.rollbackPending then RollBack(s, |s.order|)
    else if s.beforeGraphDrained then s
    else Begin(s.(state := Stopping), Admission)
  }

  function StartOne(s: Life, ok: bool): Life
    requires Enabled(s, StartNext(ok))
  {
    var i := s.driver.plan[s.driver.next];
    var r := s.(started := s.started[i := true], order := s.order + [i], log := s.log + [Started(i)]);
    if ok then r.(driver := StartingUp(s.driver.plan, s.driver.next + 1))
    else RollBack(r.(state := Stopping, rollbackPending := true), |r.order|)
  }

  function LaunchOne(s: Life): Life
    requires Enabled(s, Launch)
  {
    var d := s.driver;
    var i, r := d.list[d.next], s.(driver := Launching(d.phase, d.list, d.next + 1));
    if !s.started[i] || !s.operations[i].NoOperation? then r
    else r.(operations := s.operations[i := InFlight], log := s.log + [Invoked(i, d.phase.Rollback?)])
  }

  function AwaitOne(s: Life, timeout: bool): Life
    requires Enabled(s, Await(timeout))
  {
    var d := s.driver;
    var i := d.list[d.next];
    var on, failed := Awaiting(d.phase, d.list, d.next + 1, d.failed), Awaiting(d.phase, d.list, d.next + 1, true);
    if !s.started[i] then s.(driver := on)
    else if timeout then s.(driver := failed)
    else if s.operations[i] == Finished(true) then
      s.(driver := on, started := s.started[i := false], operations := s.operations[i := NoOperation])
    else s.(driver := failed, operations := s.operations[i := NoOperation])
  }

  function PhaseOver(s: Life): Life
    requires Enabled(s, EndPhase)
  {
    if s.driver.failed then s.(driver := Idle)
    else
      match s.driver.phase
      case Admission => Begin(s, Executors)
      case Executors => s.(beforeGraphDrained := true, driver := Idle)
      case Sinks => s.(state := Stopped, driver := Idle)
      case Rollback(left) => RollBack(s, left)
  }

  function Do(s: Life, step: Step): Life
    requires Enabled(s, step)
  {
    match step
    case CallStart(admission) => s.(state := Starting, driver := StartingUp(Plan(s.kinds, admission), 0))
    case StartNext(ok) => StartOne(s, ok)
    case StartDone => s.(state := Running, driver := Idle)
    case CallStopBefore => StopBefore(s)
    case CallStopAfter => Begin(s, Sinks)
    case Launch => LaunchOne(s)
    case Launched => s.(driver := Awaiting(s.driver.phase, s.driver.list, 0, false))
    case Await(timeout) => AwaitOne(s, timeout)
    case EndPhase => PhaseOver(s)
    case OperationReturns(i, ok) =>
      s.(operations := s.operations[i := Finished(ok)], log := s.log + [Returned(i, ok)])
  }

  function Run(kinds: seq<Kind>, steps: seq<Step>): Option<Life> {
    if steps == [] then Some(Registered(kinds)) else
    var before, step := Run(kinds, steps[..|steps| - 1]), steps[|steps| - 1];
    if before.Some? && Enabled(before.value, step) then Some(Do(before.value, step)) else None
  }

  // ---------------------------------------------------------------- what the log should look like

  /** The components in the order in which they were started. */
  function Starts(log: seq<Event>): seq<nat> {
    if log == [] then [] else
    var e := log[|log| - 1];
    Starts(log[..|log| - 1]) + if e.Started? then [e.who] else []
  }

  function Invocations(log: seq<Event>, i: nat): nat {
    if log == [] then 0 else
    var e := log[|log| - 1];
    Invocations(log[..|log| - 1], i) + if e.Invoked? && e.who == i then 1 else 0
  }

  function Returns(log: seq<Event>, i: nat): nat {
    if log == [] then 0 else
    var e := log[|log| - 1];
    Returns(log[..|log| - 1], i) + if e.Returned? && e.who == i then 1 else 0
  }

  predicate StoppedIn(log: seq<Event>, i: nat) {
    Returned(i, true) in log
  }

  predicate IsAdmission(kind: Kind) {
    kind == Source || kind == Component
  }

  function PhaseOf(kind: Kind): Phase {
    if IsAdmission(kind) then Admission else if kind == Sink then Sinks else Executors
  }

  /** Which kinds have to be down before a phase of a regular stop. */
  predicate Precedes(kind: Kind, phase: Phase) {
    match phase
    case Admission => false
    case Executors => IsAdmission(kind)
    case Sinks => kind != Sink
    case Rollback(_) => false
  }

  /** Every component that has to be down before the phase, if it was started, has been stopped. */
  ghost predicate AllStopped(kinds: seq<Kind>, log: seq<Event>, phase: Phase) {
    forall j | 0 <= j < |kinds| && Precedes(kinds[j], phase) && j in Starts(log) :: StoppedIn(log, j)
  }

  /** Every component that was started after `i` has been stopped. */
  ghost predicate LaterStopped(log: seq<Event>, i: nat) {
    forall p, q | 0 <= p < q < |Starts(log)| && Starts(log)[p] == i :: StoppedIn(log, Starts(log)[q])
  }

  /** When a stop may be called: not twice at a time, not after a success, and not before the phases it depends on. */
  ghost predicate MayInvoke(kinds: seq<Kind>, before: seq<Event>, i: nat, rollback: bool) {
    && i < |kinds| && i in Starts(before)
    && Invocations(before, i) == Returns(before, i) && !StoppedIn(before, i)
    && (rollback ==> LaterStopped(before, i))
    && (!rollback || PhaseOf(kinds[i]) == Executors ==> AllStopped(kinds, before, PhaseOf(kinds[i])))
    && (rollback && kinds[i] == Sink ==> (AllStopped(kinds, before, Sinks) <==> OnlySinksAndSources(kinds)))
  }

  /** Nothing but data sinks and data sources is registered. */
  predicate OnlySinksAndSources(kinds: seq<Kind>) {
    forall j | 0 <= j < |kinds| :: kinds[j] == Sink || kinds[j] == Source
  }

  ghost predicate Allowed(kinds: seq<Kind>, before: seq<Event>, e: Event) {
    e.Invoked? ==> MayInvoke(kinds, before, e.who, e.rollback)
  }

  /** Every event was allowed by what happened before it. */
  ghost predicate WellOrdered(kinds: seq<Kind>, log: seq<Event>) {
    log == [] ||
    (WellOrdered(kinds, log[..|log| - 1]) && Allowed(kinds, log[..|log| - 1], log[|log| - 1]))
  }

  // ---------------------------------------------------------------- lists of components

  lemma {:induction false} AscendingIs(kinds: seq<Kind>, kind: Kind, n: nat)
    requires n <= |kinds|
    ensures forall i :: i in Ascending(kinds, kind, n) <==> 0 <= i < n && kinds[i] == kind
    ensures NoDuplicates(Ascending(kinds, kind, n))
  {
    if n > 0 { AscendingIs(kinds, kind, n - 1); }
  }

  lemma {:induction false} DescendingIs(kinds: seq<Kind>, kind: Kind, n: nat)
    requires n <= |kinds|
    ensures forall i :: i in Descending(kinds, kind, n) <==> 0 <= i < n && kinds[i] == kind
    ensures NoDuplicates(Descending(kinds, kind, n))
  {
    if n > 0 { DescendingIs(kinds, kind, n - 1); }
  }

  lemma Joined(a: seq<nat>, b: seq<nat>)
    requires NoDuplicates(a) && NoDuplicates(b) && forall i | i in a :: i !in b
    ensures NoDuplicates(a + b)
  {
    forall i, j | 0 <= i < j < |a + b| ensures (a + b)[i] != (a + b)[j] {
      assert i < |a| ==> (a + b)[i] in a;
      assert j >= |a| ==> (a + b)[j] in b;
    }
  }

  ghost predicate DistinctKinds(groups: seq<Kind>) {
    forall i, j | 0 <= i < j < |groups| :: groups[i] != groups[j]
  }

  function Rank(kind: Kind): nat {
    match kind
    case Storage => 0
    case DelayPool => 1
    case TaskPool => 2
    case PriorityPool => 3
    case Component => 4
    case Sink => 5
    case Source => 6
  }

  ghost predicate Ranked(kinds: seq<Kind>, q: seq<nat>) {
    && (forall i | i in q :: i < |kinds|)
    && (forall p, r | 0 <= p < r < |q| && q[p] < |kinds| && q[r] < |kinds| :: Rank(kinds[q[p]]) <= Rank(kinds[q[r]]))
  }

  lemma RanksAscend(groups: seq<Kind>)
    requires groups <= START_ORDER + [Source] && groups != []
    ensures forall k | k in groups[..|groups| - 1] :: Rank(k) <= Rank(groups[|groups| - 1])
  {
    var all := START_ORDER + [Source];
    assert forall p | 0 <= p < |groups| :: groups[p] == all[p];
    assert forall p, q | 0 <= p < q < |all| :: Rank(all[p]) <= Rank(all[q]);
  }

  lemma {:induction false} PlanRanked(kinds: seq<Kind>, groups: seq<Kind>)
    requires DistinctKinds(groups) && groups <= START_ORDER + [Source]
    ensures Ranked(kinds, PlanFor(kinds, groups))
  {
    if groups != [] {
      var init, last := groups[..|groups| - 1], groups[|groups| - 1];
      PlanRanked(kinds, init);
      PlanForIs(kinds, init);
      AscendingIs(kinds, last, |kinds|);
      var a, b := PlanFor(kinds, init), Ascending(kinds, last, |kinds|);
      RanksAscend(groups);
      hide PlanFor, Ascending, Rank, DistinctKinds;
      RankedJoined(kinds, a, b, init, last);
      PlanForSplit(kinds, groups);
    }
  }

  lemma RankedJoined(kinds: seq<Kind>, a: seq<nat>, b: seq<nat>, groups: seq<Kind>, last: Kind)
    requires Ranked(kinds, a) && forall i | i in a :: i < |kinds| && kinds[i] in groups
    requires forall i | i in b :: i < |kinds| && kinds[i] == last
    requires forall k | k in groups :: Rank(k) <= Rank(last)
    ensures Ranked(kinds, a + b)
  {
    hide Rank;
    var q := a + b;
    assert forall p | 0 <= p < |a| :: q[p] == a[p] && a[p] in a;
    assert forall p | |a| <= p < |q| :: q[p] == b[p - |a|] && b[p - |a|] in b;
  }

  lemma PlanForSplit(kinds: seq<Kind>, groups: seq<Kind>)
    requires groups != []
    ensures PlanFor(kinds, groups) ==
              PlanFor(kinds, groups[..|groups| - 1]) + Ascending(kinds, groups[|groups| - 1], |kinds|)
  {
  }

  /** The plan starts each component of its kinds once, kind after kind. */
  lemma {:induction false} PlanForIs(kinds: seq<Kind>, groups: seq<Kind>)
    requires DistinctKinds(groups)
    ensures forall i :: i in PlanFor(kinds, groups) <==> 0 <= i < |kinds| && kinds[i] in groups
    ensures NoDuplicates(PlanFor(kinds, groups))
  {
    if groups != [] {
      var init, last := groups[..|groups| - 1], groups[|groups| - 1];
      PlanForIs(kinds, init);
      AscendingIs(kinds, last, |kinds|);
      assert groups == init + [last];
      Joined(PlanFor(kinds, init), Ascending(kinds, last, |kinds|));
    }
  }

  lemma PlanIs(kinds: seq<Kind>, admission: bool)
    ensures forall i :: i in Plan(kinds, admission) <==> 0 <= i < |kinds| && (admission || kinds[i] != Source)
    ensures NoDuplicates(Plan(kinds, admission)) && Ranked(kinds, Plan(kinds, admission))
  {
    PlanForIs(kinds, if admission then START_ORDER + [Source] else START_ORDER);
    PlanRanked(kinds, if admission then START_ORDER + [Source] else START_ORDER);
    hide Ranked;
    assert forall k: Kind :: k in START_ORDER <==> k != Source;
  }

  predicate InPhase(kind: Kind, phase: Phase) {
    phase.Rollback? || phase == PhaseOf(kind)
  }

  lemma ListIs(kinds: seq<Kind>, phase: Phase)
    requires !phase.Rollback?
    ensures forall i :: i in ListOf(kinds, phase) <==> 0 <= i < |kinds| && InPhase(kinds[i], phase)
    ensures NoDuplicates(ListOf(kinds, phase))
  {
    var n := |kinds|;
    match phase
    case Admission =>
      DescendingIs(kinds, Source, n);
      DescendingIs(kinds, Component, n);
      hide NoDuplicates;
      Joined(Descending(kinds, Source, n), Descending(kinds, Component, n));
    case Executors => ExecutorsAre(kinds);
    case Sinks => DescendingIs(kinds, Sink, n);
  }

  lemma ExecutorsAre(kinds: seq<Kind>)
    ensures forall i :: i in ListOf(kinds, Executors) <==> 0 <= i < |kinds| && InPhase(kinds[i], Executors)
    ensures NoDuplicates(ListOf(kinds, Executors))
  {
    var n := |kinds|;
    DescendingIs(kinds, PriorityPool, n);
    DescendingIs(kinds, TaskPool, n);
    DescendingIs(kinds, DelayPool, n);
    DescendingIs(kinds, Storage, n);
    hide NoDuplicates, Descending;
    var two := Descending(kinds, PriorityPool, n) + Descending(kinds, TaskPool, n);
    Joined(Descending(kinds, PriorityPool, n), Descending(kinds, TaskPool, n));
    Joined(two, Descending(kinds, DelayPool, n));
    Joined(two + Descending(kinds, DelayPool, n), Descending(kinds, Storage, n));
  }

  // ---------------------------------------------------------------- what every step keeps

  /** One component: what its flags say about the log. */
  ghost predicate Faithful(started: bool, operation: Operation, log: seq<Event>, i: nat) {
    && Invocations(log, i) == Returns(log, i) + (if operation.InFlight? then 1 else 0)
    && (started ==> i in Starts(log))
    && (!operation.NoOperation? ==> started)
    && (i in Starts(log) && !started ==> StoppedIn(log, i))
    && (StoppedIn(log, i) ==> !started || operation == Finished(true))
    && (operation == Finished(true) ==> StoppedIn(log, i))
    && (i !in Starts(log) ==> !StoppedIn(log, i))
  }

  ghost predicate Booked(kinds: seq<Kind>, started: seq<bool>, operations: seq<Operation>, log: seq<Event>) {
    && |started| == |kinds| && |operations| == |kinds|
    && (forall i | 0 <= i < |kinds| :: Faithful(started[i], operations[i], log, i))
  }

  ghost predicate AllFaithful(s: Life) {
    && Booked(s.kinds, s.started, s.operations, s.log)
    && s.order == Starts(s.log) && NoDuplicates(s.order) && Ranked(s.kinds, s.order) && Complete(s.kinds, s.order)
  }

  /** Kind after kind: what is started comes after every registered component of an earlier kind. */
  ghost predicate Complete(kinds: seq<Kind>, order: seq<nat>) {
    forall q, j | 0 <= q < |order| && order[q] < |kinds| && 0 <= j < |kinds|
                  && StartsBefore(kinds[j], kinds[order[q]]) ::
      j in order
  }

  predicate StartsBefore(a: Kind, b: Kind) {
    a != Source && Rank(a) < Rank(b)
  }

  ghost predicate Up(started: seq<bool>, operations: seq<Operation>, i: nat) {
    i < |started| && i < |operations| && started[i] && operations[i].NoOperation?
  }

  /** Below a component that is started, every component is up. */
  ghost predicate Stacked(order: seq<nat>, started: seq<bool>, operations: seq<Operation>) {
    forall p, q | 0 <= p < q < |order| && order[q] < |started| && started[order[q]] :: Up(started, operations, order[p])
  }

  ghost predicate AllUp(order: seq<nat>, started: seq<bool>, operations: seq<Operation>) {
    forall p | 0 <= p < |order| :: Up(started, operations, order[p])
  }

  /** What has to be down before the phase is down. */
  ghost predicate Down(kinds: seq<Kind>, started: seq<bool>, phase: Phase) {
    forall i | 0 <= i < |kinds| && i < |started| && Precedes(kinds[i], phase) :: !started[i]
  }

  ghost predicate AllDown(started: seq<bool>) {
    forall i | 0 <= i < |started| :: !started[i]
  }

  /** What the phase relies on. */
  ghost predicate Ready(kinds: seq<Kind>, started: seq<bool>, order: seq<nat>, rollbackPending: bool, phase: Phase) {
    if phase.Rollback? then
      && rollbackPending && phase.left < |order|
      && (forall p | phase.left < p < |order| :: order[p] < |started| && !started[order[p]])
    else !rollbackPending && Down(kinds, started, phase)
  }

  ghost predicate ListFits(kinds: seq<Kind>, order: seq<nat>, phase: Phase, list: seq<nat>) {
    && NoDuplicates(list)
    && (forall i | i in list :: i < |kinds| && InPhase(kinds[i], phase))
    && (!phase.Rollback? ==> forall i | 0 <= i < |kinds| && InPhase(kinds[i], phase) :: i in list)
    && (phase.Rollback? && phase.left < |order| ==> list == [order[phase.left]])
  }

  /** Its stop was launched, unless it is not started. */
  ghost predicate UnderWay(started: seq<bool>, operations: seq<Operation>, i: nat) {
    i < |started| && i < |operations| && (started[i] ==> !operations[i].NoOperation?)
  }

  ghost predicate DriverSound(s: Life) {
    match s.driver
    case Idle => s.state != Starting
    case StartingUp(plan, next) =>
      && s.state == Starting && !s.rollbackPending && !s.beforeGraphDrained
      && next <= |plan| && NoDuplicates(plan) && Ranked(s.kinds, plan)
      && (forall j | 0 <= j < |s.kinds| && s.kinds[j] != Source :: j in plan)
      && s.order == plan[..next]
    case Launching(phase, list, next) =>
      && s.state == Stopping && Ready(s.kinds, s.started, s.order, s.rollbackPending, phase)
      && ListFits(s.kinds, s.order, phase, list) && next <= |list|
      && (forall p | 0 <= p < next :: UnderWay(s.started, s.operations, list[p]))
    case Awaiting(phase, list, next, failed) =>
      && s.state == Stopping && Ready(s.kinds, s.started, s.order, s.rollbackPending, phase)
      && ListFits(s.kinds, s.order, phase, list) && next <= |list|
      && (forall p | next <= p < |list| :: UnderWay(s.started, s.operations, list[p]))
      && (!failed ==> forall p | 0 <= p < next :: list[p] < |s.started| && !s.started[list[p]])
  }

  ghost predicate StateSound(s: Life) {
    && (s.state == Created ==> s.order == [] && s.driver.Idle? && !s.rollbackPending && !s.beforeGraphDrained)
    && (s.state == Stopped ==> AllDown(s.started) && s.driver.Idle?)
    && (s.beforeGraphDrained ==> Down(s.kinds, s.started, Sinks))
    && (s.rollbackPending ==> s.state == Stopping && !s.beforeGraphDrained)
    && (s.state == Running ==> s.driver.Idle?)
    && (s.state == Starting ==> AllUp(s.order, s.started, s.operations))
    && (s.rollbackPending ==> Stacked(s.order, s.started, s.operations))
  }

  ghost predicate Inv(s: Life) {
    AllFaithful(s) && DriverSound(s) && StateSound(s) && WellOrdered(s.kinds, s.log)
  }

  // ---------------------------------------------------------------- the log grows

  lemma LogGrows(log: seq<Event>, e: Event)
    ensures (log + [e])[..|log|] == log
    ensures Starts(log + [e]) == Starts(log) + (if e.Started? then [e.who] else [])
    ensures forall i: nat {:trigger Invocations(log + [e], i)} ::
              Invocations(log + [e], i) == Invocations(log, i) + if e.Invoked? && e.who == i then 1 else 0
    ensures forall i: nat {:trigger Returns(log + [e], i)} ::
              Returns(log + [e], i) == Returns(log, i) + if e.Returned? && e.who == i then 1 else 0
  {
    assert (log + [e])[..|log|] == log;
  }

  lemma StillOrdered(kinds: seq<Kind>, log: seq<Event>, e: Event)
    requires WellOrdered(kinds, log) && Allowed(kinds, log, e)
    ensures WellOrdered(kinds, log + [e])
  {
    assert (log + [e])[..|log|] == log;
    hide Allowed;
  }

  lemma {:induction false} AllowedAt(kinds: seq<Kind>, log: seq<Event>, p: nat)
    requires WellOrdered(kinds, log) && p < |log|
    ensures Allowed(kinds, log[..p], log[p])
  {
    hide Allowed;
    if p < |log| - 1 {
      AllowedAt(kinds, log[..|log| - 1], p);
      assert log[..|log| - 1][..p] == log[..p];
    }
  }

  // ---------------------------------------------------------------- one lemma per step

  lemma CallStartKeeps(s: Life, admission: bool)
    requires Inv(s) && Enabled(s, CallStart(admission))
    ensures Inv(Do(s, CallStart(admission)))
  {
    PlanIs(s.kinds, admission);
    hide Plan, WellOrdered, Booked;
  }

  lemma ListFitsPhase(s: Life, phase: Phase)
    requires phase.Rollback? ==> phase.left < |s.order| && s.order[phase.left] < |s.kinds|
    ensures Begin(s, phase).driver.Launching? && ListFits(s.kinds, s.order, phase, Begin(s, phase).driver.list)
  {
    if !phase.Rollback? { ListIs(s.kinds, phase); }
    hide ListOf;
  }

  lemma BeginKeeps(s: Life, phase: Phase)
    requires AllFaithful(s) && WellOrdered(s.kinds, s.log) && StateSound(s) && s.state == Stopping
    requires Ready(s.kinds, s.started, s.order, s.rollbackPending, phase)
    ensures Inv(Begin(s, phase))
  {
    assert phase.Rollback? ==> s.order[phase.left] in s.order;
    ListFitsPhase(s, phase);
    hide WellOrdered, ListOf, Booked, ListFits, NoDuplicates, Ready;
  }

  lemma RollBackKeeps(s: Life, left: nat)
    requires AllFaithful(s) && WellOrdered(s.kinds, s.log) && StateSound(s) && s.rollbackPending && left <= |s.order|
    requires forall p | left <= p < |s.order| :: s.order[p] < |s.started| && !s.started[s.order[p]]
    ensures Inv(RollBack(s, left))
  {
    hide WellOrdered;
    if left == 0 {
      forall i | 0 <= i < |s.started| ensures !s.started[i] {
        assert Faithful(s.started[i], s.operations[i], s.log, i);
        assert s.started[i] ==> i in s.order;
      }
      hide Booked;
    } else {
      hide Booked;
      BeginKeeps(s, Rollback(left - 1));
    }
  }

  lemma StartBooked(s: Life, i: nat)
    requires AllFaithful(s) && WellOrdered(s.kinds, s.log) && i < |s.kinds| && i !in s.order
    requires Ranked(s.kinds, s.order + [i]) && Complete(s.kinds, s.order + [i])
    ensures AllFaithful(s.(started := s.started[i := true], order := s.order + [i], log := s.log + [Started(i)]))
    ensures WellOrdered(s.kinds, s.log + [Started(i)])
  {
    LogGrows(s.log, Started(i));
    StillOrdered(s.kinds, s.log, Started(i));
    hide WellOrdered, Ranked, Complete;
    forall j | 0 <= j < |s.kinds|
      ensures Faithful(s.started[i := true][j], s.operations[j], s.log + [Started(i)], j)
    {
      assert Faithful(s.started[j], s.operations[j], s.log, j);
    }
  }

  /** A ranked plan that has every component but sources is worked off kind after kind. */
  lemma PrefixComplete(kinds: seq<Kind>, plan: seq<nat>, n: nat)
    requires Ranked(kinds, plan) && n <= |plan| && forall j | 0 <= j < |kinds| && kinds[j] != Source :: j in plan
    ensures Complete(kinds, plan[..n]) && Ranked(kinds, plan[..n])
  {
    forall q, j | 0 <= q < n && plan[q] < |kinds| && 0 <= j < |kinds| && StartsBefore(kinds[j], kinds[plan[q]])
      ensures j in plan[..n]
    {
      var p :| 0 <= p < |plan| && plan[p] == j;
      assert p < q;
      assert plan[..n][p] == j;
    }
    assert forall i | i in plan[..n] :: i in plan;
  }

  /** One more component is up. */
  lemma StillAllUp(s: Life, i: nat)
    requires AllFaithful(s) && AllUp(s.order, s.started, s.operations) && i < |s.kinds| && i !in s.order
    ensures AllUp(s.order + [i], s.started[i := true], s.operations)
    ensures Stacked(s.order + [i], s.started[i := true], s.operations)
  {
    assert Faithful(s.started[i], s.operations[i], s.log, i);
    var order := s.order + [i];
    forall p | 0 <= p < |order| ensures Up(s.started[i := true], s.operations, order[p]) {
      if p < |s.order| { assert Up(s.started, s.operations, s.order[p]); }
    }
  }

  /** The component that the plan names next is added to the books. */
  lemma StartedNext(s: Life, i: nat)
    requires AllFaithful(s) && WellOrdered(s.kinds, s.log) && DriverSound(s) && StateSound(s)
    requires Enabled(s, StartNext(true)) && i == s.driver.plan[s.driver.next]
    ensures i < |s.kinds| && i !in s.order && s.order + [i] == s.driver.plan[..s.driver.next + 1]
    ensures var r := s.(started := s.started[i := true], order := s.order + [i], log := s.log + [Started(i)]);
            && AllFaithful(r) && WellOrdered(r.kinds, r.log)
            && AllUp(r.order, r.started, r.operations) && Stacked(r.order, r.started, r.operations)
  {
    var d := s.driver;
    assert i in d.plan && i !in s.order;
    assert d.plan[..d.next + 1] == d.plan[..d.next] + [i];
    PrefixComplete(s.kinds, d.plan, d.next + 1);
    StartBooked(s, i);
    StillAllUp(s, i);
    hide WellOrdered, AllFaithful, AllUp, Stacked, Ranked, Complete, NoDuplicates;
  }

  lemma StartNextKeeps(s: Life, ok: bool)
    requires Inv(s) && Enabled(s, StartNext(ok))
    ensures Inv(Do(s, StartNext(ok)))
  {
    hide WellOrdered, Booked, Starts, AllUp, Stacked, Ranked, Complete, NoDuplicates;
    var i := s.driver.plan[s.driver.next];
    StartedNext(s, i);
    var r := s.(started := s.started[i := true], order := s.order + [i], log := s.log + [Started(i)]);
    if !ok {
      RollBackKeeps(r.(state := Stopping, rollbackPending := true), |r.order|);
    }
  }

  lemma StopBeforeKeeps(s: Life)
    requires Inv(s) && s.driver.Idle?
    ensures Inv(StopBefore(s))
  {
    hide WellOrdered;
    if s.state == Created {
      assert forall i | 0 <= i < |s.started| :: Faithful(s.started[i], s.operations[i], s.log, i);
    }
    hide Booked;
    if s.state != Created && s.state != Stopped {
      if s.rollbackPending {
        RollBackKeeps(s, |s.order|);
      } else if !s.beforeGraphDrained {
        BeginKeeps(s.(state := Stopping), Admission);
      }
    }
  }

  /** The component that a phase stops next may be stopped. */
  lemma LaunchAllowed(s: Life)
    requires Inv(s) && Enabled(s, Launch)
    ensures var i := s.driver.list[s.driver.next];
            s.started[i] && s.operations[i].NoOperation? ==> MayInvoke(s.kinds, s.log, i, s.driver.phase.Rollback?)
  {
    var i, phase := s.driver.list[s.driver.next], s.driver.phase;
    hide WellOrdered;
    assert i in s.driver.list;
    assert Faithful(s.started[i], s.operations[i], s.log, i);
    if s.started[i] && s.operations[i].NoOperation? {
      if phase.Rollback? {
        assert s.order[phase.left] == i;
        forall p, q | 0 <= p < q < |s.order| && s.order[p] == i ensures StoppedIn(s.log, s.order[q]) {
          assert s.order[q] in s.order;
          assert Faithful(s.started[s.order[q]], s.operations[s.order[q]], s.log, s.order[q]);
        }
        if PhaseOf(s.kinds[i]) == Executors { LaterIncludesAdmission(s.kinds, s.log, i, phase.left); }
      } else {
        forall j | 0 <= j < |s.kinds| && Precedes(s.kinds[j], phase) && j in Starts(s.log) ensures StoppedIn(s.log, j) {
          assert Faithful(s.started[j], s.operations[j], s.log, j);
        }
      }
    }
  }

  /** Sources and components are started after every pool and storage. */
  lemma LaterIncludesAdmission(kinds: seq<Kind>, log: seq<Event>, i: nat, at: nat)
    requires Ranked(kinds, Starts(log)) && at < |Starts(log)| && Starts(log)[at] == i < |kinds|
    requires PhaseOf(kinds[i]) == Executors && LaterStopped(log, i)
    ensures AllStopped(kinds, log, Executors)
  {
    forall j | 0 <= j < |kinds| && Precedes(kinds[j], Executors) && j in Starts(log) ensures StoppedIn(log, j) {
      var q :| 0 <= q < |Starts(log)| && Starts(log)[q] == j;
      assert Rank(kinds[i]) < Rank(kinds[j]);
      assert at < q;
    }
  }

  lemma LaunchBooked(s: Life, i: nat, rollback: bool)
    requires AllFaithful(s) && WellOrdered(s.kinds, s.log) && MayInvoke(s.kinds, s.log, i, rollback)
    requires s.started[i] && s.operations[i].NoOperation?
    ensures AllFaithful(s.(operations := s.operations[i := InFlight], log := s.log + [Invoked(i, rollback)]))
    ensures WellOrdered(s.kinds, s.log + [Invoked(i, rollback)])
  {
    LogGrows(s.log, Invoked(i, rollback));
    StillOrdered(s.kinds, s.log, Invoked(i, rollback));
    hide WellOrdered, MayInvoke;
    forall j | 0 <= j < |s.kinds|
      ensures Faithful(s.started[j], s.operations[i := InFlight][j], s.log + [Invoked(i, rollback)], j)
    {
      assert Faithful(s.started[j], s.operations[j], s.log, j);
    }
  }

  lemma LaunchDriver(s: Life)
    requires DriverSound(s) && Enabled(s, Launch)
    ensures DriverSound(LaunchOne(s))
  {
    var d, r := s.driver, LaunchOne(s);
    assert forall p | 0 <= p < d.next :: UnderWay(s.started, s.operations, d.list[p]);
    assert forall p | 0 <= p <= d.next :: UnderWay(r.started, r.operations, d.list[p]);
    hide Ready, ListFits, UnderWay;
  }

  /** The one component that a rollback stops is the last one that is up. */
  lemma LaunchStacked(s: Life)
    requires DriverSound(s) && Enabled(s, Launch) && s.driver.phase.Rollback? && NoDuplicates(s.order)
    requires Stacked(s.order, s.started, s.operations)
    ensures Stacked(s.order, s.started, LaunchOne(s).operations)
  {
    var order, left, r := s.order, s.driver.phase.left, LaunchOne(s);
    assert s.driver.list == [order[left]];
    forall p, q | 0 <= p < q < |order| && order[q] < |s.started| && s.started[order[q]]
      ensures Up(s.started, r.operations, order[p])
    {
      assert q <= left && order[p] != order[left];
      assert Up(s.started, s.operations, order[p]);
    }
  }

  lemma LaunchState(s: Life)
    requires DriverSound(s) && StateSound(s) && Enabled(s, Launch) && NoDuplicates(s.order)
    ensures StateSound(LaunchOne(s))
  {
    assert s.state == Stopping && (s.rollbackPending ==> s.driver.phase.Rollback?);
    if s.rollbackPending { LaunchStacked(s); }
    hide DriverSound, NoDuplicates, Stacked, Down, AllDown, AllUp;
  }

  lemma LaunchKeeps(s: Life)
    requires Inv(s) && Enabled(s, Launch)
    ensures Inv(LaunchOne(s))
  {
    var i := s.driver.list[s.driver.next];
    LaunchAllowed(s);
    LaunchDriver(s);
    LaunchState(s);
    hide WellOrdered, MayInvoke, AllFaithful, DriverSound, StateSound;
    if s.started[i] && s.operations[i].NoOperation? {
      LaunchBooked(s, i, s.driver.phase.Rollback?);
    }
  }

  /** The result of a finished stop is collected. */
  lemma AwaitBooked(s: Life, i: nat)
    requires AllFaithful(s) && i < |s.kinds| && s.started[i] && s.operations[i].Finished?
    ensures AllFaithful(s.(operations := s.operations[i := NoOperation],
                           started := if s.operations[i].ok then s.started[i := false] else s.started))
  {
    forall j | 0 <= j < |s.kinds|
      ensures Faithful(if j == i && s.operations[i].ok then false else s.started[j], s.operations[i := NoOperation][j],
                       s.log, j)
    {
      assert Faithful(s.started[j], s.operations[j], s.log, j);
    }
  }

  /** Components that go down do not disturb a phase. */
  lemma StillReady(kinds: seq<Kind>, started: seq<bool>, order: seq<nat>, rollbackPending: bool, phase: Phase, i: nat)
    requires Ready(kinds, started, order, rollbackPending, phase) && i < |started|
    ensures Ready(kinds, started[i := false], order, rollbackPending, phase)
  {
  }

  /** The other stops of the phase are still under way. */
  lemma OthersUnderWay(s: Life, timeout: bool)
    requires DriverSound(s) && Enabled(s, Await(timeout))
    ensures var d, r := s.driver, AwaitOne(s, timeout);
            forall p | d.next < p < |d.list| :: UnderWay(r.started, r.operations, d.list[p])
  {
    var d, r := s.driver, AwaitOne(s, timeout);
    var i := d.list[d.next];
    assert NoDuplicates(d.list);
    hide Ready, ListFits;
    forall p | d.next < p < |d.list| ensures UnderWay(r.started, r.operations, d.list[p]) {
      assert d.list[p] != i;
      assert UnderWay(s.started, s.operations, d.list[p]);
    }
  }

  lemma AwaitDriver(s: Life, timeout: bool)
    requires DriverSound(s) && Enabled(s, Await(timeout))
    ensures DriverSound(AwaitOne(s, timeout))
  {
    var d, i := s.driver, s.driver.list[s.driver.next];
    StillReady(s.kinds, s.started, s.order, s.rollbackPending, d.phase, i);
    OthersUnderWay(s, timeout);
    assert s.started[i] ==> UnderWay(s.started, s.operations, i);
    hide Ready, ListFits, UnderWay;
  }

  lemma AwaitState(s: Life, timeout: bool)
    requires StateSound(s) && DriverSound(s) && Enabled(s, Await(timeout)) && NoDuplicates(s.order)
    ensures StateSound(AwaitOne(s, timeout))
  {
    var i := s.driver.list[s.driver.next];
    assert UnderWay(s.started, s.operations, i);
    hide Ready, ListFits, UnderWay;
  }

  lemma AwaitKeeps(s: Life, timeout: bool)
    requires Inv(s) && Enabled(s, Await(timeout))
    ensures Inv(AwaitOne(s, timeout))
  {
    var i := s.driver.list[s.driver.next];
    assert i in s.driver.list && UnderWay(s.started, s.operations, i);
    AwaitDriver(s, timeout);
    AwaitState(s, timeout);
    hide WellOrdered, DriverSound, StateSound;
    if s.started[i] && !timeout {
      AwaitBooked(s, i);
    }
    hide AllFaithful;
  }

  /** Every component of a phase that did not fail is down. */
  lemma PhaseIsDown(s: Life)
    requires DriverSound(s) && Enabled(s, EndPhase) && !s.driver.failed && |s.started| == |s.kinds|
    ensures var phase := s.driver.phase;
            if phase.Rollback? then
              && phase.left < |s.order|
              && forall p | phase.left <= p < |s.order| :: s.order[p] < |s.started| && !s.started[s.order[p]]
            else
              forall i | 0 <= i < |s.kinds| && (Precedes(s.kinds[i], phase) || InPhase(s.kinds[i], phase)) ::
                !s.started[i]
  {
    var list := s.driver.list;
    assert forall i | i in list :: !s.started[i];
    if s.driver.phase.Rollback? { assert s.order[s.driver.phase.left] in list; }
  }

  lemma PhaseOverKeeps(s: Life)
    requires Inv(s) && Enabled(s, EndPhase)
    ensures Inv(PhaseOver(s))
  {
    if !s.driver.failed {
      PhaseIsDown(s);
      assert s.state == Stopping && s.rollbackPending == s.driver.phase.Rollback?;
      hide WellOrdered, Booked, Starts, Ranked, Complete, NoDuplicates, DriverSound, Stacked, AllUp;
      if s.driver.phase == Admission {
        BeginKeeps(s, Executors);
      } else if s.driver.phase.Rollback? {
        RollBackKeeps(s, s.driver.phase.left);
      }
    }
  }

  lemma ReturnBooked(s: Life, i: nat, ok: bool)
    requires AllFaithful(s) && WellOrdered(s.kinds, s.log) && i < |s.operations| && s.operations[i].InFlight?
    ensures AllFaithful(s.(operations := s.operations[i := Finished(ok)], log := s.log + [Returned(i, ok)]))
    ensures WellOrdered(s.kinds, s.log + [Returned(i, ok)])
  {
    LogGrows(s.log, Returned(i, ok));
    StillOrdered(s.kinds, s.log, Returned(i, ok));
    hide WellOrdered;
    forall j | 0 <= j < |s.kinds|
      ensures Faithful(s.started[j], s.operations[i := Finished(ok)][j], s.log + [Returned(i, ok)], j)
    {
      assert Faithful(s.started[j], s.operations[j], s.log, j);
    }
  }

  lemma ReturnDriver(s: Life, i: nat, ok: bool)
    requires DriverSound(s) && Enabled(s, OperationReturns(i, ok))
    ensures DriverSound(Do(s, OperationReturns(i, ok)))
  {
    var operations := s.operations[i := Finished(ok)];
    assert forall j: nat :: UnderWay(s.started, s.operations, j) ==> UnderWay(s.started, operations, j);
    hide Ready, ListFits, UnderWay, Ranked, NoDuplicates;
  }

  lemma ReturnState(s: Life, i: nat, ok: bool)
    requires StateSound(s) && Enabled(s, OperationReturns(i, ok))
    ensures StateSound(Do(s, OperationReturns(i, ok)))
  {
    var operations := s.operations[i := Finished(ok)];
    assert forall j: nat :: Up(s.started, s.operations, j) ==> Up(s.started, operations, j);
    hide Up, Down, AllDown;
  }

  lemma ReturnKeeps(s: Life, i: nat, ok: bool)
    requires Inv(s) && Enabled(s, OperationReturns(i, ok))
    ensures Inv(Do(s, OperationReturns(i, ok)))
  {
    ReturnBooked(s, i, ok);
    ReturnDriver(s, i, ok);
    ReturnState(s, i, ok);
    hide WellOrdered, AllFaithful, DriverSound, StateSound;
  }

  lemma StepKeeps(s: Life, step: Step)
    requires Inv(s) && Enabled(s, step)
    ensures Inv(Do(s, step))
  {
    match step
    case CallStart(admission) => CallStartKeeps(s, admission);
    case StartNext(ok) => StartNextKeeps(s, ok);
    case CallStopBefore => StopBeforeKeeps(s);
    case CallStopAfter => BeginKeeps(s, Sinks);
    case Launch => LaunchKeeps(s);
    case Await(timeout) => AwaitKeeps(s, timeout);
    case EndPhase => PhaseOverKeeps(s);
    case OperationReturns(i, ok) => ReturnKeeps(s, i, ok);
    case StartDone => StartDoneKeeps(s);
    case Launched => LaunchedKeeps(s);
  }

  lemma StartDoneKeeps(s: Life)
    requires Inv(s) && Enabled(s, StartDone)
    ensures Inv(Do(s, StartDone))
  {
    hide WellOrdered, Booked;
  }

  lemma LaunchedKeeps(s: Life)
    requires Inv(s) && Enabled(s, Launched)
    ensures Inv(Do(s, Launched))
  {
    hide WellOrdered, Booked, ListFits, Ready;
  }

  lemma InitiallyHolds(kinds: seq<Kind>)
    ensures Inv(Registered(kinds))
  {
    assert forall i: nat :: Faithful(false, NoOperation, [], i);
  }

  lemma {:induction false} RunKeeps(kinds: seq<Kind>, steps: seq<Step>)
    requires Run(kinds, steps).Some?
    ensures Inv(Run(kinds, steps).value) && Run(kinds, steps).value.kinds == kinds
  {
    hide Inv, Enabled;
    if steps == [] {
      InitiallyHolds(kinds);
    } else {
      RunKeeps(kinds, steps[..|steps| - 1]);
      StepKeeps(Run(kinds, steps[..|steps| - 1]).value, steps[|steps| - 1]);
    }
  }

  // ---------------------------------------------------------------- main results

  /**
   The phase barrier, over any sequence of timed-out, failed and retried stops: every stop call in the log was allowed
   by what happened before it.
   */
  lemma PhaseBarrier(kinds: seq<Kind>, steps: seq<Step>, p: nat)
    requires Run(kinds, steps).Some? && p < |Run(kinds, steps).value.log| && Run(kinds, steps).value.log[p].Invoked?
    ensures var log := Run(kinds, steps).value.log;
            MayInvoke(kinds, log[..p], log[p].who, log[p].rollback)
  {
    RunKeeps(kinds, steps);
    var log := Run(kinds, steps).value.log;
    AllowedAt(kinds, log, p);
  }

  /**
   In a rollback a data sink is stopped after everything else, as in a regular stop, if and only if nothing but data
   sinks and data sources is registered.
   */
  lemma RollbackStopsSinksLastIff(kinds: seq<Kind>, steps: seq<Step>, p: nat)
    requires Run(kinds, steps).Some? && p < |Run(kinds, steps).value.log|
    requires var e := Run(kinds, steps).value.log[p];
             e.Invoked? && e.rollback && e.who < |kinds| && kinds[e.who] == Sink
    ensures AllStopped(kinds, Run(kinds, steps).value.log[..p], Sinks) <==> OnlySinksAndSources(kinds)
  {
    PhaseBarrier(kinds, steps, p);
    hide Run, AllStopped, OnlySinksAndSources, LaterStopped;
  }

  /** A lifecycle that has stopped has stopped every component that it started, and none has a stop in flight. */
  lemma StoppedStopsAll(kinds: seq<Kind>, steps: seq<Step>, i: nat)
    requires Run(kinds, steps).Some? && Run(kinds, steps).value.state == Stopped && i < |kinds|
    ensures var s := Run(kinds, steps).value;
            && (i in Starts(s.log) ==> StoppedIn(s.log, i))
            && Invocations(s.log, i) == Returns(s.log, i)
  {
    RunKeeps(kinds, steps);
    var s := Run(kinds, steps).value;
    assert Faithful(s.started[i], s.operations[i], s.log, i);
  }

  // ---------------------------------------------------------------- what a rollback does not promise

  const COMPONENT_AND_SINK: seq<Kind> := [Component, Sink]

  /** Two different numbers below two, in order. */
  lemma OnlyTwo(q: seq<nat>, a: nat, b: nat)
    requires NoDuplicates(q) && a < |q| && b < |q| && q[a] == 0 && q[b] == 1 && a < b
    requires forall k | 0 <= k < |q| :: q[k] < 2
    ensures q == [0, 1]
  {
    var third := if |q| > 2 then q[2] else 0;
    assert forall k | 0 <= k < |q| :: (q[k] == 0 ==> k == a) && (q[k] == 1 ==> k == b);
    assert third < 2;
    assert q[0] == 0 && q[1] == 1;
  }

  lemma PlanOfTwo()
    ensures Plan(COMPONENT_AND_SINK, false) == [0, 1]
  {
    PlanIs(COMPONENT_AND_SINK, false);
    var plan := Plan(COMPONENT_AND_SINK, false);
    assert 0 in plan && 1 in plan;
    var a :| 0 <= a < |plan| && plan[a] == 0;
    var b :| 0 <= b < |plan| && plan[b] == 1;
    assert Rank(COMPONENT_AND_SINK[0]) < Rank(COMPONENT_AND_SINK[1]);
    assert forall k | 0 <= k < |plan| :: plan[k] in plan;
    OnlyTwo(plan, a, b);
  }

  /** One more step of a concrete run, with the state it leads to. */
  lemma Then(s: Life, steps: seq<Step>, step: Step, after: Life) returns (s': Life, steps': seq<Step>)
    requires Run(COMPONENT_AND_SINK, steps) == Some(s) && Enabled(s, step) && Do(s, step) == after
    ensures s' == after && Run(COMPONENT_AND_SINK, steps') == Some(after)
  {
    assert (steps + [step])[..|steps|] == steps;
    return after, steps + [step];
  }

  /** A component is up and the data sink after it fails to start. */
  lemma SinkFails() returns (s: Life, steps: seq<Step>)
    ensures Run(COMPONENT_AND_SINK, steps) == Some(s)
    ensures s == Life(COMPONENT_AND_SINK, [true, true], [NoOperation, NoOperation], [0, 1], Stopping, true, false,
                      Launching(Rollback(1), [1], 0), [Started(0)] + [Started(1)])
  {
    s, steps := Registered(COMPONENT_AND_SINK), [];
    assert Run(COMPONENT_AND_SINK, steps) == Some(s);
    PlanOfTwo();
    hide Run, Plan;
    s, steps := Then(s, steps, CallStart(false), s.(state := Starting, driver := StartingUp([0, 1], 0)));
    s, steps := Then(s, steps, StartNext(true),
                     s.(started := [true, false], order := [0], log := [Started(0)], driver := StartingUp([0, 1], 1)));
    s, steps := Then(s, steps, StartNext(false),
                     Life(COMPONENT_AND_SINK, [true, true], [NoOperation, NoOperation], [0, 1], Stopping, true, false,
                          Launching(Rollback(1), [1], 0), [Started(0)] + [Started(1)]));
  }

  lemma ComponentStillUp()
    ensures !AllStopped(COMPONENT_AND_SINK, [Started(0)] + [Started(1)], Sinks)
  {
    LogGrows([], Started(0));
    LogGrows([Started(0)], Started(1));
    assert Starts([]) == [] && [] + [Started(0)] == [Started(0)];
    assert 0 in Starts([Started(0)] + [Started(1)]);
    assert !StoppedIn([Started(0)] + [Started(1)], 0) && Precedes(COMPONENT_AND_SINK[0], Sinks);
  }

  /** A rollback goes by the start order alone: it stops a data sink while a component is still up. */
  lemma RollbackStopsSinkBeforeComponent() returns (s: Life, steps: seq<Step>)
    ensures Run(COMPONENT_AND_SINK, steps) == Some(s) && s.log == [Started(0)] + [Started(1)] + [Invoked(1, true)]
    ensures !AllStopped(COMPONENT_AND_SINK, [Started(0)] + [Started(1)], Sinks)
    ensures PhaseOf(COMPONENT_AND_SINK[1]) == Sinks
  {
    hide Run, AllStopped;
    s, steps := SinkFails();
    ComponentStillUp();
    assert [NoOperation, NoOperation][1 := InFlight] == [NoOperation, InFlight];
    var after := s.(operations := [NoOperation, InFlight], driver := Launching(Rollback(1), [1], 1),
                    log := s.log + [Invoked(1, true)]);
    assert Enabled(s, Launch) && LaunchOne(s) == after;
    s, steps := Then(s, steps, Launch, after);
  }
}
