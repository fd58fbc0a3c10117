/**
 The delay pool with its list of cancelled tasks as it is built: an atomic head pointer, a next pointer in each task,
 and a scheduler that walks the pointers.

 Pushing a task is the loop of `CancelInbox`, and draining follows the pointers; the sequences of `DelayProtocol` are no
 longer looked at. Every run is nevertheless a run of `DelayProtocol`, so that all its results hold here, too.
 */
module DelayInbox {
  import D = DelayProtocol
  import I = CancelInbox
  import opened Options

  datatype Pool = Pool(
    delays: D.Pool, list: I.Inbox,
    moves: seq<D.Step>, accesses: seq<I.Step>)   // history: what happened, seen as the pool and seen as the list

  function Initial(now: int): Pool {
    Pool(D.Initial(now), I.INITIAL, [], [])
  }

  datatype Step =
    | Move(step: D.Step)
    | Load(task: nat)
    | Link(task: nat)
    | Swing(task: nat, own: bool, spurious: bool)
    | TakeAll
    | Walk
    | WalkDone

  /** Neither pushes a task nor drains the list. */
  predicate Direct(step: D.Step) {
    && (step.ByCall? ==> !step.act.Push? && !step.act.PushOwn?)
    && (step.ByScheduler? ==> !step.move.Exchange? && !step.move.DrainOne? && !step.move.DrainDone?)
  }

  /** The exchange of cancellationPublished that wins. */
  predicate Publishes(p: D.Pool, step: D.Step) {
    step.ByCall? && step.task < |p.delays| &&
    var d := p.delays[step.task];
    !d.published && ((step.act.CheckRequested? && d.cancelRequested) || (step.act.LookAdmitted? && d.admitted))
  }

  function Pushing(own: bool): D.CallStep {
    if own then D.PushOwn else D.Push
  }

  /** The compare-and-exchange succeeds. */
  predicate Hits(list: I.Inbox, n: nat, spurious: bool)
    requires I.Enabled(list, I.Swing(n, spurious))
  {
    list.head == list.publishers[n].head && !spurious
  }

  predicate Can(s: Pool, step: Step) {
    match step
    case Move(m) =>
      D.Enabled(s.delays, m) && Direct(m) && (Publishes(s.delays, m) ==> I.Enabled(s.list, I.Announce(m.task)))
    case Load(n) => I.Enabled(s.list, I.Load(n))
    case Link(n) => I.Enabled(s.list, I.Link(n))
    case Swing(n, own, spurious) =>
      I.Enabled(s.list, I.Swing(n, spurious)) && D.CallCan(s.delays, n, Pushing(own))
    case TakeAll => s.delays.scheduler.AtTop? && I.Enabled(s.list, I.Exchange)
    case Walk =>
      && s.delays.scheduler.Draining? && s.delays.lock.None?
      && I.Enabled(s.list, I.Advance) && s.list.cursor.value < |s.delays.delays|
    case WalkDone => s.delays.scheduler.Draining? && s.list.cursor.None?
  }

  /** The task that the walk has come to is due at once, if it is still queued. */
  function Visited(p: D.Pool, n: nat): D.Pool
    requires p.scheduler.Draining? && n < |p.delays|
  {
    D.With(p, n, p.delays[n].(notice := D.Drained)).(
      scheduler := p.scheduler.(rest := if p.scheduler.rest == [] then [] else p.scheduler.rest[1..]),
      drained := p.drained + [n], queue := if n in p.queue then p.queue[n := D.MIN_TIME] else p.queue)
  }

  /** Something happens to the pool, to the list, or to both. */
  function After(s: Pool, delays: D.Pool, list: I.Inbox, moves: seq<D.Step>, accesses: seq<I.Step>): Pool {
    Pool(delays, list, s.moves + moves, s.accesses + accesses)
  }

  function Does(s: Pool, step: Step): Pool
    requires Can(s, step)
  {
    match step
    case Move(m) =>
      if Publishes(s.delays, m) then
        After(s, D.Do(s.delays, m), I.Do(s.list, I.Announce(m.task)), [m], [I.Announce(m.task)])
      else After(s, D.Do(s.delays, m), s.list, [m], [])
    case Load(n) => After(s, s.delays, I.Do(s.list, I.Load(n)), [], [I.Load(n)])
    case Link(n) => After(s, s.delays, I.Do(s.list, I.Link(n)), [], [I.Link(n)])
    case Swing(n, own, spurious) =>
      var list, access := I.Do(s.list, I.Swing(n, spurious)), [I.Swing(n, spurious)];
      if Hits(s.list, n, spurious) then
        After(s, D.CallDoes(s.delays, n, Pushing(own)), list, [D.ByCall(n, Pushing(own))], access)
      else After(s, s.delays, list, [], access)
    case TakeAll =>
      After(s, D.SchedulerDoes(s.delays, D.Exchange), I.Do(s.list, I.Exchange),
            [D.ByScheduler(D.Exchange)], [I.Exchange])
    case Walk =>
      After(s, Visited(s.delays, s.list.cursor.value), I.Do(s.list, I.Advance),
            [D.ByScheduler(D.DrainOne)], [I.Advance])
    case WalkDone =>
      var p := s.delays.(scheduler := if s.delays.scheduler.final then D.Exited else D.Looking);
      After(s, p, s.list, [D.ByScheduler(D.DrainDone)], [])
  }

  function Run(now: int, steps: seq<Step>): Option<Pool> {
    if steps == [] then Some(Initial(now)) else
    var before, step := Run(now, steps[..|steps| - 1]), steps[|steps| - 1];
    if before.Some? && Can(before.value, step) then Some(Does(before.value, step)) else None
  }

  // ---------------------------------------------------------------- what links the pool to its list

  function Rest(scheduler: D.Scheduler): seq<nat> {
    if scheduler.Draining? then scheduler.rest else []
  }

  /** The task has won the right to be pushed; its publisher is in the loop. */
  predicate Announced(p: D.Pool, n: nat) {
    n < |p.delays| && p.delays[n].published
  }

  predicate OnItsWay(p: D.Pool, n: nat) {
    n < |p.delays| && p.delays[n].notice == D.OnItsWay
  }

  /** The sequences of the pool are the lists that the pointers spell, and the publishers are known to both. */
  ghost predicate Agree(p: D.Pool, list: I.Inbox) {
    && p.inbox == list.stack && Rest(p.scheduler) == list.left
    && (forall n: nat :: n in list.published <==> Announced(p, n))
    && (forall n: nat :: n in list.publishers <==> OnItsWay(p, n))
  }

  /** The histories lead to the state. */
  ghost predicate Told(now: int, s: Pool) {
    D.Run(now, s.moves) == Some(s.delays) && I.Run(s.accesses) == Some(s.list)
  }

  // ---------------------------------------------------------------- direct moves

  /** What a direct move does to the marks of the tasks. */
  ghost predicate Marks(p: D.Pool, r: D.Pool, publishes: bool, task: nat) {
    && r.inbox == p.inbox && Rest(r.scheduler) == Rest(p.scheduler)
    && (forall n: nat :: Announced(r, n) <==> Announced(p, n) || (publishes && n == task))
    && (forall n: nat :: OnItsWay(r, n) <==> OnItsWay(p, n) || (publishes && n == task))
  }

  lemma EffectMarks(d: D.Delay, act: D.CallStep, spawned: nat)
    requires !act.Push? && !act.PushOwn?
    ensures var e := D.CallEffect(d, act, spawned);
            var wins := && !d.published
                        && ((act.CheckRequested? && d.cancelRequested) || (act.LookAdmitted? && d.admitted));
            && (e.published <==> d.published || wins)
            && (e.notice == D.OnItsWay <==> d.notice == D.OnItsWay || wins)
  {
  }

  lemma CallMarks(p: D.Pool, i: nat, act: D.CallStep)
    requires D.CallCan(p, i, act) && Direct(D.ByCall(i, act))
    ensures Marks(p, D.CallDoes(p, i, act), Publishes(p, D.ByCall(i, act)), i)
  {
    hide D.CallEffect;
    EffectMarks(p.delays[i], act, p.spawned);
    var r := D.CallDoes(p, i, act);
    assert r.delays == p.delays[i := D.CallEffect(p.delays[i], act, p.spawned)];
    assert r.inbox == p.inbox && Rest(r.scheduler) == Rest(p.scheduler);
    hide D.CallDoes, D.CallCan;
  }

  lemma SchedulerMarks(p: D.Pool, step: D.SchedulerStep)
    requires D.SchedulerCan(p, step) && Direct(D.ByScheduler(step))
    ensures Marks(p, D.SchedulerDoes(p, step), false, 0)
  {
    hide D.First;
  }

  lemma CoroutineMarks(p: D.Pool, c: nat, step: D.CoroutineStep)
    requires D.CoroutineCan(p, c, step)
    ensures Marks(p, D.CoroutineDoes(p, c, step), false, 0)
  {
  }

  lemma PoolMarks(p: D.Pool, step: D.PoolStep)
    requires D.PoolCan(p, step)
    ensures Marks(p, D.PoolDoes(p, step), false, 0)
  {
  }

  /** The task whose publication the move wins, if it does. */
  function Winner(step: D.Step): nat {
    if step.ByCall? then step.task else 0
  }

  lemma MoveMarks(p: D.Pool, step: D.Step)
    requires D.Enabled(p, step) && Direct(step)
    ensures Marks(p, D.Do(p, step), Publishes(p, step), Winner(step))
  {
    hide Marks, D.CallCan, D.SchedulerCan, D.CoroutineCan, D.PoolCan;
    hide D.CallDoes, D.SchedulerDoes, D.CoroutineDoes, D.PoolDoes;
    match step
    case ByCall(i, act) => CallMarks(p, i, act);
    case ByScheduler(move) => SchedulerMarks(p, move);
    case ByCoroutine(c, progress) => CoroutineMarks(p, c, progress);
    case ByPool(deed) => PoolMarks(p, deed);
  }

  lemma MoveAgrees(s: Pool, m: D.Step)
    requires Agree(s.delays, s.list) && Can(s, Move(m))
    ensures Agree(Does(s, Move(m)).delays, Does(s, Move(m)).list)
  {
    hide D.Enabled, D.Do, Direct;
    MoveMarks(s.delays, m);
  }

  // ---------------------------------------------------------------- pushing and draining

  lemma PushAgrees(p: D.Pool, list: I.Inbox, n: nat, own: bool, spurious: bool)
    requires Agree(p, list) && I.Inv(list)
    requires I.Enabled(list, I.Swing(n, spurious)) && D.CallCan(p, n, Pushing(own)) && Hits(list, n, spurious)
    ensures Agree(D.CallDoes(p, n, Pushing(own)), I.Do(list, I.Swing(n, spurious)))
  {
  }

  lemma TakeAllAgrees(p: D.Pool, list: I.Inbox)
    requires Agree(p, list) && I.Inv(list) && p.scheduler.AtTop? && I.Enabled(list, I.Exchange)
    ensures Agree(D.SchedulerDoes(p, D.Exchange), I.Do(list, I.Exchange))
  {
  }

  /** The walk visits the task that is next in the list that was taken. */
  lemma WalkIsDrain(p: D.Pool, list: I.Inbox)
    requires Agree(p, list) && I.Inv(list) && p.scheduler.Draining? && p.lock.None?
    requires I.Enabled(list, I.Advance) && list.cursor.value < |p.delays|
    ensures D.SchedulerCan(p, D.DrainOne) && Visited(p, list.cursor.value) == D.SchedulerDoes(p, D.DrainOne)
  {
    hide Announced, OnItsWay;
    I.AdvanceKeeps(list);
  }

  lemma WalkAgrees(p: D.Pool, list: I.Inbox)
    requires Agree(p, list) && I.Inv(list) && p.scheduler.Draining?
    requires I.Enabled(list, I.Advance) && list.cursor.value < |p.delays|
    ensures Agree(Visited(p, list.cursor.value), I.Do(list, I.Advance))
  {
    I.AdvanceKeeps(list);
    var n := list.cursor.value;
    assert n in list.left && n !in list.publishers;
  }

  lemma WalkEndsWithList(p: D.Pool, list: I.Inbox)
    requires Agree(p, list) && I.Inv(list) && p.scheduler.Draining? && list.cursor.None?
    ensures D.SchedulerCan(p, D.DrainDone)
    ensures Agree(D.SchedulerDoes(p, D.DrainDone), list)
  {
  }

  // ---------------------------------------------------------------- every run

  lemma OneMoreMove(now: int, moves: seq<D.Step>, p: D.Pool, step: D.Step)
    requires D.Run(now, moves) == Some(p) && D.Enabled(p, step)
    ensures D.Run(now, moves + [step]) == Some(D.Do(p, step))
  {
    assert (moves + [step])[..|moves|] == moves;
    hide D.Enabled, D.Do;
  }

  lemma OneMoreAccess(accesses: seq<I.Step>, list: I.Inbox, step: I.Step)
    requires I.Run(accesses) == Some(list) && I.Enabled(list, step)
    ensures I.Run(accesses + [step]) == Some(I.Do(list, step))
  {
    assert (accesses + [step])[..|accesses|] == accesses;
    hide I.Enabled, I.Do;
  }

  /** A publisher goes round its loop. */
  predicate Loops(list: I.Inbox, n: nat, access: I.Step)
    requires I.Enabled(list, access)
  {
    || access == I.Load(n) || access == I.Link(n)
    || (access.Swing? && access.task == n && !Hits(list, n, access.spurious))
  }

  lemma LoopAgrees(p: D.Pool, list: I.Inbox, n: nat, access: I.Step)
    requires Agree(p, list) && I.Enabled(list, access) && Loops(list, n, access)
    ensures Agree(p, I.Do(list, access))
  {
    var r := I.Do(list, access);
    assert r.publishers.Keys == list.publishers.Keys;
    assert forall m: nat :: m in r.publishers <==> m in list.publishers.Keys;
  }

  ghost predicate Holds(now: int, s: Pool) {
    Told(now, s) && Agree(s.delays, s.list)
  }

  lemma MoveKeeps(now: int, s: Pool, m: D.Step)
    requires Holds(now, s) && Can(s, Move(m))
    ensures Holds(now, Does(s, Move(m)))
  {
    hide D.Run, I.Run, Agree, D.Enabled, D.Do, I.Enabled, I.Do, Direct;
    MoveAgrees(s, m);
    OneMoreMove(now, s.moves, s.delays, m);
    assert s.accesses + [] == s.accesses;
    if Publishes(s.delays, m) { OneMoreAccess(s.accesses, s.list, I.Announce(m.task)); }
  }

  lemma LoopKeeps(now: int, s: Pool, n: nat, access: I.Step)
    requires Holds(now, s) && I.Enabled(s.list, access) && Loops(s.list, n, access)
    ensures Holds(now, After(s, s.delays, I.Do(s.list, access), [], [access]))
  {
    LoopAgrees(s.delays, s.list, n, access);
    OneMoreAccess(s.accesses, s.list, access);
    assert s.moves + [] == s.moves;
    hide *;
  }

  lemma PushKeeps(now: int, s: Pool, n: nat, own: bool)
    requires Holds(now, s) && I.Inv(s.list) && Can(s, Swing(n, own, false)) && Hits(s.list, n, false)
    ensures Holds(now, Does(s, Swing(n, own, false)))
  {
    hide D.Run, I.Run, Agree, D.CallCan, D.CallDoes, I.Enabled, I.Do, I.Inv;
    PushAgrees(s.delays, s.list, n, own, false);
    OneMoreMove(now, s.moves, s.delays, D.ByCall(n, Pushing(own)));
    OneMoreAccess(s.accesses, s.list, I.Swing(n, false));
  }

  lemma DrainKeeps(now: int, s: Pool, step: Step)
    requires Holds(now, s) && I.Inv(s.list) && Can(s, step) && (step.TakeAll? || step.Walk? || step.WalkDone?)
    ensures Holds(now, Does(s, step))
  {
    hide D.Run, I.Run, Agree, I.Do, I.Inv, Visited;
    if step.TakeAll? {
      TakeAllAgrees(s.delays, s.list);
      OneMoreMove(now, s.moves, s.delays, D.ByScheduler(D.Exchange));
      OneMoreAccess(s.accesses, s.list, I.Exchange);
    } else if step.Walk? {
      WalkIsDrain(s.delays, s.list);
      WalkAgrees(s.delays, s.list);
      OneMoreMove(now, s.moves, s.delays, D.ByScheduler(D.DrainOne));
      OneMoreAccess(s.accesses, s.list, I.Advance);
    } else {
      WalkEndsWithList(s.delays, s.list);
      OneMoreMove(now, s.moves, s.delays, D.ByScheduler(D.DrainDone));
      assert s.accesses + [] == s.accesses;
    }
  }

  lemma StepKeeps(now: int, s: Pool, step: Step)
    requires Holds(now, s) && I.Inv(s.list) && Can(s, step)
    ensures Holds(now, Does(s, step))
  {
    hide Holds, I.Inv, I.Do, D.Do, D.Enabled, D.CallCan, D.CallDoes, Visited;
    match step
    case Move(m) => MoveKeeps(now, s, m);
    case Load(n) => LoopKeeps(now, s, n, I.Load(n));
    case Link(n) => LoopKeeps(now, s, n, I.Link(n));
    case Swing(n, own, spurious) =>
      if Hits(s.list, n, spurious) { PushKeeps(now, s, n, own); } else { LoopKeeps(now, s, n, I.Swing(n, spurious)); }
    case TakeAll => DrainKeeps(now, s, step);
    case Walk => DrainKeeps(now, s, step);
    case WalkDone => DrainKeeps(now, s, step);
  }

  lemma InitiallyHolds(now: int)
    ensures Holds(now, Initial(now))
  {
  }

  lemma {:induction false} RunKeeps(now: int, steps: seq<Step>)
    requires Run(now, steps).Some?
    ensures Holds(now, Run(now, steps).value)
  {
    hide Holds, Can, Does;
    if steps == [] {
      InitiallyHolds(now);
    } else {
      var before := steps[..|steps| - 1];
      RunKeeps(now, before);
      ListSound(now, Run(now, before).value);
      StepKeeps(now, Run(now, before).value, steps[|steps| - 1]);
    }
  }

  lemma ListSound(now: int, s: Pool)
    requires Holds(now, s)
    ensures I.Inv(s.list)
  {
    hide I.Inv;
    I.RunKeeps(s.accesses);
  }

  // ---------------------------------------------------------------- main results

  /**
   Every run with the pointers is a run of the pool, and seen from the list a run of the list: whatever holds in every
   run of either holds here.
   */
  lemma RunsThePool(now: int, steps: seq<Step>)
    requires Run(now, steps).Some?
    ensures var s := Run(now, steps).value;
            D.Run(now, s.moves) == Some(s.delays) && I.Run(s.accesses) == Some(s.list)
  {
    hide Run, D.Run, I.Run;
    RunKeeps(now, steps);
  }

  /** The pointers spell the sequences of the pool, and a task is between publication and push in both or in neither. */
  lemma PointersSpellInbox(now: int, steps: seq<Step>)
    requires Run(now, steps).Some?
    ensures var s := Run(now, steps).value;
            && I.Chain(s.list.head, s.list.next, s.delays.inbox)
            && I.Chain(s.list.cursor, s.list.next, Rest(s.delays.scheduler))
            && forall n: nat :: n in s.list.publishers <==> OnItsWay(s.delays, n)
  {
    hide Run, Told, I.Chain;
    RunKeeps(now, steps);
    ListSound(now, Run(now, steps).value);
  }

  lemma AnnounceIsFree(p: D.Pool, list: I.Inbox, m: D.Step)
    requires Agree(p, list) && I.Inv(list) && Publishes(p, m)
    ensures I.Enabled(list, I.Announce(m.task))
  {
    assert !Announced(p, m.task);
  }

  lemma WalkIsFree(p: D.Pool, list: I.Inbox)
    requires Agree(p, list) && I.Inv(list) && D.NoticesOnce(p)
    ensures p.scheduler.AtTop? ==> I.Enabled(list, I.Exchange)
    ensures p.scheduler.Draining? && list.cursor.Some? ==>
              I.Enabled(list, I.Advance) && list.cursor.value < |p.delays|
  {
    if p.scheduler.Draining? && list.cursor.Some? { assert list.left[0] in list.left; }
  }

  /** Whoever is on the way to push its task can take a step of its loop. */
  predicate MayGoOn(s: Pool, n: nat) {
    Can(s, Load(n)) || Can(s, Link(n)) || Can(s, Swing(n, true, false)) || Can(s, Swing(n, false, false))
  }

  lemma PublisherIsFree(s: Pool, n: nat)
    requires Agree(s.delays, s.list) && OnItsWay(s.delays, n) && D.DelaySound(s.delays.delays[n])
    ensures MayGoOn(s, n)
  {
    assert n in s.list.publishers;
    assert D.CallCan(s.delays, n, D.Push) || D.CallCan(s.delays, n, D.PushOwn);
  }

  /**
   Nothing is held up: what the pool may do it may do here, a publisher can go on, and a scheduler that drains can go on
   or is through.
   */
  lemma NotHeldUp(now: int, steps: seq<Step>)
    requires 0 <= now && Run(now, steps).Some?
    ensures var s := Run(now, steps).value;
            && (forall m | D.Enabled(s.delays, m) && Direct(m) :: Can(s, Move(m)))
            && (forall n: nat | OnItsWay(s.delays, n) :: MayGoOn(s, n))
            && (s.delays.scheduler.AtTop? ==> Can(s, TakeAll))
            && (s.delays.scheduler.Draining? && s.delays.lock.None? ==> Can(s, Walk) || Can(s, WalkDone))
  {
    hide Run, D.Run, I.Run, Agree, I.Inv, D.NoticesOnce, I.Enabled, D.Enabled, Direct, Publishes, MayGoOn;
    RunKeeps(now, steps);
    var s := Run(now, steps).value;
    ListSound(now, s);
    D.RunKeeps(now, s.moves);
    WalkIsFree(s.delays, s.list);
    forall m | D.Enabled(s.delays, m) && Direct(m) ensures Can(s, Move(m)) {
      if Publishes(s.delays, m) { AnnounceIsFree(s.delays, s.list, m); }
    }
    forall n: nat | OnItsWay(s.delays, n) ensures MayGoOn(s, n) {
      assert D.TaskSound(s.delays, n);
      PublisherIsFree(s, n);
    }
  }
}
