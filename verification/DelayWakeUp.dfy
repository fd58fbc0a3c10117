/**
 How the delay pool's scheduler is woken: the protocol of `DelayProtocol` with the event on which the scheduler sleeps.

 The event is set by Send() and taken by the scheduler when it wakes up. Send() is a step of its own, after the change
 that it reports. A delay() call reports its timer only when that timer is the first in the queue.
 */
module DelayWakeUp {
  import opened DelayProtocol
  import opened Options

  const BACK_OFF: int := 1_000_000   // nanoseconds

  /** The scheduler sleeps until the first timer is due, or for a moment after a task could not be started. */
  datatype Sleep = Sleep(until: Option<int>, backOff: bool)

  /** Who still has to call Send(). */
  datatype Sender = Inserter(task: nat) | Publisher(task: nat) | Canceller(task: nat) | Stopper

  datatype Watch = Watch(pool: Pool, event: bool, owed: set<Sender>, sleep: Option<Sleep>)

  datatype WatchStep =
    | Move(step: Step)
    | Doze(first: Option<nat>)
    | Send(who: Sender)
    | WakeUp

  function StartWatch(now: int): Watch {
    Watch(Initial(now), false, {}, None)
  }

  /** The new timer comes before all others; behind those with the same time. */
  predicate ComesFirst(p: Pool, r: Pool, i: nat) {
    i in r.queue && forall j | j in p.queue :: r.queue[i] < p.queue[j]
  }

  /** Who has to call Send() after the step. */
  function Owes(p: Pool, step: Step): set<Sender>
    requires Enabled(p, step)
  {
    match step
    case ByCall(i, Insert) => if ComesFirst(p, Do(p, step), i) then {Inserter(i)} else {}
    case ByCall(i, PushOwn) => {Publisher(i)}
    case ByCall(i, Push) => {Canceller(i)}
    case ByPool(StopScheduler) => {Stopper}
    case _ => {}
  }

  predicate Can(w: Watch, step: WatchStep) {
    match step
    case Move(m) => Enabled(w.pool, m) && (m.ByScheduler? ==> w.sleep.None? && !m.move.Idle?)
    case Doze(first) =>
      && w.sleep.None? && SchedulerCan(w.pool, Idle)
      && if first.Some? then First(w.pool.queue, first.value) else w.pool.queue == map[]
    case Send(who) => who in w.owed
    case WakeUp => w.sleep.Some? && (w.event || Over(w.sleep.value, w.pool.now))
  }

  predicate Over(sleep: Sleep, now: int) {
    sleep.until.Some? && sleep.until.value <= now
  }

  function Does(w: Watch, step: WatchStep): Watch
    requires Can(w, step)
  {
    match step
    case Move(m) =>
      Watch(Do(w.pool, m), w.event, w.owed + Owes(w.pool, m),
            if m == ByScheduler(Reinsert) then Some(Sleep(Some(w.pool.now + BACK_OFF), true)) else w.sleep)
    case Doze(first) =>
      var until := if first.Some? then Some(w.pool.queue[first.value]) else None;
      w.(pool := SchedulerDoes(w.pool, Idle), sleep := Some(Sleep(until, false)))
    case Send(who) => w.(event := true, owed := w.owed - {who})
    case WakeUp => w.(event := false, sleep := None)
  }

  function WatchRun(now: int, steps: seq<WatchStep>): Option<Watch> {
    if steps == [] then Some(StartWatch(now)) else
    var before, step := WatchRun(now, steps[..|steps| - 1]), steps[|steps| - 1];
    if before.Some? && Can(before.value, step) then Some(Does(before.value, step)) else None
  }

  // ---------------------------------------------------------------- the same pool

  /** What the step is without the event. */
  function MovesOf(step: WatchStep): seq<Step> {
    match step
    case Move(m) => [m]
    case Doze(_) => [ByScheduler(Idle)]
    case _ => []
  }

  function Moves(steps: seq<WatchStep>): seq<Step> {
    if steps == [] then [] else Moves(steps[..|steps| - 1]) + MovesOf(steps[|steps| - 1])
  }

  lemma StepMoves(w: Watch, step: WatchStep)
    requires Can(w, step)
    ensures var moves := MovesOf(step);
            if moves == [] then Does(w, step).pool == w.pool
            else |moves| == 1 && Enabled(w.pool, moves[0]) && Does(w, step).pool == Do(w.pool, moves[0])
  {
    hide CallCan, CallDoes, CoroutineCan, CoroutineDoes, PoolCan, PoolDoes, SchedulerCan, SchedulerDoes;
  }

  lemma RunsOneMore(now: int, moves: seq<Step>, p: Pool, step: Step)
    requires Run(now, moves) == Some(p) && Enabled(p, step)
    ensures Run(now, moves + [step]) == Some(Do(p, step))
  {
    assert (moves + [step])[..|moves|] == moves;
    hide Enabled, Do;
  }

  /** Every run with the event is a run of the pool, so whatever holds in every run of the pool holds here. */
  lemma {:induction false} RunsThePool(now: int, steps: seq<WatchStep>)
    requires WatchRun(now, steps).Some?
    ensures Run(now, Moves(steps)) == Some(WatchRun(now, steps).value.pool)
  {
    if steps != [] {
      hide Run, Can, Does, Enabled, Do;
      var before, last := steps[..|steps| - 1], steps[|steps| - 1];
      RunsThePool(now, before);
      var w := WatchRun(now, before).value;
      StepMoves(w, last);
      if MovesOf(last) == [] {
        assert Moves(steps) == Moves(before);
      } else {
        assert Moves(steps) == Moves(before) + [MovesOf(last)[0]];
        RunsOneMore(now, Moves(before), w.pool, MovesOf(last)[0]);
      }
    }
  }

  // ---------------------------------------------------------------- what every step keeps

  predicate Alert(w: Watch) {
    w.event || w.owed != {}
  }

  /** The scheduler is up and will look into the inbox before it looks at the timers. */
  predicate WillDrain(w: Watch) {
    w.sleep.None? && (w.pool.scheduler.AtTop? || w.pool.scheduler.NotStarted?)
  }

  predicate Resting(w: Watch) {
    w.sleep.Some? && !w.sleep.value.backOff
  }

  /** No timer is due before the sleep is over. */
  predicate OnTime(sleep: Sleep, queue: map<nat, int>) {
    forall i | i in queue :: sleep.until.Some? && sleep.until.value <= queue[i]
  }

  /** A back-off lasts no longer than a moment from now. */
  predicate Short(sleep: Sleep, now: int) {
    sleep.backOff ==> sleep.until.Some? && sleep.until.value <= now + BACK_OFF
  }

  ghost predicate Awaits(w: Watch) {
    && (w.sleep.Some? ==> w.pool.scheduler == AtTop(false) && Short(w.sleep.value, w.pool.now))
    && (Alert(w) || WillDrain(w) || w.pool.inbox == [])
    && (Resting(w) && !Alert(w) ==> !w.pool.schedulerStopping && OnTime(w.sleep.value, w.pool.queue))
  }

  /** The step leaves alone what the scheduler waits for, and does not stop it. */
  predicate Leaves(p: Pool, r: Pool) {
    && r.inbox == p.inbox && r.schedulerStopping == p.schedulerStopping && p.now <= r.now
    && (r.scheduler == p.scheduler || p.scheduler.NotStarted?)
    && (p.scheduler.NotStarted? ==> r.scheduler.NotStarted? || r.scheduler == AtTop(false))
  }

  lemma InsertLeaves(p: Pool, i: nat)
    requires CallCan(p, i, Insert)
    ensures var r := CallDoes(p, i, Insert); Leaves(p, r) && i in r.queue && r.queue == p.queue[i := r.queue[i]]
  {
  }

  lemma CallLeaves(p: Pool, i: nat, act: CallStep)
    requires CallCan(p, i, act) && act != Insert && act != PushOwn && act != Push
    ensures var r := CallDoes(p, i, act); Leaves(p, r) && r.queue == p.queue
  {
  }

  lemma CoroutineLeaves(p: Pool, c: nat, step: CoroutineStep)
    requires CoroutineCan(p, c, step)
    ensures var r := CoroutineDoes(p, c, step); Leaves(p, r) && r.queue == p.queue
  {
  }

  lemma PoolLeaves(p: Pool, step: PoolStep)
    requires PoolCan(p, step) && step != StopScheduler
    ensures var r := PoolDoes(p, step); Leaves(p, r) && r.queue == p.queue
  {
  }

  lemma OthersLeave(p: Pool, step: Step)
    requires Enabled(p, step) && !step.ByScheduler? && Owes(p, step) == {}
    ensures Leaves(p, Do(p, step))
    ensures step.ByCall? && step.act == Insert ==>
              && step.task in Do(p, step).queue && !ComesFirst(p, Do(p, step), step.task)
              && Do(p, step).queue == p.queue[step.task := Do(p, step).queue[step.task]]
    ensures !(step.ByCall? && step.act == Insert) ==> Do(p, step).queue == p.queue
  {
    hide CallCan, CallDoes, CoroutineCan, CoroutineDoes, PoolCan, PoolDoes, Leaves;
    match step
    case ByCall(i, act) => if act == Insert { InsertLeaves(p, i); } else { CallLeaves(p, i, act); }
    case ByCoroutine(c, step) => CoroutineLeaves(p, c, step);
    case ByPool(step) => PoolLeaves(p, step);
  }

  lemma SendersLeave(p: Pool, step: Step)
    requires Enabled(p, step) && !step.ByScheduler? && Owes(p, step) != {}
    ensures var r := Do(p, step);
            && p.now <= r.now
            && (r.scheduler == p.scheduler || (p.scheduler.NotStarted? && r.scheduler == AtTop(false)))
  {
    hide Leaves;
  }

  /** A timer that is not the first one does not matter to the sleep. */
  lemma LaterTimer(sleep: Sleep, p: Pool, r: Pool, i: nat)
    requires OnTime(sleep, p.queue) && i in r.queue && r.queue == p.queue[i := r.queue[i]] && !ComesFirst(p, r, i)
    ensures OnTime(sleep, r.queue)
  {
    var j :| j in p.queue && p.queue[j] <= r.queue[i];
  }

  lemma MoveKeeps(w: Watch, m: Step)
    requires Awaits(w) && Can(w, Move(m)) && !m.ByScheduler?
    ensures Awaits(Does(w, Move(m)))
  {
    var r := Do(w.pool, m);
    if Owes(w.pool, m) == {} {
      OthersLeave(w.pool, m);
      if w.sleep.Some? && OnTime(w.sleep.value, w.pool.queue) && m.ByCall? && m.act == Insert {
        LaterTimer(w.sleep.value, w.pool, r, m.task);
      }
    } else {
      SendersLeave(w.pool, m);
    }
    hide Enabled, Do, Owes, OnTime;
  }

  lemma SchedulerKeeps(w: Watch, step: SchedulerStep)
    requires Awaits(w) && Can(w, Move(ByScheduler(step)))
    ensures Awaits(Does(w, Move(ByScheduler(step))))
  {
  }

  lemma StepKeepsWatch(w: Watch, step: WatchStep)
    requires Awaits(w) && Can(w, step)
    ensures Awaits(Does(w, step))
  {
    if step.Move? {
      if step.step.ByScheduler? { SchedulerKeeps(w, step.step.move); } else { MoveKeeps(w, step.step); }
    }
  }

  lemma {:induction false} AwaitsAlways(now: int, steps: seq<WatchStep>)
    requires WatchRun(now, steps).Some?
    ensures Awaits(WatchRun(now, steps).value)
  {
    if steps != [] {
      hide Awaits, Can, Does;
      AwaitsAlways(now, steps[..|steps| - 1]);
      StepKeepsWatch(WatchRun(now, steps[..|steps| - 1]).value, steps[|steps| - 1]);
    }
  }

  // ---------------------------------------------------------------- main results

  /**
   While the scheduler sleeps, no timer is due before its sleep is over, no notice of a cancellation waits and nobody
   has told it to stop, unless the event is set or somebody is about to set it. A back-off is short.
   */
  lemma SleepsUntilFirstTimer(now: int, steps: seq<WatchStep>)
    requires WatchRun(now, steps).Some?
    ensures var w := WatchRun(now, steps).value;
            Resting(w) && !w.event && w.owed == {} ==>
              w.pool.inbox == [] && !w.pool.schedulerStopping && OnTime(w.sleep.value, w.pool.queue)
    ensures var w := WatchRun(now, steps).value; w.sleep.Some? ==> Short(w.sleep.value, w.pool.now)
  {
    AwaitsAlways(now, steps);
  }

  /** The scheduler has something to do. */
  predicate Wanted(p: Pool) {
    p.inbox != [] || p.schedulerStopping || exists i | i in p.queue :: p.queue[i] <= p.now
  }

  /** When there is something to do, a sleeping scheduler can wake up, or can when somebody has called Send(). */
  lemma NeverOversleeps(now: int, steps: seq<WatchStep>)
    requires WatchRun(now, steps).Some?
    requires var w := WatchRun(now, steps).value; Resting(w) && Wanted(w.pool)
    ensures var w := WatchRun(now, steps).value;
            Can(w, WakeUp) || exists who | who in w.owed :: Can(w, Send(who)) && Can(Does(w, Send(who)), WakeUp)
  {
    AwaitsAlways(now, steps);
    var w := WatchRun(now, steps).value;
    if w.owed != {} {
      var who :| who in w.owed;
      assert Can(w, Send(who)) && Can(Does(w, Send(who)), WakeUp);
    }
  }
}
