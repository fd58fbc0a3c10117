/**
 The delay pool as a protocol between delay() calls, stop callbacks, the scheduler coroutine, the coroutines that run
 the functions, and stop().

 One step is one section under the pool's mutex or one atomic access. The mutex is held across several steps only by a
 delay() call that is handing over its task, which is where stop callbacks may get in between. The list of cancelled
 tasks is a sequence here; `CancelInbox` builds it from an atomic head pointer, and `DelayInbox` puts the two together.
 */
module DelayProtocol {
  import opened Collections
  import opened Options

  const MIN_TIME: int := -0x8000_0000_0000_0000
  const MAX_TIME: int := 0x7fff_ffff_ffff_ffff

  // ---------------------------------------------------------------- when a delayed function is due

  function SaturatedAdd(now: int, duration: int): int {
    if duration <= 0 then now
    else if duration >= MAX_TIME - now then MAX_TIME
    else now + duration
  }

  /** The delay is over or the deadline of the context has come, whichever is first. */
  function RunAt(now: int, duration: int, deadline: Option<int>): int {
    var runAt := SaturatedAdd(now, duration);
    if deadline.Some? && deadline.value < runAt then deadline.value else runAt
  }

  /** A context that is cancelled or past its deadline is refused. */
  predicate Refused(now: int, duration: int, deadline: Option<int>, contextCancelled: bool) {
    contextCancelled || (RunAt(now, duration, deadline) <= now && deadline.Some? && deadline.value <= now)
  }

  // ---------------------------------------------------------------- state

  /** Where a delay() call is. */
  datatype Admission = Preparing | Inserting | Admitting | Publishing | Returned | Threw

  /** Where the stop callback that won the race for the task is. */
  datatype Callback = Quiet | Won | Pushing | Done

  /** Where the task itself is. */
  datatype Where = Nowhere | InQueue | Extracted | InCoroutine(c: nat) | Retired

  /** Where the notice of its cancellation is. */
  datatype Notice = NoNotice | OnItsWay | InInbox | InDrain | Drained

  datatype Delay = Delay(
    runAt: int, immediate: bool, tokens: set<nat>,
    cancelRequested: bool, admitted: bool, published: bool, claimed: bool,
    callback: Callback, admission: Admission,
    at: Where, notice: Notice)

  datatype Progress = Fresh | Claimed | Ran

  datatype Coroutine = Coroutine(task: nat, progress: Progress)

  /** Where schedulerLoop is; the final round comes after it has seen that it should stop. */
  datatype Scheduler =
    | NotStarted
    | AtTop(final: bool)
    | Draining(rest: seq<nat>, final: bool)
    | Looking
    | Holding(task: nat)
    | Exited

  datatype Phase = Created | Running | Stopping | Stopped | Failed

  datatype Pool = Pool(
    phase: Phase, now: int, stopped: set<nat>,        // stopped: the stop tokens that were triggered
    delays: seq<Delay>,
    lock: Option<nat>,
    queue: map<nat, int>, pending: int,
    coroutines: map<nat, Coroutine>, spawned: nat,
    inbox: seq<nat>, scheduler: Scheduler, schedulerStopping: bool,
    ran: seq<nat>, drained: seq<nat>)                 // history

  function Initial(now: int): Pool {
    Pool(Created, now, {}, [], None, map[], 0, map[], 0, [], NotStarted, false, [], [])
  }

  datatype CallStep =
    | Insert
    | InsertNow(ok: bool)
    | Reject
    | StorageFails
    | MarkAdmitted
    | CheckRequested
    | PushOwn
    // stop callbacks of the task
    | Request
    | LookAdmitted
    | Push

  datatype SchedulerStep =
    | Exchange
    | DrainOne
    | DrainDone
    | SeeStop
    | Extract(task: nat)
    | Idle
    | Dispatch
    | Reinsert

  datatype CoroutineStep = Claim | RunFunction | Retire

  datatype PoolStep =
    | Tick(now: int)
    | Trigger(token: nat)
    | Start
    | StartFails
    | New(duration: int, deadline: Option<int>, tokens: set<nat>)
    | BeginStop
    | StopScheduler
    | StopReturns

  datatype Step =
    | ByCall(task: nat, act: CallStep)
    | ByScheduler(move: SchedulerStep)
    | ByCoroutine(c: nat, progress: CoroutineStep)
    | ByPool(deed: PoolStep)

  predicate Busy(d: Delay) {
    d.callback == Won || d.callback == Pushing
  }

  predicate Open(phase: Phase) {
    phase == Created || phase == Running
  }

  predicate Triggered(s: Pool, d: Delay) {
    d.tokens * s.stopped != {}
  }

  // ---------------------------------------------------------------- delay() and the stop callbacks

  predicate CallCan(s: Pool, i: nat, act: CallStep) {
    i < |s.delays| &&
    var d := s.delays[i];
    match act
    case Insert => d.admission == Preparing && !d.immediate && s.lock.None? && Open(s.phase)
    case InsertNow(_) => d.admission == Preparing && d.immediate && s.lock.None? && Open(s.phase)
    case Reject => d.admission == Preparing && s.lock.None? && !Open(s.phase)
    case StorageFails => d.admission == Preparing && s.lock.None? && s.phase == Created && s.scheduler.NotStarted?
    case MarkAdmitted => d.admission == Inserting
    case CheckRequested => d.admission == Admitting
    case PushOwn => d.admission == Publishing
    case Request => d.callback == Quiet && !d.immediate && !d.claimed && d.admission != Threw && Triggered(s, d)
    case LookAdmitted => d.callback == Won
    case Push => d.callback == Pushing
  }

  /** ensureTaskStorageLocked. */
  function WithScheduler(scheduler: Scheduler): Scheduler {
    if scheduler.NotStarted? then AtTop(false) else scheduler
  }

  function With(s: Pool, i: nat, d: Delay): Pool
    requires i < |s.delays|
  {
    s.(delays := s.delays[i := d])
  }

  /** What becomes of the task itself. */
  function CallEffect(d: Delay, act: CallStep, spawned: nat): Delay {
    match act
    case Insert => d.(admission := Inserting, at := InQueue)
    case InsertNow(ok) =>
      if ok then d.(admission := Returned, at := InCoroutine(spawned)) else d.(admission := Threw)
    case Reject => d.(admission := Threw)
    case StorageFails => d.(admission := Threw)
    case MarkAdmitted => d.(admission := Admitting, admitted := true)
    case CheckRequested =>
      if d.cancelRequested && !d.published then d.(admission := Publishing, published := true, notice := OnItsWay)
      else d.(admission := Returned)
    case PushOwn => d.(admission := Returned, notice := InInbox)
    case Request => d.(cancelRequested := true, callback := Won)
    case LookAdmitted =>
      if d.admitted && !d.published then d.(callback := Pushing, published := true, notice := OnItsWay)
      else d.(callback := Done)
    case Push => d.(callback := Done, notice := InInbox)
  }

  function CallDoes(s: Pool, i: nat, act: CallStep): Pool
    requires CallCan(s, i, act)
  {
    var d, r := s.delays[i], With(s, i, CallEffect(s.delays[i], act, s.spawned));
    match act
    case Insert =>
      r.(lock := Some(i), pending := s.pending + 1, scheduler := WithScheduler(s.scheduler),
         queue := s.queue[i := if d.cancelRequested then MIN_TIME else d.runAt])
    case InsertNow(ok) =>
      if ok then
        r.(pending := s.pending + 1, scheduler := WithScheduler(s.scheduler),
           coroutines := s.coroutines[s.spawned := Coroutine(i, Fresh)], spawned := s.spawned + 1)
      else r.(scheduler := WithScheduler(s.scheduler))
    case StorageFails => r.(phase := Failed)
    case CheckRequested => if d.cancelRequested && !d.published then r else r.(lock := None)
    case PushOwn => r.(lock := None, inbox := [i] + s.inbox)
    case Push => r.(inbox := [i] + s.inbox)
    case _ => r
  }

  // ---------------------------------------------------------------- the scheduler

  predicate First(queue: map<nat, int>, i: nat) {
    i in queue && forall j | j in queue :: queue[i] <= queue[j]
  }

  predicate SchedulerCan(s: Pool, step: SchedulerStep) {
    match step
    case Exchange => s.scheduler.AtTop?
    case DrainOne =>
      s.scheduler.Draining? && s.scheduler.rest != [] && s.scheduler.rest[0] < |s.delays| && s.lock.None?
    case DrainDone => s.scheduler.Draining? && s.scheduler.rest == []
    case SeeStop => s.scheduler.Looking? && s.lock.None? && s.schedulerStopping
    case Extract(i) =>
      && s.scheduler.Looking? && s.lock.None? && !s.schedulerStopping
      && i < |s.delays| && First(s.queue, i) && s.queue[i] <= s.now
    case Idle =>
      && s.scheduler.Looking? && s.lock.None? && !s.schedulerStopping
      && forall i | i in s.queue :: s.queue[i] > s.now
    case Dispatch => s.scheduler.Holding? && s.scheduler.task < |s.delays|
    case Reinsert => s.scheduler.Holding? && s.scheduler.task < |s.delays| && s.lock.None?
  }

  function SchedulerDoes(s: Pool, step: SchedulerStep): Pool
    requires SchedulerCan(s, step)
  {
    match step
    case Exchange =>
      s.(scheduler := Draining(s.inbox, s.scheduler.final), inbox := [],
         delays := seq(|s.delays|, i requires 0 <= i < |s.delays| =>
                         if i in s.inbox then s.delays[i].(notice := InDrain) else s.delays[i]))
    case DrainOne =>
      var i := s.scheduler.rest[0];
      With(s, i, s.delays[i].(notice := Drained)).(
        scheduler := s.scheduler.(rest := s.scheduler.rest[1..]), drained := s.drained + [i],
        queue := if i in s.queue then s.queue[i := MIN_TIME] else s.queue)
    case DrainDone => s.(scheduler := if s.scheduler.final then Exited else Looking)
    case SeeStop => s.(scheduler := AtTop(true))
    case Extract(i) => With(s, i, s.delays[i].(at := Extracted)).(queue := s.queue - {i}, scheduler := Holding(i))
    case Idle => s.(scheduler := AtTop(false))
    case Dispatch =>
      var i := s.scheduler.task;
      With(s, i, s.delays[i].(at := InCoroutine(s.spawned))).(
        coroutines := s.coroutines[s.spawned := Coroutine(i, Fresh)], spawned := s.spawned + 1,
        scheduler := AtTop(false))
    case Reinsert =>
      var i := s.scheduler.task;
      With(s, i, s.delays[i].(at := InQueue)).(queue := s.queue[i := s.now], scheduler := AtTop(false))
  }

  // ---------------------------------------------------------------- execute()

  predicate CoroutineCan(s: Pool, c: nat, step: CoroutineStep) {
    c in s.coroutines && s.coroutines[c].task < |s.delays| &&
    match step
    case Claim => s.coroutines[c].progress == Fresh && !Busy(s.delays[s.coroutines[c].task])
    case RunFunction => s.coroutines[c].progress == Claimed
    case Retire => s.coroutines[c].progress == Ran && s.lock.None?
  }

  function CoroutineDoes(s: Pool, c: nat, step: CoroutineStep): Pool
    requires CoroutineCan(s, c, step)
  {
    var i := s.coroutines[c].task;
    var d := s.delays[i];
    match step
    case Claim =>
      if d.claimed then s.(coroutines := s.coroutines - {c})
      else With(s, i, d.(claimed := true)).(coroutines := s.coroutines[c := Coroutine(i, Claimed)])
    case RunFunction => s.(coroutines := s.coroutines[c := Coroutine(i, Ran)], ran := s.ran + [i])
    case Retire => With(s, i, d.(at := Retired)).(coroutines := s.coroutines - {c}, pending := s.pending - 1)
  }

  // ---------------------------------------------------------------- clock, contexts, start() and stop()

  predicate PoolCan(s: Pool, step: PoolStep) {
    match step
    case Tick(now) => s.now <= now
    case Trigger(_) => true
    case Start => s.phase == Created && s.lock.None?
    case StartFails => s.phase == Created && s.lock.None? && s.scheduler.NotStarted?
    case New(duration, deadline, tokens) => !Refused(s.now, duration, deadline, tokens * s.stopped != {})
    case BeginStop => s.phase != Stopping && s.phase != Stopped && s.lock.None?
    case StopScheduler => s.phase == Stopping && s.pending == 0 && s.lock.None? && !s.scheduler.NotStarted?
    case StopReturns =>
      && s.phase == Stopping && s.pending == 0 && s.lock.None? && s.coroutines == map[]
      && (s.scheduler.NotStarted? || s.scheduler.Exited?)
  }

  function PoolDoes(s: Pool, step: PoolStep): Pool
    requires PoolCan(s, step)
  {
    match step
    case Tick(now) => s.(now := now)
    case Trigger(token) => s.(stopped := s.stopped + {token})
    case Start => s.(phase := Running, scheduler := WithScheduler(s.scheduler))
    case StartFails => s.(phase := Failed)
    case New(duration, deadline, tokens) =>
      var runAt := RunAt(s.now, duration, deadline);
      var d := Delay(runAt, runAt <= s.now, tokens, false, false, false, false, Quiet, Preparing, Nowhere, NoNotice);
      s.(delays := s.delays + [d])
    case BeginStop => s.(phase := Stopping)
    case StopScheduler => s.(schedulerStopping := true)
    case StopReturns => s.(phase := Stopped)
  }

  predicate Enabled(s: Pool, step: Step) {
    match step
    case ByCall(i, act) => CallCan(s, i, act)
    case ByScheduler(move) => SchedulerCan(s, move)
    case ByCoroutine(c, progress) => CoroutineCan(s, c, progress)
    case ByPool(deed) => PoolCan(s, deed)
  }

  function Do(s: Pool, step: Step): Pool
    requires Enabled(s, step)
  {
    match step
    case ByCall(i, act) => CallDoes(s, i, act)
    case ByScheduler(move) => SchedulerDoes(s, move)
    case ByCoroutine(c, progress) => CoroutineDoes(s, c, progress)
    case ByPool(deed) => PoolDoes(s, deed)
  }

  /** The state after the steps, if each of them was possible. */
  function Run(now: int, steps: seq<Step>): Option<Pool> {
    if steps == [] then Some(Initial(now)) else
    var before, step := Run(now, steps[..|steps| - 1]), steps[|steps| - 1];
    if before.Some? && Enabled(before.value, step) then Some(Do(before.value, step)) else None
  }

  // ---------------------------------------------------------------- what every step keeps

  /** The flags of one task, which only the call, its callbacks and its coroutine change. */
  ghost predicate DelaySound(d: Delay) {
    && (d.admission == Preparing || d.admission == Threw <==> d.at == Nowhere)
    && (d.admitted <==>
          !d.immediate && (d.admission == Admitting || d.admission == Publishing || d.admission == Returned))
    && (d.admission == Inserting || d.admission == Admitting || d.admission == Publishing ==>
          !d.immediate && d.at == InQueue)
    && (d.at == Retired ==> d.claimed)
    && (d.claimed ==> d.at == Retired || d.at.InCoroutine?)
    && (d.claimed ==> !Busy(d) && d.admission == Returned)
    && (d.callback == Quiet <==> !d.cancelRequested)
    && (d.immediate ==> !d.cancelRequested)
    && (d.published <==> d.notice != NoNotice)
    && (d.published ==> d.cancelRequested && d.admitted)
    && (d.notice == OnItsWay <==> d.callback == Pushing || d.admission == Publishing)
    && !(d.callback == Pushing && d.admission == Publishing)
    && (d.cancelRequested && d.admission == Returned ==> d.published || d.callback == Won)
  }

  predicate Drains(scheduler: Scheduler, i: nat) {
    scheduler.Draining? && i in scheduler.rest
  }

  /** What the rest of the pool says about a task. */
  ghost predicate Located(s: Pool, i: nat, d: Delay) {
    && (d.at == InQueue <==> i in s.queue)
    && (d.at == Extracted <==> s.scheduler == Holding(i))
    && (d.at.InCoroutine? ==>
          && d.at.c in s.coroutines && s.coroutines[d.at.c].task == i
          && (d.claimed <==> s.coroutines[d.at.c].progress != Fresh))
    && (d.admission == Inserting || d.admission == Admitting || d.admission == Publishing <==> s.lock == Some(i))
    && (d.at == Retired || (d.at.InCoroutine? && s.coroutines[d.at.c].progress == Ran) <==> i in s.ran)
    && (d.notice == InInbox <==> i in s.inbox)
    && (d.notice == InDrain <==> Drains(s.scheduler, i))
    && (d.notice == Drained <==> i in s.drained)
  }

  /** Nobody is early, and a cancellation of a queued task makes it due or is on its way to the scheduler. */
  ghost predicate Timely(s: Pool, i: nat, d: Delay) {
    && (d.cancelRequested ==> Triggered(s, d))
    && (d.immediate ==> d.runAt <= s.now)
    && (i in s.queue ==> d.runAt <= s.queue[i] || d.cancelRequested)
    && (d.at == Extracted || d.at.InCoroutine? || d.at == Retired ==> d.runAt <= s.now || d.cancelRequested)
    && (i in s.queue && d.cancelRequested ==>
          || s.queue[i] <= s.now
          || (!d.published && (s.lock == Some(i) || d.callback == Won))
          || d.notice == OnItsWay || i in s.inbox || Drains(s.scheduler, i))
  }

  ghost predicate TaskSound(s: Pool, i: nat)
    requires i < |s.delays|
  {
    DelaySound(s.delays[i]) && Located(s, i, s.delays[i]) && Timely(s, i, s.delays[i])
  }

  ghost predicate TasksSound(s: Pool) {
    forall i | 0 <= i < |s.delays| :: TaskSound(s, i)
  }

  /** The tasks are different and exist. */
  ghost predicate Once(q: seq<nat>, size: nat) {
    NoDuplicates(q) && forall i | i in q :: i < size
  }

  ghost predicate Crewed(s: Pool) {
    forall c | c in s.coroutines ::
      c < s.spawned && s.coroutines[c].task < |s.delays| && s.delays[s.coroutines[c].task].at == InCoroutine(c)
  }

  /** Every part of the pool refers to existing tasks, and to each of them once. */
  ghost predicate Referenced(s: Pool) {
    && (forall i | i in s.queue :: i < |s.delays|)
    && Crewed(s)
    && (s.scheduler.Holding? ==> s.scheduler.task < |s.delays|)
    && (s.lock.Some? ==> s.lock.value < |s.delays|)
    && Once(s.ran, |s.delays|)
  }

  ghost predicate NoticesOnce(s: Pool) {
    && Once(s.inbox, |s.delays|)
    && Once(s.drained, |s.delays|)
    && (s.scheduler.Draining? ==> Once(s.scheduler.rest, |s.delays|))
  }

  function Held(scheduler: Scheduler): nat {
    if scheduler.Holding? then 1 else 0
  }

  /** pending counts the queued, the extracted and the not yet retired tasks. */
  predicate Ledger(s: Pool) {
    s.pending == |s.queue| + Held(s.scheduler) + |s.coroutines|
  }

  ghost predicate Lifecycle(s: Pool) {
    && MIN_TIME <= s.now
    && (s.schedulerStopping ==>
          s.pending == 0 && (s.phase == Stopping || s.phase == Stopped) && !s.scheduler.NotStarted?)
    && (s.phase == Stopped ==> s.pending == 0 && (s.scheduler.NotStarted? || s.scheduler.Exited?))
    && (s.scheduler.NotStarted? ==> s.pending == 0 && s.inbox == [] && s.phase != Running)
    && (s.scheduler.AtTop? && s.scheduler.final ==> s.schedulerStopping)
    && (s.scheduler.Draining? && s.scheduler.final ==> s.schedulerStopping && s.inbox == [])
    && (s.scheduler.Exited? ==> s.schedulerStopping && s.inbox == [])
    && (s.phase == Failed ==> s.scheduler.NotStarted?)
  }

  ghost predicate Inv(s: Pool) {
    TasksSound(s) && Referenced(s) && NoticesOnce(s) && Ledger(s) && Lifecycle(s)
  }

  // ---------------------------------------------------------------- one task moves

  /** Nothing that concerns task `j` has changed. */
  ghost predicate SameFor(s: Pool, r: Pool, j: nat) {
    && j < |s.delays| && j < |r.delays| && r.delays[j] == s.delays[j]
    && (j in r.queue <==> j in s.queue) && (j in s.queue ==> r.queue[j] == s.queue[j])
    && (r.scheduler == Holding(j) <==> s.scheduler == Holding(j))
    && (r.lock == Some(j) <==> s.lock == Some(j))
    && (j in r.ran <==> j in s.ran)
    && (j in r.inbox <==> j in s.inbox)
    && (Drains(r.scheduler, j) <==> Drains(s.scheduler, j))
    && (j in r.drained <==> j in s.drained)
    && (s.delays[j].at.InCoroutine? ==>
          var c := s.delays[j].at.c;
          c in s.coroutines && s.coroutines[c].task == j ==> c in r.coroutines && r.coroutines[c] == s.coroutines[c])
  }

  predicate Later(s: Pool, r: Pool) {
    s.now <= r.now && s.stopped <= r.stopped
  }

  lemma BystanderSound(s: Pool, r: Pool, j: nat)
    requires j < |s.delays| && TaskSound(s, j) && SameFor(s, r, j) && Later(s, r)
    ensures TaskSound(r, j)
  {
  }

  lemma TasksKept(s: Pool, r: Pool, i: nat)
    requires TasksSound(s) && |r.delays| == |s.delays| && Later(s, r)
    requires forall j | 0 <= j < |s.delays| && j != i :: SameFor(s, r, j)
    requires i < |r.delays| ==> TaskSound(r, i)
    ensures TasksSound(r)
  {
    hide TaskSound, SameFor;
    forall j | 0 <= j < |r.delays| ensures TaskSound(r, j) {
      if j != i {
        assert TaskSound(s, j) && SameFor(s, r, j);
        BystanderSound(s, r, j);
      }
    }
  }

  /** What a delay() call or a callback of task `i` may change. */
  ghost predicate CallTouches(s: Pool, r: Pool, i: nat) {
    && i < |s.delays| == |r.delays| && r.delays == s.delays[i := r.delays[i]]
    && (r.queue == s.queue || (i in r.queue && r.queue == s.queue[i := r.queue[i]]))
    && (r.scheduler == s.scheduler || (s.scheduler.NotStarted? && r.scheduler == AtTop(false)))
    && (r.lock == s.lock || ((r.lock == None || r.lock == Some(i)) && (s.lock == None || s.lock == Some(i))))
    && r.ran == s.ran && r.drained == s.drained && (r.inbox == s.inbox || r.inbox == [i] + s.inbox)
    && (forall c | c in s.coroutines && c < s.spawned :: c in r.coroutines && r.coroutines[c] == s.coroutines[c])
    && Later(s, r)
  }

  lemma CallMoves(s: Pool, i: nat, act: CallStep)
    requires CallCan(s, i, act) && Located(s, i, s.delays[i])
    ensures CallTouches(s, CallDoes(s, i, act), i)
  {
    hide CallEffect, Triggered;
  }

  lemma CallBystander(s: Pool, r: Pool, i: nat, j: nat)
    requires Crewed(s) && CallTouches(s, r, i) && j < |s.delays| && j != i
    ensures SameFor(s, r, j)
  {
  }

  lemma EffectSound(d: Delay, act: CallStep, spawned: nat)
    requires DelaySound(d)
    requires match act
             case Insert => d.admission == Preparing && !d.immediate
             case InsertNow(_) => d.admission == Preparing && d.immediate
             case Reject => d.admission == Preparing
             case StorageFails => d.admission == Preparing
             case MarkAdmitted => d.admission == Inserting
             case CheckRequested => d.admission == Admitting
             case PushOwn => d.admission == Publishing
             case Request => d.callback == Quiet && !d.immediate && !d.claimed
             case LookAdmitted => d.callback == Won
             case Push => d.callback == Pushing
    ensures DelaySound(CallEffect(d, act, spawned))
  {
  }

  lemma CallOwnerSound(s: Pool, i: nat, act: CallStep)
    requires CallCan(s, i, act) && DelaySound(s.delays[i])
    ensures DelaySound(CallDoes(s, i, act).delays[i])
  {
    EffectSound(s.delays[i], act, s.spawned);
    hide DelaySound, CallEffect;
  }

  lemma InsertLocated(s: Pool, i: nat, act: CallStep)
    requires CallCan(s, i, act) && DelaySound(s.delays[i]) && Located(s, i, s.delays[i])
    requires act.Insert? || act.InsertNow?
    ensures Located(CallDoes(s, i, act), i, CallDoes(s, i, act).delays[i])
  {
  }

  lemma OthersLocated(s: Pool, i: nat, act: CallStep)
    requires CallCan(s, i, act) && DelaySound(s.delays[i]) && Located(s, i, s.delays[i])
    requires !act.Insert? && !act.InsertNow?
    ensures Located(CallDoes(s, i, act), i, CallDoes(s, i, act).delays[i])
  {
  }

  lemma CallOwnerLocated(s: Pool, i: nat, act: CallStep)
    requires CallCan(s, i, act) && DelaySound(s.delays[i]) && Located(s, i, s.delays[i])
    ensures Located(CallDoes(s, i, act), i, CallDoes(s, i, act).delays[i])
  {
    hide Located, DelaySound, CallDoes;
    if act.Insert? || act.InsertNow? { InsertLocated(s, i, act); } else { OthersLocated(s, i, act); }
  }

  lemma CallOwnerTimely(s: Pool, i: nat, act: CallStep)
    requires CallCan(s, i, act) && TaskSound(s, i) && MIN_TIME <= s.now
    ensures Timely(CallDoes(s, i, act), i, CallDoes(s, i, act).delays[i])
  {
  }

  /** Everything in the inbox moves to the scheduler's list. */
  lemma ExchangeTasks(s: Pool)
    requires Inv(s) && SchedulerCan(s, Exchange)
    ensures TasksSound(SchedulerDoes(s, Exchange))
  {
    var r := SchedulerDoes(s, Exchange);
    forall i | 0 <= i < |r.delays| ensures TaskSound(r, i) {
      assert TaskSound(s, i);
    }
  }

  /** A step that concerns no task. */
  lemma NoTaskMoves(s: Pool, r: Pool)
    requires TasksSound(s) && Later(s, r) && r.delays == s.delays && r.queue == s.queue && r.lock == s.lock
    requires r.ran == s.ran && r.inbox == s.inbox && r.drained == s.drained && r.coroutines == s.coroutines
    requires forall j | 0 <= j < |s.delays| :: s.scheduler == Holding(j) <==> r.scheduler == Holding(j)
    requires forall j: nat :: Drains(r.scheduler, j) <==> Drains(s.scheduler, j)
    ensures TasksSound(r)
  {
    forall j | 0 <= j < |s.delays| ensures SameFor(s, r, j) {
    }
    hide SameFor;
    TasksKept(s, r, |s.delays|);
  }

  lemma NewTasks(s: Pool, duration: int, deadline: Option<int>, tokens: set<nat>)
    requires Inv(s) && PoolCan(s, New(duration, deadline, tokens))
    ensures TasksSound(PoolDoes(s, New(duration, deadline, tokens)))
  {
    var r := PoolDoes(s, New(duration, deadline, tokens));
    forall i | 0 <= i < |r.delays| ensures TaskSound(r, i) {
      if i < |s.delays| {
        assert TaskSound(s, i) && SameFor(s, r, i);
        BystanderSound(s, r, i);
      } else {
        assert i !in s.queue && i !in s.inbox && i !in s.ran && i !in s.drained && !Drains(s.scheduler, i);
      }
    }
  }

  lemma CallTasks(s: Pool, i: nat, act: CallStep)
    requires Inv(s) && CallCan(s, i, act)
    ensures TasksSound(CallDoes(s, i, act))
  {
    var r := CallDoes(s, i, act);
    assert TaskSound(s, i);
    CallMoves(s, i, act);
    forall j | 0 <= j < |s.delays| && j != i ensures SameFor(s, r, j) { CallBystander(s, r, i, j); }
    CallOwnerSound(s, i, act);
    CallOwnerLocated(s, i, act);
    CallOwnerTimely(s, i, act);
    hide CallCan, CallDoes, TasksSound, DelaySound, Located, Timely, SameFor, Crewed;
    TasksKept(s, r, i);
  }

  /** The task that a step of the scheduler moves, if there is just one. */
  function Moved(s: Pool, step: SchedulerStep): Option<nat>
    requires SchedulerCan(s, step)
  {
    match step
    case DrainOne => Some(s.scheduler.rest[0])
    case Extract(i) => Some(i)
    case Dispatch => Some(s.scheduler.task)
    case Reinsert => Some(s.scheduler.task)
    case _ => None
  }

  lemma SchedulerBystander(s: Pool, step: SchedulerStep, j: nat)
    requires Crewed(s) && SchedulerCan(s, step) && Moved(s, step).Some? && j < |s.delays| && j != Moved(s, step).value
    ensures SameFor(s, SchedulerDoes(s, step), j)
  {
    hide First;
  }

  lemma SchedulerOwnerSound(s: Pool, step: SchedulerStep, i: nat)
    requires SchedulerCan(s, step) && Moved(s, step) == Some(i) && TaskSound(s, i)
    ensures DelaySound(SchedulerDoes(s, step).delays[i])
  {
    hide Timely;
  }

  lemma SchedulerOwnerLocated(s: Pool, step: SchedulerStep, i: nat)
    requires SchedulerCan(s, step) && Moved(s, step) == Some(i) && TaskSound(s, i)
    requires Crewed(s) && NoticesOnce(s)
    ensures var r := SchedulerDoes(s, step); Located(r, i, r.delays[i])
  {
    hide Timely;
  }

  lemma SchedulerOwnerTimely(s: Pool, step: SchedulerStep, i: nat)
    requires SchedulerCan(s, step) && Moved(s, step) == Some(i) && TaskSound(s, i) && MIN_TIME <= s.now
    ensures var r := SchedulerDoes(s, step); Timely(r, i, r.delays[i])
  {
  }

  lemma MovedTasks(s: Pool, step: SchedulerStep, i: nat)
    requires Inv(s) && SchedulerCan(s, step) && Moved(s, step) == Some(i)
    ensures TasksSound(SchedulerDoes(s, step))
  {
    var r := SchedulerDoes(s, step);
    assert i < |s.delays| && TaskSound(s, i);
    hide TasksSound, DelaySound, Located, Timely, SameFor, NoticesOnce, Crewed, First, Ledger, Lifecycle;
    forall j | 0 <= j < |s.delays| && j != i ensures SameFor(s, r, j) { SchedulerBystander(s, step, j); }
    SchedulerOwnerSound(s, step, i);
    SchedulerOwnerLocated(s, step, i);
    SchedulerOwnerTimely(s, step, i);
    TasksKept(s, r, i);
  }

  lemma NothingMoved(s: Pool, step: SchedulerStep)
    requires TasksSound(s) && SchedulerCan(s, step) && Moved(s, step).None? && !step.Exchange?
    ensures TasksSound(SchedulerDoes(s, step))
  {
    hide TasksSound, First;
    NoTaskMoves(s, SchedulerDoes(s, step));
  }

  lemma SchedulerTasks(s: Pool, step: SchedulerStep)
    requires Inv(s) && SchedulerCan(s, step)
    ensures TasksSound(SchedulerDoes(s, step))
  {
    hide TasksSound, SchedulerCan, SchedulerDoes, Referenced, NoticesOnce, Ledger, Lifecycle;
    if step.Exchange? {
      ExchangeTasks(s);
    } else if Moved(s, step).Some? {
      MovedTasks(s, step, Moved(s, step).value);
    } else {
      NothingMoved(s, step);
    }
  }

  lemma CoroutineBystander(s: Pool, c: nat, step: CoroutineStep, j: nat)
    requires CoroutineCan(s, c, step) && j < |s.delays| && j != s.coroutines[c].task
    ensures SameFor(s, CoroutineDoes(s, c, step), j)
  {
  }

  lemma CoroutineOwner(s: Pool, c: nat, step: CoroutineStep, i: nat)
    requires CoroutineCan(s, c, step) && s.coroutines[c].task == i && s.delays[i].at == InCoroutine(c)
    requires TaskSound(s, i)
    ensures TaskSound(CoroutineDoes(s, c, step), i)
  {
  }

  lemma CoroutineTasks(s: Pool, c: nat, step: CoroutineStep)
    requires Inv(s) && CoroutineCan(s, c, step)
    ensures TasksSound(CoroutineDoes(s, c, step))
  {
    var r, i := CoroutineDoes(s, c, step), s.coroutines[c].task;
    forall j | 0 <= j < |s.delays| && j != i ensures SameFor(s, r, j) { CoroutineBystander(s, c, step, j); }
    CoroutineOwner(s, c, step, i);
    hide TasksSound, TaskSound, SameFor;
    TasksKept(s, r, i);
  }

  lemma PoolTasks(s: Pool, step: PoolStep)
    requires Inv(s) && PoolCan(s, step)
    ensures TasksSound(PoolDoes(s, step))
  {
    if step.New? {
      NewTasks(s, step.duration, step.deadline, step.tokens);
    } else {
      hide TasksSound;
      NoTaskMoves(s, PoolDoes(s, step));
    }
    hide *;
  }

  // ---------------------------------------------------------------- references and notices

  lemma OnceMore(q: seq<nat>, i: nat, size: nat)
    requires Once(q, size) && i < size && i !in q
    ensures Once(q + [i], size) && Once([i] + q, size)
  {
  }

  lemma NothingOnce(size: nat)
    ensures Once([], size)
  {
  }

  lemma OnceLess(q: seq<nat>, size: nat)
    requires Once(q, size) && q != []
    ensures Once(q[1..], size)
  {
    assert forall i | i in q[1..] :: i in q;
  }

  lemma SameCrew(s: Pool, r: Pool, i: nat)
    requires Crewed(s) && r.coroutines == s.coroutines && r.spawned == s.spawned && |r.delays| == |s.delays|
    requires forall j | 0 <= j < |s.delays| && j != i :: r.delays[j].at == s.delays[j].at
    requires i < |s.delays| ==> r.delays[i].at == s.delays[i].at || !s.delays[i].at.InCoroutine?
    ensures Crewed(r)
  {
  }

  lemma NewCrew(s: Pool, r: Pool, i: nat)
    requires Crewed(s) && r.coroutines == s.coroutines[s.spawned := Coroutine(i, Fresh)] && r.spawned == s.spawned + 1
    requires i < |s.delays| && !s.delays[i].at.InCoroutine?
    requires |r.delays| == |s.delays| && r.delays == s.delays[i := r.delays[i]]
    requires r.delays[i].at == InCoroutine(s.spawned)
    ensures Crewed(r)
  {
  }

  lemma CallReferenced(s: Pool, i: nat, act: CallStep)
    requires Referenced(s) && CallCan(s, i, act) && TaskSound(s, i)
    ensures Referenced(CallDoes(s, i, act))
  {
    hide Timely, Open, Triggered, Located, Crewed, Once;
    var r := CallDoes(s, i, act);
    if act.InsertNow? && act.ok {
      NewCrew(s, r, i);
    } else {
      SameCrew(s, r, i);
    }
  }

  lemma CallNotices(s: Pool, i: nat, act: CallStep)
    requires NoticesOnce(s) && CallCan(s, i, act) && TaskSound(s, i)
    ensures NoticesOnce(CallDoes(s, i, act))
  {
    hide Timely, Open, Triggered, Once;
    if act.Push? || act.PushOwn? {
      OnceMore(s.inbox, i, |s.delays|);
    }
    hide DelaySound, Located;
  }

  lemma SchedulerReferenced(s: Pool, step: SchedulerStep)
    requires Inv(s) && SchedulerCan(s, step)
    ensures Referenced(SchedulerDoes(s, step))
  {
    hide NoticesOnce, Ledger, Lifecycle, Timely, Crewed, Once;
    var r := SchedulerDoes(s, step);
    if step.Dispatch? {
      assert TaskSound(s, s.scheduler.task);
      NewCrew(s, r, s.scheduler.task);
    } else if step.Extract? {
      assert TaskSound(s, step.task);
      SameCrew(s, r, step.task);
    } else if step.Reinsert? {
      assert TaskSound(s, s.scheduler.task);
      SameCrew(s, r, s.scheduler.task);
    } else {
      assert forall j | 0 <= j < |s.delays| :: r.delays[j].at == s.delays[j].at;
      SameCrew(s, r, |s.delays|);
    }
    hide TasksSound, TaskSound;
  }

  lemma SchedulerNotices(s: Pool, step: SchedulerStep)
    requires Inv(s) && SchedulerCan(s, step)
    ensures NoticesOnce(SchedulerDoes(s, step))
  {
    hide Once, Referenced, Ledger, Lifecycle, First;
    if step.DrainOne? {
      assert TaskSound(s, s.scheduler.rest[0]);
      OnceMore(s.drained, s.scheduler.rest[0], |s.delays|);
      OnceLess(s.scheduler.rest, |s.delays|);
    }
    NothingOnce(|s.delays|);
    hide TasksSound, TaskSound;
  }

  /** Coroutine `c` of task `i` goes on or ends. */
  lemma CrewGoesOn(s: Pool, r: Pool, c: nat, i: nat)
    requires Crewed(s) && c in s.coroutines && s.coroutines[c].task == i < |s.delays| && r.spawned == s.spawned
    requires |r.delays| == |s.delays| && r.delays == s.delays[i := r.delays[i]]
    requires r.coroutines == s.coroutines - {c} ||
             (r.delays[i].at == s.delays[i].at && exists p :: r.coroutines == s.coroutines[c := Coroutine(i, p)])
    ensures Crewed(r)
  {
  }

  lemma CoroutineReferenced(s: Pool, c: nat, step: CoroutineStep)
    requires Inv(s) && CoroutineCan(s, c, step)
    ensures Referenced(CoroutineDoes(s, c, step)) && NoticesOnce(CoroutineDoes(s, c, step))
  {
    var i, r := s.coroutines[c].task, CoroutineDoes(s, c, step);
    assert TaskSound(s, i) && s.delays[i].at == InCoroutine(c);
    hide TasksSound, Ledger, Lifecycle, Once, Timely, Crewed;
    if step.RunFunction? { OnceMore(s.ran, i, |s.delays|); }
    hide DelaySound, Located;
    CrewGoesOn(s, r, c, i);
  }

  lemma PoolReferenced(s: Pool, step: PoolStep)
    requires Inv(s) && PoolCan(s, step)
    ensures Referenced(PoolDoes(s, step)) && NoticesOnce(PoolDoes(s, step))
  {
    hide TasksSound, Ledger, Lifecycle;
  }

  // ---------------------------------------------------------------- the ledger and the phases

  /** While somebody is about to put a notice into the inbox, its task is not retired. */
  lemma PublisherIsLive(s: Pool, i: nat)
    requires Inv(s) && i < |s.delays| && s.delays[i].notice == OnItsWay
    ensures s.pending > 0
  {
    assert TaskSound(s, i);
    hide TasksSound, Referenced, NoticesOnce, Lifecycle, Timely;
    var d := s.delays[i];
    assert d.at == InQueue || d.at == Extracted || d.at.InCoroutine?;
    if d.at == InQueue {
      assert s.queue != map[];
    } else if d.at.InCoroutine? {
      assert s.coroutines != map[];
    }
  }

  lemma InsertLedger(s: Pool, i: nat)
    requires Ledger(s) && CallCan(s, i, Insert) && i !in s.queue
    ensures Ledger(CallDoes(s, i, Insert))
  {
    SizeWith(s.queue, i, if s.delays[i].cancelRequested then MIN_TIME else s.delays[i].runAt);
  }

  lemma InsertNowLedger(s: Pool, i: nat, ok: bool)
    requires Ledger(s) && CallCan(s, i, InsertNow(ok)) && s.spawned !in s.coroutines
    ensures Ledger(CallDoes(s, i, InsertNow(ok)))
  {
    SizeWith(s.coroutines, s.spawned, Coroutine(i, Fresh));
  }

  lemma NothingToCount(s: Pool, i: nat, act: CallStep)
    requires Ledger(s) && CallCan(s, i, act) && !act.Insert? && !act.InsertNow?
    ensures Ledger(CallDoes(s, i, act))
  {
    hide Open, Triggered, CallEffect;
  }

  lemma CallLedger(s: Pool, i: nat, act: CallStep)
    requires Ledger(s) && Crewed(s) && CallCan(s, i, act) && TaskSound(s, i)
    ensures Ledger(CallDoes(s, i, act))
  {
    assert act.Insert? ==> i !in s.queue;
    assert s.spawned !in s.coroutines;
    hide TaskSound, Crewed, CallCan, CallDoes, Ledger;
    if act.Insert? {
      InsertLedger(s, i);
    } else if act.InsertNow? {
      InsertNowLedger(s, i, act.ok);
    } else {
      NothingToCount(s, i, act);
    }
  }

  lemma CallLifecycle(s: Pool, i: nat, act: CallStep)
    requires Lifecycle(s) && CallCan(s, i, act) && (act.Push? || act.PushOwn? ==> s.pending > 0)
    ensures Lifecycle(CallDoes(s, i, act))
  {
    hide Triggered;
  }

  lemma CallLedgerAndLifecycle(s: Pool, i: nat, act: CallStep)
    requires Inv(s) && CallCan(s, i, act)
    ensures Ledger(CallDoes(s, i, act)) && Lifecycle(CallDoes(s, i, act))
  {
    assert TaskSound(s, i);
    hide TasksSound, Crewed, Ledger, Lifecycle, NoticesOnce;
    if act.Push? || act.PushOwn? { PublisherIsLive(s, i); }
    CallLedger(s, i, act);
    CallLifecycle(s, i, act);
  }

  lemma SchedulerLedger(s: Pool, step: SchedulerStep)
    requires Ledger(s) && SchedulerCan(s, step)
    requires step.Dispatch? ==> s.spawned !in s.coroutines
    requires step.Reinsert? ==> s.scheduler.task !in s.queue
    ensures Ledger(SchedulerDoes(s, step))
  {
    if step.Extract? {
      SizeWithout(s.queue, step.task);
    } else if step.DrainOne? {
      SizeWith(s.queue, s.scheduler.rest[0], MIN_TIME);
    } else if step.Dispatch? {
      SizeWith(s.coroutines, s.spawned, Coroutine(s.scheduler.task, Fresh));
    } else if step.Reinsert? {
      SizeWith(s.queue, s.scheduler.task, s.now);
    }
    hide First, With;
  }

  lemma SchedulerLifecycle(s: Pool, step: SchedulerStep)
    requires Ledger(s) && Lifecycle(s) && SchedulerCan(s, step)
    ensures Lifecycle(SchedulerDoes(s, step))
  {
    hide First;
  }

  lemma SchedulerLedgerAndLifecycle(s: Pool, step: SchedulerStep)
    requires Inv(s) && SchedulerCan(s, step)
    ensures Ledger(SchedulerDoes(s, step)) && Lifecycle(SchedulerDoes(s, step))
  {
    if step.Reinsert? { assert TaskSound(s, s.scheduler.task); }
    assert s.spawned !in s.coroutines;
    hide SchedulerDoes, Ledger, Lifecycle, TasksSound, NoticesOnce, Crewed;
    SchedulerLedger(s, step);
    SchedulerLifecycle(s, step);
  }

  lemma CoroutineLedger(s: Pool, c: nat, step: CoroutineStep)
    requires Ledger(s) && CoroutineCan(s, c, step)
    requires step.Claim? ==> !s.delays[s.coroutines[c].task].claimed
    ensures Ledger(CoroutineDoes(s, c, step))
  {
    var i := s.coroutines[c].task;
    SizeWithout(s.coroutines, c);
    SizeWith(s.coroutines, c, Coroutine(i, Claimed));
    SizeWith(s.coroutines, c, Coroutine(i, Ran));
  }

  lemma CoroutineLifecycle(s: Pool, c: nat, step: CoroutineStep)
    requires Ledger(s) && Lifecycle(s) && CoroutineCan(s, c, step)
    ensures Lifecycle(CoroutineDoes(s, c, step))
  {
    SizeWithout(s.coroutines, c);
  }

  lemma CoroutineLedgerAndLifecycle(s: Pool, c: nat, step: CoroutineStep)
    requires Inv(s) && CoroutineCan(s, c, step)
    ensures Ledger(CoroutineDoes(s, c, step)) && Lifecycle(CoroutineDoes(s, c, step))
  {
    assert TaskSound(s, s.coroutines[c].task);
    assert step.Claim? ==> !s.delays[s.coroutines[c].task].claimed;
    hide CoroutineDoes, Ledger, Lifecycle, TasksSound, NoticesOnce, Crewed;
    CoroutineLedger(s, c, step);
    CoroutineLifecycle(s, c, step);
  }

  lemma PoolLedger(s: Pool, step: PoolStep)
    requires Inv(s) && PoolCan(s, step)
    ensures Ledger(PoolDoes(s, step)) && Lifecycle(PoolDoes(s, step))
  {
    hide TasksSound, NoticesOnce, Referenced;
  }

  // ---------------------------------------------------------------- every run

  lemma StepKeeps(s: Pool, step: Step)
    requires Inv(s) && Enabled(s, step)
    ensures Inv(Do(s, step))
  {
    hide CallCan, SchedulerCan, CoroutineCan, PoolCan, CallDoes, SchedulerDoes, CoroutineDoes, PoolDoes;
    hide Referenced, NoticesOnce, Ledger, Lifecycle, TaskSound;
    match step
    case ByCall(i, act) =>
      TaskIsSound(s, i, act);
      CallTasks(s, i, act);
      CallReferenced(s, i, act);
      CallNotices(s, i, act);
      CallLedgerAndLifecycle(s, i, act);
    case ByScheduler(move) =>
      SchedulerTasks(s, move);
      SchedulerReferenced(s, move);
      SchedulerNotices(s, move);
      SchedulerLedgerAndLifecycle(s, move);
    case ByCoroutine(c, progress) =>
      CoroutineTasks(s, c, progress);
      CoroutineReferenced(s, c, progress);
      CoroutineLedgerAndLifecycle(s, c, progress);
    case ByPool(deed) =>
      PoolTasks(s, deed);
      PoolReferenced(s, deed);
      PoolLedger(s, deed);
  }

  lemma TaskIsSound(s: Pool, i: nat, act: CallStep)
    requires Inv(s) && CallCan(s, i, act)
    ensures i < |s.delays| && TaskSound(s, i)
  {
  }

  lemma InitiallyHolds(now: int)
    requires 0 <= now
    ensures Inv(Initial(now))
  {
  }

  lemma {:induction false} RunKeeps(now: int, steps: seq<Step>)
    requires 0 <= now && Run(now, steps).Some?
    ensures Inv(Run(now, steps).value)
  {
    hide Inv, Do, Enabled;
    if steps == [] {
      InitiallyHolds(now);
    } else {
      RunKeeps(now, steps[..|steps| - 1]);
      StepKeeps(Run(now, steps[..|steps| - 1]).value, steps[|steps| - 1]);
    }
  }

  // ---------------------------------------------------------------- main results

  /** No function runs twice, and only those of calls that did not throw. */
  lemma AtMostOnce(now: int, steps: seq<Step>)
    requires 0 <= now && Run(now, steps).Some?
    ensures var s := Run(now, steps).value;
            NoDuplicates(s.ran) && forall i | i in s.ran :: i < |s.delays| && s.delays[i].admission == Returned
  {
    RunKeeps(now, steps);
    var s := Run(now, steps).value;
    forall i | i in s.ran ensures i < |s.delays| && s.delays[i].admission == Returned {
      assert TaskSound(s, i);
    }
  }

  /** When stop() has returned, the function of every delay() call that returned normally has run, exactly once. */
  lemma ExactlyOnce(now: int, steps: seq<Step>)
    requires 0 <= now && Run(now, steps).Some? && Run(now, steps).value.phase == Stopped
    ensures var s := Run(now, steps).value;
            && NoDuplicates(s.ran)
            && (forall i :: i in s.ran <==> 0 <= i < |s.delays| && s.delays[i].admission == Returned)
            && s.queue == map[] && s.coroutines == map[]
  {
    AtMostOnce(now, steps);
    RunKeeps(now, steps);
    var s := Run(now, steps).value;
    forall i | 0 <= i < |s.delays| && s.delays[i].admission == Returned ensures i in s.ran {
      assert TaskSound(s, i);
    }
  }

  /** The counter that stop() waits for. */
  lemma PendingCountsLiveTasks(now: int, steps: seq<Step>)
    requires 0 <= now && Run(now, steps).Some?
    ensures var s := Run(now, steps).value;
            && s.pending == |s.queue| + Held(s.scheduler) + |s.coroutines|
            && (s.pending == 0 ==> s.queue == map[] && s.coroutines == map[])
            && (s.phase == Stopped ==> s.pending == 0)
  {
    RunKeeps(now, steps);
    hide TasksSound, NoticesOnce, Referenced;
  }

  /** A coroutine exists only for a function whose time has come or whose context was cancelled. */
  lemma NeverTooEarly(now: int, steps: seq<Step>, c: nat)
    requires 0 <= now && Run(now, steps).Some? && c in Run(now, steps).value.coroutines
    ensures var s := Run(now, steps).value;
            var i := s.coroutines[c].task;
            i < |s.delays| && (s.delays[i].runAt <= s.now || Triggered(s, s.delays[i]))
  {
    RunKeeps(now, steps);
    var s := Run(now, steps).value;
    assert TaskSound(s, s.coroutines[c].task);
  }

  /** Each cancelled task is noted at most once, and the notices are all drained when the scheduler has exited. */
  lemma NoticesDrainedOnce(now: int, steps: seq<Step>)
    requires 0 <= now && Run(now, steps).Some?
    ensures var s := Run(now, steps).value;
            && NoDuplicates(s.inbox) && NoDuplicates(s.drained) && (forall i | i in s.inbox :: i !in s.drained)
            && (s.scheduler.Exited? ==> s.inbox == [])
            && (s.scheduler.Exited? ==> forall i | 0 <= i < |s.delays| :: s.delays[i].published <==> i in s.drained)
  {
    RunKeeps(now, steps);
    var s := Run(now, steps).value;
    forall i | i in s.inbox ensures i !in s.drained {
      assert TaskSound(s, i);
    }
    if s.scheduler.Exited? {
      forall i | 0 <= i < |s.delays| ensures s.delays[i].published <==> i in s.drained {
        assert TaskSound(s, i);
        if s.delays[i].notice == OnItsWay { PublisherIsLive(s, i); }
      }
    }
  }

  /** A cancellation whose callback has finished is not missed: its queued task is due, or its notice is on the way. */
  lemma NoMissedCancellation(now: int, steps: seq<Step>, i: nat)
    requires 0 <= now && Run(now, steps).Some? && i in Run(now, steps).value.queue && i < |Run(now, steps).value.delays|
    requires var d := Run(now, steps).value.delays[i];
             d.cancelRequested && d.callback == Done && d.admission == Returned
    ensures var s := Run(now, steps).value;
            s.queue[i] <= s.now || i in s.inbox || Drains(s.scheduler, i)
  {
    RunKeeps(now, steps);
    assert TaskSound(Run(now, steps).value, i);
  }
}
