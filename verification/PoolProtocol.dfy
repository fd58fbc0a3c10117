/**
 The FIFO task pool as a protocol between callers, executors, the manager coroutine, start() and stop().

 One step is one section under the pool's mutex, one atomic operation, or one action of the scheduler (a coroutine
 starts, a waiter of the condition variable wakes up). Which waiting task an executor takes is left open here; the
 order is the subject of `LazyPromotion` and `TaskQueues`.
 */
module PoolProtocol {
  import opened Collections
  import opened Options

  datatype Phase = Created | Starting | Running | Draining | Stopping | Stopped | Failed

  datatype Startup = Pending | Ready | Cancelled | StoppedEarly | Broken

  /** Where managerLoop is; Growing has `left` executors to spawn and may hold a slot reserved for the next one. */
  datatype Manager =
    | Unborn
    | Top
    | Checked
    | Growing(left: nat, reserved: bool)
    | Adopting(failed: bool)
    | Settled(failed: bool)
    | Gone

  datatype Starter = NotCalled | Launching | FailedLaunch | Waiting | Returned

  /** Where the stop() call that won the transition to Stopping is. */
  datatype Stopper = NoStop | AwaitFields | JoinManager | Collect | AwaitExecutors | Finished

  /** What an executor is doing; one that has released its slot is no longer part of the crew. */
  datatype Doing =
    | Entering          // about to take the mutex at the top of its loop
    | Parked            // waiting on the condition variable
    | Woken             // notified, will look again
    | Busy(task: nat)
    | Leaving           // has left the loop and still holds its slot

  /** Tasks are numbered as they are accepted; `begun` lists those that executors have begun to run, in that order. */
  datatype Backlog = Backlog(queue: set<nat>, accepted: nat, begun: seq<nat>)

  datatype Pool = Pool(
    phase: Phase, startup: Startup, done: bool,
    work: Backlog,
    crew: map<nat, Doing>,
    hired: nat,                 // how many executors were ever spawned
    slots: int, target: int,    // allocatedExecutors_ and targetExecutors_
    notifies: nat,              // callers that have unlocked but not yet called NotifyOne
    spawned: set<nat>, handles: set<nat>, toWait: set<nat>,   // task handles: the manager's, executors_, stop()'s
    manager: Manager, starter: Starter, stopper: Stopper,
    idleCancelled: bool)        // some executor's own coroutine was cancelled while it had nothing to do

  const INITIAL := Pool(Created, Pending, false, Backlog({}, 0, []), map[], 0, 0, 0, 0, {}, {}, {},
                        Unborn, NotCalled, NoStop, false)

  datatype ExecutorStep =
    | Notify(executor: nat)       // the condition variable picks this executor
    | WakeUp(executor: nat)       // it wakes up unasked
    | Park(executor: nat)
    | ExitExcess(executor: nat)
    | ExitDone(executor: nat)
    | Take(executor: nat, task: nat)
    | Finish(executor: nat)
    | IdleCancel(executor: nat)
    | Release(executor: nat)

  datatype ManagerStep =
    | ManagerCancelled
    | ManagerCheck
    | Reconcile(size: nat)
    | Reserve
    | SpawnOk
    | SpawnFail
    | GrowthDone
    | Adopt
    | ManagerFails
    | ManagerReady

  datatype CallerStep =
    // addTask and cancellation callbacks
    | Accept
    | Promote
    // start()
    | CallStart
    | LaunchManager
    | Publish
    | LaunchFails
    | LaunchFailed
    | StartReturns
    // stop()
    | ClaimStop
    | SeeFields
    | CancelManager
    | ManagerJoined
    | CollectHandles
    | StopReturns

  datatype Step =
    | ByExecutor(act: ExecutorStep)
    | ByManager(deed: ManagerStep)
    | ByCaller(call: CallerStep)

  function Doers(crew: map<nat, Doing>, what: Doing): set<nat> {
    set e | e in crew && crew[e] == what
  }

  /** The executors that will look at the queue without being notified. */
  function OnTheWay(crew: map<nat, Doing>): set<nat> {
    Doers(crew, Entering) + Doers(crew, Woken)
  }

  /** What an executor waits for. */
  predicate Wanted(s: Pool) {
    s.work.queue != {} || s.done || s.slots > s.target
  }

  predicate AtTheMutex(s: Pool, e: nat) {
    e in s.crew && (s.crew[e] == Entering || s.crew[e] == Woken)
  }

  predicate Asleep(s: Pool, e: nat) {
    e in s.crew && s.crew[e] == Parked
  }

  /** The manager gives up: no executor could be spawned and start() is still waiting. */
  predicate StartupHopeless(s: Pool) {
    s.manager == Settled(true) && s.startup == Pending && s.slots == 0
  }

  predicate ExecutorCan(s: Pool, step: ExecutorStep) {
    match step
    case Notify(e) => s.notifies > 0 && (Doers(s.crew, Parked) != {} ==> Asleep(s, e))
    case WakeUp(e) => Asleep(s, e)
    case Park(e) => AtTheMutex(s, e) && !Wanted(s)
    case ExitExcess(e) => AtTheMutex(s, e) && Wanted(s) && s.slots > s.target
    case ExitDone(e) => AtTheMutex(s, e) && Wanted(s) && s.slots <= s.target && s.work.queue == {} && s.done
    case Take(e, t) => AtTheMutex(s, e) && Wanted(s) && s.slots <= s.target && t in s.work.queue
    case Finish(e) => e in s.crew && s.crew[e].Busy?
    case IdleCancel(e) => (AtTheMutex(s, e) || Asleep(s, e)) && !Wanted(s)
    case Release(e) => e in s.crew && s.crew[e] == Leaving
  }

  predicate ManagerCan(s: Pool, step: ManagerStep) {
    match step
    case ManagerCancelled => s.manager == Top || (s.manager.Settled? && !StartupHopeless(s))
    case ManagerCheck => s.manager == Top
    case Reconcile(size) => s.manager == Checked && 1 <= size
    case Reserve => s.manager.Growing? && s.manager.left > 0 && !s.manager.reserved
    case SpawnOk => s.manager.Growing? && s.manager.left > 0 && s.manager.reserved
    case SpawnFail => s.manager.Growing? && s.manager.left > 0 && s.manager.reserved
    case GrowthDone => s.manager == Growing(0, false)
    case Adopt => s.manager.Adopting?
    case ManagerFails => StartupHopeless(s)
    case ManagerReady => s.manager.Settled? && !StartupHopeless(s)
  }

  predicate CallerCan(s: Pool, step: CallerStep) {
    match step
    case Accept => !s.done && s.phase == Running
    case Promote => true
    case CallStart => s.phase == Created
    case LaunchManager => s.starter == Launching && s.manager == Unborn
    case Publish => s.starter == Launching && s.manager != Unborn
    case LaunchFails => s.starter == Launching && s.manager == Unborn
    case LaunchFailed => s.starter == FailedLaunch
    case StartReturns => s.starter == Waiting && s.startup != Pending
    case ClaimStop => s.phase != Stopping && s.phase != Stopped
    case SeeFields => s.stopper == AwaitFields && s.starter != Launching
    case CancelManager => s.stopper == JoinManager && s.manager != Unborn
    case ManagerJoined => s.stopper == JoinManager && (s.manager == Unborn || s.manager == Gone)
    case CollectHandles => s.stopper == Collect
    case StopReturns => s.stopper == AwaitExecutors && s.toWait !! s.crew.Keys
  }

  predicate Enabled(s: Pool, step: Step) {
    match step
    case ByExecutor(act) => ExecutorCan(s, act)
    case ByManager(deed) => ManagerCan(s, deed)
    case ByCaller(call) => CallerCan(s, call)
  }

  /** NotifyAll, under the mutex. */
  function WakeAll(crew: map<nat, Doing>): map<nat, Doing> {
    map e | e in crew :: if crew[e] == Parked then Woken else crew[e]
  }

  function Resolve(startup: Startup, result: Startup): Startup {
    if startup == Pending then result else startup
  }

  function ExecutorDoes(s: Pool, step: ExecutorStep): Pool
    requires ExecutorCan(s, step)
  {
    match step
    case Notify(e) =>
      s.(notifies := s.notifies - 1, crew := if Doers(s.crew, Parked) == {} then s.crew else s.crew[e := Woken])
    case WakeUp(e) => s.(crew := s.crew[e := Woken])
    case Park(e) => s.(crew := s.crew[e := Parked])
    case ExitExcess(e) => s.(crew := s.crew - {e}, slots := s.slots - 1)
    case ExitDone(e) => s.(crew := s.crew[e := Leaving])
    case Take(e, t) =>
      s.(crew := s.crew[e := Busy(t)], work := Backlog(s.work.queue - {t}, s.work.accepted, s.work.begun + [t]))
    case Finish(e) => s.(crew := s.crew[e := Entering])
    case IdleCancel(e) => s.(crew := s.crew[e := Leaving], idleCancelled := true)
    case Release(e) => s.(crew := s.crew - {e}, slots := s.slots - 1)
  }

  function ManagerDoes(s: Pool, step: ManagerStep): Pool
    requires ManagerCan(s, step)
  {
    match step
    case ManagerCancelled =>
      if s.startup == Pending then s.(startup := Cancelled, manager := Gone)
      else if s.phase == Starting || s.phase == Running then
        s.(crew := WakeAll(s.crew), phase := Draining, done := true, manager := Gone)
      else s.(manager := Gone)
    case ManagerCheck =>
      if s.done then s.(startup := Resolve(s.startup, StoppedEarly), manager := Gone) else s.(manager := Checked)
    case Reconcile(size) =>
      s.(target := size, handles := s.handles * s.crew.Keys,
         crew := if size < s.slots then WakeAll(s.crew) else s.crew,
         manager := if size <= s.slots then Settled(false) else Growing(size - s.slots, false))
    case Reserve => s.(slots := s.slots + 1, manager := Growing(s.manager.left, true))
    case SpawnOk =>
      s.(crew := s.crew[s.hired := Entering], spawned := s.spawned + {s.hired}, hired := s.hired + 1,
         manager := Growing(s.manager.left - 1, false))
    case SpawnFail => s.(slots := s.slots - 1, manager := Adopting(true))
    case GrowthDone => s.(manager := Adopting(false))
    case Adopt => s.(handles := s.handles + s.spawned, spawned := {}, manager := Settled(s.manager.failed))
    case ManagerFails => s.(startup := Broken, manager := Gone)
    case ManagerReady => s.(startup := Resolve(s.startup, Ready), manager := Top)
  }

  function CallerDoes(s: Pool, step: CallerStep): Pool
    requires CallerCan(s, step)
  {
    match step
    case Accept =>
      s.(work := Backlog(s.work.queue + {s.work.accepted}, s.work.accepted + 1, s.work.begun),
         notifies := s.notifies + 1)
    case Promote => s.(notifies := s.notifies + 1)
    case CallStart => s.(phase := Starting, starter := Launching)
    case LaunchManager => s.(manager := Top)
    case Publish => s.(starter := Waiting)
    case LaunchFails => s.(starter := FailedLaunch)
    case LaunchFailed => s.(starter := Returned, phase := if s.phase == Starting then Failed else s.phase)
    case StartReturns =>
      s.(starter := Returned,
         phase := if s.phase != Starting then s.phase else if s.startup == Ready then Running else Failed)
    case ClaimStop =>
      s.(crew := WakeAll(s.crew), phase := Stopping, done := true,
         stopper := if s.phase == Starting then AwaitFields else JoinManager)
    case SeeFields => s.(stopper := JoinManager)
    case CancelManager => s.(startup := Resolve(s.startup, StoppedEarly))
    case ManagerJoined => s.(stopper := Collect)
    case CollectHandles => s.(toWait := s.handles, handles := {}, stopper := AwaitExecutors)
    case StopReturns => s.(phase := Stopped, stopper := Finished)
  }

  function Do(s: Pool, step: Step): Pool
    requires Enabled(s, step)
  {
    match step
    case ByExecutor(act) => ExecutorDoes(s, act)
    case ByManager(deed) => ManagerDoes(s, deed)
    case ByCaller(call) => CallerDoes(s, call)
  }

  /** The state after the steps, if each of them was possible. */
  function Run(steps: seq<Step>): (r: Option<Pool>)
  {
    if steps == [] then Some(INITIAL) else
    var before := Run(steps[..|steps| - 1]);
    var step := steps[|steps| - 1];
    if before.Some? && Enabled(before.value, step) then Some(Do(before.value, step)) else None
  }

  // ---------------------------------------------------------------- what every step keeps

  function Reserved(m: Manager): nat {
    if m.Growing? && m.reserved then 1 else 0
  }

  /**
   Every slot belongs to an executor or is reserved for the next one. Growing never overshoots the target, which is
   positive once there can be executors.
   */
  ghost predicate Ledger(s: Pool) {
    && s.slots == |s.crew| + Reserved(s.manager)
    && (forall e | e in s.crew :: e < s.hired)
    && (s.manager.Growing? ==> s.slots + s.manager.left - Reserved(s.manager) <= s.target)
    && (s.manager.Growing? && s.manager.reserved ==> s.manager.left > 0)
    && 0 <= s.target
    && (s.hired > 0 || s.manager.Growing? || s.manager.Adopting? || s.manager.Settled? || s.startup == Ready ==>
          1 <= s.target)
  }

  /** Nobody sleeps while there is something to do that nobody else is on the way to. */
  ghost predicate WorkConserving(s: Pool) {
    Doers(s.crew, Parked) != {} ==>
      && |s.work.queue| <= |OnTheWay(s.crew)| + s.notifies
      && s.slots <= s.target
      && !s.done
  }

  /** Every accepted task waits or was begun, not both, and none was begun twice. */
  ghost predicate Accounted(w: Backlog) {
    && NoDuplicates(w.begun)
    && (forall t | t in w.queue :: t < w.accepted && t !in w.begun)
    && (forall t | t in w.begun :: t < w.accepted)
    && (forall t | 0 <= t < w.accepted :: t in w.queue || t in w.begun)
  }

  /** How the phases, the startup result and the positions of start(), stop() and the manager go together. */
  ghost predicate Lifecycle(s: Pool) {
    && (s.done <==> s.phase == Draining || s.phase == Stopping || s.phase == Stopped)
    && (s.phase == Created ==> s.starter == NotCalled)
    && (s.starter == NotCalled ==>
          s.manager == Unborn && (s.phase == Created || s.phase == Stopping || s.phase == Stopped))
    && (s.stopper == NoStop <==> s.phase != Stopping && s.phase != Stopped)
    && (s.phase == Stopped <==> s.stopper == Finished)
    && (s.phase == Draining ==> s.manager == Gone)
    && (s.phase == Running ==> s.startup == Ready)
    && (s.work.accepted > 0 ==> s.startup == Ready)
    && (s.starter == Launching && s.manager == Unborn ==> s.phase == Starting || s.stopper == AwaitFields)
    && (s.starter == FailedLaunch ==> s.manager == Unborn)
    && (s.phase == Starting ==> s.starter == Launching || s.starter == FailedLaunch || s.starter == Waiting)
    && (s.starter == Waiting ==> s.manager != Unborn)
  }

  /** Every executor can be joined by whoever is responsible for it. */
  ghost predicate Joinable(s: Pool) {
    && (forall e | e in s.crew :: e in s.handles || e in s.spawned || e in s.toWait)
    && (s.spawned != {} ==> s.manager.Growing? || s.manager.Adopting?)
    && (s.stopper == Collect || s.stopper == AwaitExecutors || s.stopper == Finished ==>
          s.manager == Gone || (s.manager == Unborn && s.starter != Launching))
    && (s.stopper == AwaitExecutors || s.stopper == Finished ==> s.handles == {})
    && (s.stopper != AwaitExecutors && s.stopper != Finished ==> s.toWait == {})
    && (s.stopper == Finished ==> s.crew == map[])
  }

  ghost predicate SomeoneStays(crew: map<nat, Doing>) {
    exists e :: e in crew && crew[e] != Leaving
  }

  /** Unless an idle executor was cancelled, some executor stays until the queue has been drained. */
  ghost predicate Manned(s: Pool) {
    !s.idleCancelled ==>
      && (forall e | e in s.crew && s.crew[e] == Leaving :: s.done && s.work.queue == {})
      && (s.startup == Ready ==> SomeoneStays(s.crew) || (s.done && s.work.queue == {}))
      && (s.manager.Growing? && !s.done ==> s.slots + s.manager.left - Reserved(s.manager) == s.target)
      && (s.manager == Adopting(false) || s.manager == Settled(false) ==> SomeoneStays(s.crew) || s.done)
  }

  ghost predicate Inv(s: Pool) {
    Ledger(s) && WorkConserving(s) && Accounted(s.work) && Lifecycle(s) && Joinable(s) && Manned(s)
  }

  lemma AllAwake(crew: map<nat, Doing>)
    ensures WakeAll(crew).Keys == crew.Keys && |WakeAll(crew)| == |crew|
    ensures Doers(WakeAll(crew), Parked) == {}
  {
    assert |WakeAll(crew)| == |WakeAll(crew).Keys|;
  }

  lemma LedgerKeptByExit(s: Pool, step: ExecutorStep)
    requires Ledger(s) && ExecutorCan(s, step) && (step.ExitExcess? || step.Release?)
    ensures Ledger(ExecutorDoes(s, step))
  {
    hide Doers, Wanted;
    SizeWithout(s.crew, step.executor);
  }

  lemma LedgerKeptByExecutor(s: Pool, step: ExecutorStep)
    requires Ledger(s) && ExecutorCan(s, step)
    ensures Ledger(ExecutorDoes(s, step))
  {
    hide Doers, Wanted;
    if step.ExitExcess? || step.Release? {
      hide Ledger, ExecutorCan, ExecutorDoes;
      LedgerKeptByExit(s, step);
    } else {
      var r := ExecutorDoes(s, step);
      assert r.crew.Keys == s.crew.Keys && |r.crew| == |r.crew.Keys|;
      assert r.slots == s.slots && r.manager == s.manager && r.hired == s.hired && r.target == s.target;
      assert r.startup == s.startup;
      hide ExecutorCan, ExecutorDoes;
    }
  }

  /** A cancelled manager is gone and may have woken everybody up; nobody came or went. */
  lemma CancelledManager(s: Pool)
    requires ManagerCan(s, ManagerCancelled)
    ensures var r := ManagerDoes(s, ManagerCancelled);
            && r.crew.Keys == s.crew.Keys && |r.crew| == |s.crew| && r.manager == Gone
            && r.slots == s.slots && r.hired == s.hired && r.target == s.target && r.work == s.work
            && r.handles == s.handles && r.spawned == s.spawned && r.toWait == s.toWait
            && r.stopper == s.stopper && r.starter == s.starter && (r.startup == Ready ==> s.startup == Ready)
    ensures s.manager == Top || s.manager.Settled?
  {
    hide WakeAll, Doers;
    AllAwake(s.crew);
  }

  lemma LedgerKeptByCancelled(s: Pool)
    requires Ledger(s) && ManagerCan(s, ManagerCancelled)
    ensures Ledger(ManagerDoes(s, ManagerCancelled))
  {
    hide ManagerDoes, ManagerCan;
    CancelledManager(s);
    assert forall e | e in ManagerDoes(s, ManagerCancelled).crew :: e in s.crew.Keys;
  }

  lemma LedgerKeptByReconcile(s: Pool, size: nat)
    requires Ledger(s) && ManagerCan(s, Reconcile(size))
    ensures Ledger(ManagerDoes(s, Reconcile(size)))
  {
    hide WakeAll;
    AllAwake(s.crew);
  }

  lemma LedgerKeptBySpawn(s: Pool)
    requires Ledger(s) && ManagerCan(s, SpawnOk)
    ensures Ledger(ManagerDoes(s, SpawnOk))
  {
    SizeWith(s.crew, s.hired, Entering);
  }

  lemma LedgerKeptByVerdict(s: Pool, step: ManagerStep)
    requires Ledger(s) && ManagerCan(s, step) && !step.ManagerCancelled? && !step.Reconcile? && !step.SpawnOk?
    ensures Ledger(ManagerDoes(s, step))
  {
  }

  lemma LedgerKeptByManager(s: Pool, step: ManagerStep)
    requires Ledger(s) && ManagerCan(s, step)
    ensures Ledger(ManagerDoes(s, step))
  {
    hide Ledger, ManagerCan, ManagerDoes;
    match step
    case ManagerCancelled => LedgerKeptByCancelled(s);
    case Reconcile(size) => LedgerKeptByReconcile(s, size);
    case SpawnOk => LedgerKeptBySpawn(s);
    case _ => LedgerKeptByVerdict(s, step);
  }

  lemma LedgerKeptByOthers(s: Pool, step: CallerStep)
    requires Ledger(s) && Lifecycle(s) && CallerCan(s, step)
    ensures Ledger(CallerDoes(s, step))
  {
    hide WakeAll, Doers;
    if step.ClaimStop? { AllAwake(s.crew); }
  }

  /** Who is on the way after one executor has changed what it does. */
  lemma OnTheWayAfter(crew: map<nat, Doing>, e: nat, what: Doing)
    ensures OnTheWay(crew[e := what]) ==
              if what == Entering || what == Woken then OnTheWay(crew) + {e} else OnTheWay(crew) - {e}
    ensures OnTheWay(crew - {e}) == OnTheWay(crew) - {e}
    ensures e in OnTheWay(crew) <==> e in crew && (crew[e] == Entering || crew[e] == Woken)
    ensures Doers(crew - {e}, Parked) <= Doers(crew, Parked)
    ensures Doers(crew[e := what], Parked) <= Doers(crew, Parked) + if what == Parked then {e} else {}
  {
  }

  /** Notified, woken up, done with a task or about to wait. */
  predicate StaysIn(step: ExecutorStep) {
    step.Notify? || step.WakeUp? || step.Park? || step.Finish?
  }

  lemma WorkKeptByStaying(s: Pool, step: ExecutorStep)
    requires WorkConserving(s) && ExecutorCan(s, step) && StaysIn(step)
    ensures WorkConserving(ExecutorDoes(s, step))
  {
    hide OnTheWay;
    OnTheWayAfter(s.crew, step.executor, if step.Park? then Parked else if step.Finish? then Entering else Woken);
  }

  lemma WorkKeptByLeaving(s: Pool, step: ExecutorStep)
    requires WorkConserving(s) && ExecutorCan(s, step) && !StaysIn(step)
    ensures WorkConserving(ExecutorDoes(s, step))
  {
    hide OnTheWay;
    OnTheWayAfter(s.crew, step.executor, if step.Take? then Busy(step.task) else Leaving);
  }

  /** A shrinking pool wakes everybody up. */
  lemma WorkKeptByReconcile(s: Pool, size: nat)
    requires WorkConserving(s) && Ledger(s) && ManagerCan(s, Reconcile(size))
    ensures WorkConserving(ManagerDoes(s, Reconcile(size)))
  {
    hide OnTheWay, WakeAll;
    AllAwake(s.crew);
  }

  lemma WorkKeptBySpawn(s: Pool)
    requires WorkConserving(s) && Ledger(s) && ManagerCan(s, SpawnOk)
    ensures WorkConserving(ManagerDoes(s, SpawnOk))
  {
    hide OnTheWay;
    OnTheWayAfter(s.crew, s.hired, Entering);
  }

  lemma WorkKeptByCancelled(s: Pool)
    requires WorkConserving(s) && ManagerCan(s, ManagerCancelled)
    ensures WorkConserving(ManagerDoes(s, ManagerCancelled))
  {
    hide OnTheWay, WakeAll;
    AllAwake(s.crew);
  }

  lemma WorkKeptByVerdict(s: Pool, step: ManagerStep)
    requires WorkConserving(s) && Ledger(s) && ManagerCan(s, step)
    requires !step.ManagerCancelled? && !step.Reconcile? && !step.SpawnOk?
    ensures WorkConserving(ManagerDoes(s, step))
  {
    var r := ManagerDoes(s, step);
    assert r.crew == s.crew && r.work == s.work && r.notifies == s.notifies && r.done == s.done && r.target == s.target;
    assert r.slots <= s.slots || r.slots <= r.target;
    hide OnTheWay, Doers, ManagerCan, ManagerDoes, Ledger;
  }

  lemma WorkKeptByManager(s: Pool, step: ManagerStep)
    requires WorkConserving(s) && Ledger(s) && Lifecycle(s) && ManagerCan(s, step)
    ensures WorkConserving(ManagerDoes(s, step))
  {
    hide WorkConserving, Ledger, Lifecycle, ManagerCan, ManagerDoes;
    match step
    case ManagerCancelled => WorkKeptByCancelled(s);
    case Reconcile(size) => WorkKeptByReconcile(s, size);
    case SpawnOk => WorkKeptBySpawn(s);
    case _ => WorkKeptByVerdict(s, step);
  }

  lemma WorkKeptByOthers(s: Pool, step: CallerStep)
    requires WorkConserving(s) && Lifecycle(s) && CallerCan(s, step)
    ensures WorkConserving(CallerDoes(s, step))
  {
    hide OnTheWay, WakeAll;
    if step.ClaimStop? { AllAwake(s.crew); }
  }

  lemma AccountedKeptByExecutor(s: Pool, step: ExecutorStep)
    requires Accounted(s.work) && ExecutorCan(s, step)
    ensures Accounted(ExecutorDoes(s, step).work)
  {
    hide Doers;
  }

  lemma AccountedKeptByOthers(s: Pool, step: CallerStep)
    requires Accounted(s.work) && CallerCan(s, step)
    ensures Accounted(CallerDoes(s, step).work)
  {
    hide WakeAll;
  }

  lemma LifecycleKeptByExecutor(s: Pool, step: ExecutorStep)
    requires Lifecycle(s) && ExecutorCan(s, step)
    ensures Lifecycle(ExecutorDoes(s, step))
  {
    hide Doers;
  }

  lemma LifecycleKeptByCancelled(s: Pool)
    requires Lifecycle(s) && ManagerCan(s, ManagerCancelled)
    ensures Lifecycle(ManagerDoes(s, ManagerCancelled))
  {
    hide WakeAll;
  }

  lemma LifecycleKeptByVerdict(s: Pool, step: ManagerStep)
    requires Lifecycle(s) && ManagerCan(s, step) && !step.ManagerCancelled?
    ensures Lifecycle(ManagerDoes(s, step))
  {
    hide WakeAll;
  }

  lemma LifecycleKeptByManager(s: Pool, step: ManagerStep)
    requires Lifecycle(s) && ManagerCan(s, step)
    ensures Lifecycle(ManagerDoes(s, step))
    ensures ManagerDoes(s, step).work == s.work
  {
    hide Lifecycle, WakeAll;
    if step.ManagerCancelled? { LifecycleKeptByCancelled(s); } else { LifecycleKeptByVerdict(s, step); }
  }

  lemma LifecycleKeptByOthers(s: Pool, step: CallerStep)
    requires Lifecycle(s) && Joinable(s) && CallerCan(s, step)
    ensures Lifecycle(CallerDoes(s, step))
  {
    hide WakeAll;
  }

  lemma JoinableKeptByExecutor(s: Pool, step: ExecutorStep)
    requires Joinable(s) && ExecutorCan(s, step)
    ensures Joinable(ExecutorDoes(s, step))
  {
    hide WakeAll, Doers;
  }

  lemma JoinableKeptByReconcile(s: Pool, size: nat)
    requires Joinable(s) && ManagerCan(s, Reconcile(size))
    ensures Joinable(ManagerDoes(s, Reconcile(size)))
  {
    hide WakeAll;
    AllAwake(s.crew);
  }

  lemma JoinableKeptBySpawning(s: Pool, step: ManagerStep)
    requires Joinable(s) && ManagerCan(s, step) && (step.SpawnOk? || step.Adopt?)
    ensures Joinable(ManagerDoes(s, step))
  {
    hide WakeAll;
  }

  lemma JoinableKeptByCancelled(s: Pool)
    requires Joinable(s) && ManagerCan(s, ManagerCancelled)
    ensures Joinable(ManagerDoes(s, ManagerCancelled))
  {
    hide ManagerDoes, ManagerCan;
    CancelledManager(s);
    assert forall e | e in ManagerDoes(s, ManagerCancelled).crew :: e in s.crew.Keys;
  }

  lemma JoinableKeptByVerdict(s: Pool, step: ManagerStep)
    requires Joinable(s) && ManagerCan(s, step)
    requires !step.ManagerCancelled? && !step.Reconcile? && !step.SpawnOk? && !step.Adopt?
    ensures Joinable(ManagerDoes(s, step))
  {
  }

  lemma JoinableKeptByManager(s: Pool, step: ManagerStep)
    requires Joinable(s) && ManagerCan(s, step)
    ensures Joinable(ManagerDoes(s, step))
  {
    hide Joinable, ManagerCan, ManagerDoes;
    if step.ManagerCancelled? {
      JoinableKeptByCancelled(s);
    } else if step.Reconcile? {
      JoinableKeptByReconcile(s, step.size);
    } else if step.SpawnOk? || step.Adopt? {
      JoinableKeptBySpawning(s, step);
    } else {
      JoinableKeptByVerdict(s, step);
    }
  }

  lemma JoinableKeptByOthers(s: Pool, step: CallerStep)
    requires Joinable(s) && Lifecycle(s) && CallerCan(s, step)
    ensures Joinable(CallerDoes(s, step))
  {
    hide WakeAll, Doers;
    if step.ClaimStop? { AllAwake(s.crew); }
    if step.StopReturns? {
      assert forall e | e in s.crew :: e in s.toWait;
      assert s.crew.Keys == {};
    }
  }

  lemma MannedKeptByExecutor(s: Pool, step: ExecutorStep)
    requires Manned(s) && Ledger(s) && ExecutorCan(s, step)
    ensures Manned(ExecutorDoes(s, step))
  {
    hide WakeAll, Doers;
    var r := ExecutorDoes(s, step);
    if step.ExitExcess? {
      if !s.idleCancelled && !(s.done && s.work.queue == {}) {
        SomeoneElse(s.crew, step.executor);
      }
    } else if SomeoneStays(s.crew) {
      var e :| e in s.crew && s.crew[e] != Leaving;
      assert e in r.crew && (e == step.executor || r.crew[e] == s.crew[e]);
    }
  }

  lemma CrewedIsManned(s: Pool)
    requires Manned(s) && !s.idleCancelled && !s.done && |s.crew| > 0
    ensures SomeoneStays(s.crew)
  {
    assert s.crew.Keys != {};
    var e :| e in s.crew;
  }

  lemma SomeoneStillStays(s: Pool, step: ManagerStep)
    requires ManagerCan(s, step) && SomeoneStays(s.crew) && forall e | e in s.crew :: e < s.hired
    ensures SomeoneStays(ManagerDoes(s, step).crew)
  {
    hide Doers;
    var e :| e in s.crew && s.crew[e] != Leaving;
    assert e in WakeAll(s.crew) && WakeAll(s.crew)[e] != Leaving;
    assert e in ManagerDoes(s, step).crew && ManagerDoes(s, step).crew[e] != Leaving;
  }

  lemma MannedKeptByReconcile(s: Pool, step: ManagerStep)
    requires Manned(s) && Ledger(s) && ManagerCan(s, step) && step.Reconcile?
    ensures Manned(ManagerDoes(s, step))
  {
    if !s.idleCancelled && !s.done && |s.crew| > 0 { CrewedIsManned(s); }
    if SomeoneStays(s.crew) { SomeoneStillStays(s, step); }
    SameLeavers(s.crew);
    hide Doers, WakeAll, SomeoneStays;
  }

  lemma MannedKeptBySpawning(s: Pool, step: ManagerStep)
    requires Manned(s) && Ledger(s) && ManagerCan(s, step)
    requires step.Reserve? || step.SpawnOk? || step.SpawnFail? || step.GrowthDone? || step.Adopt?
    ensures Manned(ManagerDoes(s, step))
  {
    if !s.idleCancelled && !s.done && |s.crew| > 0 { CrewedIsManned(s); }
    if SomeoneStays(s.crew) { SomeoneStillStays(s, step); }
    hide Doers, WakeAll, SomeoneStays;
  }

  lemma MannedKeptByCancelled(s: Pool)
    requires Manned(s) && ManagerCan(s, ManagerCancelled) && (s.startup == Ready || s.work.queue == {})
    requires forall e | e in s.crew :: e < s.hired
    ensures Manned(ManagerDoes(s, ManagerCancelled))
  {
    if SomeoneStays(s.crew) { SomeoneStillStays(s, ManagerCancelled); }
    SameLeavers(s.crew);
    hide WakeAll, SomeoneStays;
  }

  lemma MannedKeptByVerdict(s: Pool, step: ManagerStep)
    requires Manned(s) && Ledger(s) && ManagerCan(s, step) && (s.startup == Ready || s.work.queue == {})
    requires step.ManagerCheck? || step.ManagerFails? || step.ManagerReady?
    ensures Manned(ManagerDoes(s, step))
  {
    if !s.idleCancelled && !s.done && |s.crew| > 0 { CrewedIsManned(s); }
    hide SomeoneStays;
  }

  lemma QuietBeforeReady(s: Pool)
    requires Lifecycle(s) && Accounted(s.work)
    ensures s.startup == Ready || s.work.queue == {}
  {
    assert s.work.accepted == 0 ==> s.work.queue == {};
  }

  lemma SameLeavers(crew: map<nat, Doing>)
    ensures forall e | e in WakeAll(crew) && WakeAll(crew)[e] == Leaving :: e in crew && crew[e] == Leaving
  {
  }

  lemma MannedKeptByStop(s: Pool)
    requires Manned(s) && CallerCan(s, ClaimStop)
    ensures Manned(CallerDoes(s, ClaimStop))
  {
    SameLeavers(s.crew);
    if SomeoneStays(s.crew) {
      var e :| e in s.crew && s.crew[e] != Leaving;
      assert e in WakeAll(s.crew) && WakeAll(s.crew)[e] != Leaving;
    }
    hide WakeAll;
  }

  lemma MannedKeptByOthers(s: Pool, step: CallerStep)
    requires Manned(s) && Ledger(s) && Lifecycle(s) && CallerCan(s, step)
    ensures Manned(CallerDoes(s, step))
  {
    hide SomeoneStays, Reserved;
    if step.ClaimStop? {
      hide Manned;
      MannedKeptByStop(s);
    }
  }

  /** Two executors of which none is leaving: one of them can go. */
  lemma SomeoneElse(crew: map<nat, Doing>, e: nat)
    requires |crew| > 1 && forall d | d in crew :: crew[d] != Leaving
    ensures SomeoneStays(crew - {e})
  {
    if forall d | d in crew :: d == e {
      assert crew.Keys <= {e};
      assert |crew.Keys| <= 1 by { SubsetSize(crew.Keys, e); }
    } else {
      var d :| d in crew && d != e;
      assert d in crew - {e};
    }
  }

  lemma SubsetSize(s: set<nat>, e: nat)
    requires s <= {e}
    ensures |s| <= 1
  {
    if e in s { assert s == {e}; } else { assert s == {}; }
  }

  lemma ExecutorKeeps(s: Pool, step: ExecutorStep)
    requires Inv(s) && ExecutorCan(s, step)
    ensures Inv(ExecutorDoes(s, step))
  {
    LedgerKeptByExecutor(s, step);
    if StaysIn(step) { WorkKeptByStaying(s, step); } else { WorkKeptByLeaving(s, step); }
    AccountedKeptByExecutor(s, step);
    LifecycleKeptByExecutor(s, step);
    JoinableKeptByExecutor(s, step);
    MannedKeptByExecutor(s, step);
    hide Ledger, WorkConserving, Accounted, Lifecycle, Joinable, Manned, ExecutorCan, ExecutorDoes;
  }

  lemma ManagerKeeps(s: Pool, step: ManagerStep)
    requires Inv(s) && ManagerCan(s, step)
    ensures Inv(ManagerDoes(s, step))
  {
    LedgerKeptByManager(s, step);
    WorkKeptByManager(s, step);
    LifecycleKeptByManager(s, step);
    JoinableKeptByManager(s, step);
    MannedKeptByManager(s, step);
    hide Ledger, WorkConserving, Accounted, Lifecycle, Joinable, Manned, ManagerCan, ManagerDoes;
  }

  lemma MannedKeptByManager(s: Pool, step: ManagerStep)
    requires Inv(s) && ManagerCan(s, step)
    ensures Manned(ManagerDoes(s, step))
  {
    hide WorkConserving, Accounted, Lifecycle, Joinable, Manned, ManagerCan, ManagerDoes;
    QuietBeforeReady(s);
    if step.Reconcile? {
      MannedKeptByReconcile(s, step);
    } else if step.ManagerCancelled? {
      MannedKeptByCancelled(s);
    } else if step.ManagerCheck? || step.ManagerFails? || step.ManagerReady? {
      MannedKeptByVerdict(s, step);
    } else {
      MannedKeptBySpawning(s, step);
    }
  }

  lemma CallerKeeps(s: Pool, step: CallerStep)
    requires Inv(s) && CallerCan(s, step)
    ensures Inv(CallerDoes(s, step))
  {
    LedgerKeptByOthers(s, step);
    WorkKeptByOthers(s, step);
    AccountedKeptByOthers(s, step);
    LifecycleKeptByOthers(s, step);
    JoinableKeptByOthers(s, step);
    MannedKeptByOthers(s, step);
    hide Ledger, WorkConserving, Accounted, Lifecycle, Joinable, Manned, CallerCan, CallerDoes;
  }

  lemma StepKeeps(s: Pool, step: Step)
    requires Inv(s) && Enabled(s, step)
    ensures Inv(Do(s, step))
  {
    hide Inv, ExecutorCan, ManagerCan, CallerCan, ExecutorDoes, ManagerDoes, CallerDoes;
    match step
    case ByExecutor(act) => ExecutorKeeps(s, act);
    case ByManager(deed) => ManagerKeeps(s, deed);
    case ByCaller(call) => CallerKeeps(s, call);
  }

  predicate CancelsIdle(step: Step) {
    step.ByExecutor? && step.act.IdleCancel?
  }

  predicate IsExcessExit(step: Step) {
    step.ByExecutor? && step.act.ExitExcess?
  }

  /** What one step may do to the slots, to done_ and to what was accepted. */
  predicate WithinBounds(s: Pool, step: Step, r: Pool) {
    && (r.slots > s.slots ==> r.slots == s.slots + 1 && r.slots <= r.target)
    && (IsExcessExit(step) ==> r.slots >= r.target >= 1)
    && (s.done ==> r.done && r.work.accepted == s.work.accepted)
    && (r.work.accepted > s.work.accepted ==> s.phase == Running)
    && (r.idleCancelled ==> s.idleCancelled || CancelsIdle(step))
  }

  lemma ExecutorBounds(s: Pool, step: ExecutorStep)
    requires Ledger(s) && ExecutorCan(s, step)
    ensures WithinBounds(s, ByExecutor(step), ExecutorDoes(s, step))
  {
    hide WakeAll, Doers;
    if step.ExitExcess? { SizeWithout(s.crew, step.executor); }
  }

  lemma ManagerBounds(s: Pool, step: ManagerStep)
    requires Ledger(s) && ManagerCan(s, step)
    ensures WithinBounds(s, ByManager(step), ManagerDoes(s, step))
  {
    hide WakeAll, Doers;
  }

  lemma CallerBounds(s: Pool, step: CallerStep)
    requires CallerCan(s, step)
    ensures WithinBounds(s, ByCaller(step), CallerDoes(s, step))
  {
    hide WakeAll, Doers;
  }

  lemma StepBounds(s: Pool, step: Step)
    requires Inv(s) && Enabled(s, step)
    ensures WithinBounds(s, step, Do(s, step))
  {
    hide ExecutorCan, ManagerCan, CallerCan, ExecutorDoes, ManagerDoes, CallerDoes, WithinBounds;
    match step
    case ByExecutor(act) => ExecutorBounds(s, act);
    case ByManager(deed) => ManagerBounds(s, deed);
    case ByCaller(call) => CallerBounds(s, call);
  }

  lemma InitiallyHolds()
    ensures Inv(INITIAL)
  {
  }

  lemma {:induction false} RunKeeps(steps: seq<Step>)
    requires Run(steps).Some?
    ensures Inv(Run(steps).value)
    ensures (forall step | step in steps :: !CancelsIdle(step)) ==> !Run(steps).value.idleCancelled
  {
    hide Inv, Do, Enabled;
    if steps == [] {
      InitiallyHolds();
    } else {
      var before := steps[..|steps| - 1];
      var last := steps[|steps| - 1];
      RunKeeps(before);
      StepKeeps(Run(before).value, last);
      assert last in steps && forall step | step in before :: step in steps;
      StepBounds(Run(before).value, last);
    }
  }

  // ---------------------------------------------------------------- main results

  /** No lost wake-up, in any reachable state. */
  lemma NobodySleepsOnWork(steps: seq<Step>)
    requires Run(steps).Some? && Doers(Run(steps).value.crew, Parked) != {}
    ensures var s := Run(steps).value;
            && |s.work.queue| <= |OnTheWay(s.crew)| + s.notifies
            && s.slots <= s.target && !s.done
  {
    RunKeeps(steps);
  }

  /** The slot counter always equals the executors that hold a slot plus the one being spawned. */
  lemma SlotsAreExecutors(steps: seq<Step>)
    requires Run(steps).Some?
    ensures var s := Run(steps).value; s.slots == |s.crew| + Reserved(s.manager)
  {
    RunKeeps(steps);
  }

  /** One step of any run: growth stays within the target, an excess exit stays above it, done_ ends acceptance. */
  lemma BoundsOfEveryStep(steps: seq<Step>, step: Step)
    requires Run(steps).Some? && Enabled(Run(steps).value, step)
    ensures WithinBounds(Run(steps).value, step, Do(Run(steps).value, step))
  {
    RunKeeps(steps);
    StepBounds(Run(steps).value, step);
  }

  // ---------------------------------------------------------------- draining, whatever was cancelled

  function Stayers(crew: map<nat, Doing>): set<nat> {
    set e | e in crew && crew[e] != Leaving
  }

  lemma Halves(crew: map<nat, Doing>)
    ensures |crew| == |Doers(crew, Leaving)| + |Stayers(crew)|
    ensures SomeoneStays(crew) <==> |Stayers(crew)| > 0
  {
    assert crew.Keys == Doers(crew, Leaving) + Stayers(crew);
    assert |crew| == |crew.Keys|;
    if SomeoneStays(crew) {
      var e :| e in crew && crew[e] != Leaving;
      assert e in Stayers(crew);
    }
    if |Stayers(crew)| > 0 {
      var e :| e in Stayers(crew);
    }
  }

  /** stop() has joined the manager. */
  predicate PastManager(s: Pool) {
    s.stopper == Collect || s.stopper == AwaitExecutors || s.stopper == Finished
  }

  /** Nothing waits, or some executor stays and the leaving ones alone do not fill the target. */
  ghost predicate Safe(s: Pool) {
    s.work.queue == {} || (SomeoneStays(s.crew) && |Doers(s.crew, Leaving)| < s.target)
  }

  /** An executor that is not leaving changes what it does, or leaves as excess. */
  lemma StayersAfter(crew: map<nat, Doing>, e: nat, what: Doing)
    requires e in crew && crew[e] != Leaving && what != Leaving
    ensures Doers(crew[e := what], Leaving) == Doers(crew, Leaving) == Doers(crew - {e}, Leaving)
    ensures Stayers(crew[e := what]) == Stayers(crew) && Stayers(crew - {e}) == Stayers(crew) - {e}
  {
  }

  lemma LeaverGoes(crew: map<nat, Doing>, e: nat)
    requires e in crew && crew[e] == Leaving
    ensures Doers(crew - {e}, Leaving) == Doers(crew, Leaving) - {e} && Stayers(crew - {e}) == Stayers(crew)
  {
  }

  lemma SafeKeptByExecutor(s: Pool, step: ExecutorStep)
    requires Inv(s) && PastManager(s) && Safe(s) && ExecutorCan(s, step)
    ensures Safe(ExecutorDoes(s, step))
  {
    var r, e := ExecutorDoes(s, step), step.executor;
    assert s.done && s.slots == |s.crew| by { assert Lifecycle(s) && Ledger(s) && Joinable(s); }
    hide Inv;
    Halves(s.crew);
    Halves(r.crew);
    if step.Release? {
      LeaverGoes(s.crew, e);
    } else if e in s.crew && s.crew[e] != Leaving && !step.ExitDone? {
      StayersAfter(s.crew, e, if step.ExitExcess? || r.crew[e] == Leaving then Entering else r.crew[e]);
    }
    hide Doers, Stayers, SomeoneStays;
  }

  lemma NoManagerLeft(s: Pool, step: ManagerStep)
    requires Joinable(s) && PastManager(s)
    ensures !ManagerCan(s, step)
  {
  }

  lemma SafeKeptByCaller(s: Pool, step: CallerStep)
    requires Lifecycle(s) && PastManager(s) && Safe(s) && CallerCan(s, step)
    ensures PastManager(CallerDoes(s, step)) && Safe(CallerDoes(s, step))
  {
    hide Doers, SomeoneStays, WakeAll;
  }

  lemma StopperUnmoved(s: Pool, step: ExecutorStep)
    requires ExecutorCan(s, step)
    ensures ExecutorDoes(s, step).stopper == s.stopper
  {
    hide Doers;
  }

  lemma SafeKept(s: Pool, step: Step)
    requires Inv(s) && PastManager(s) && Safe(s) && Enabled(s, step)
    ensures PastManager(Do(s, step)) && Safe(Do(s, step))
  {
    hide Safe, Ledger, WorkConserving, Accounted, Lifecycle, Joinable, Manned;
    hide ExecutorCan, ExecutorDoes, ManagerCan, ManagerDoes, CallerCan, CallerDoes;
    match step
    case ByExecutor(act) =>
      SafeKeptByExecutor(s, act);
      StopperUnmoved(s, act);
    case ByManager(deed) => NoManagerLeft(s, deed);
    case ByCaller(call) => SafeKeptByCaller(s, call);
  }

  /** From a safe state, every continuation is safe. */
  lemma {:induction false} StaysSafe(steps: seq<Step>, n: nat)
    requires n <= |steps| && Run(steps).Some? && Run(steps[..n]).Some?
    requires PastManager(Run(steps[..n]).value) && Safe(Run(steps[..n]).value)
    ensures PastManager(Run(steps).value) && Safe(Run(steps).value)
    decreases |steps|
  {
    hide Inv, Do, Enabled, Safe, PastManager;
    if n == |steps| {
      assert steps[..n] == steps;
    } else {
      var before := steps[..|steps| - 1];
      assert before[..n] == steps[..n];
      StaysSafe(before, n);
      RunKeeps(before);
      SafeKept(Run(before).value, steps[|steps| - 1]);
    }
  }

  /** One more step, on top of a run. */
  lemma After(steps: seq<Step>, step: Step)
    requires Run(steps).Some? && Enabled(Run(steps).value, step)
    ensures Run(steps + [step]) == Some(Do(Run(steps).value, step))
  {
    assert (steps + [step])[..|steps|] == steps;
  }

  function Working(crew: map<nat, Doing>): set<nat> {
    set e | e in crew && crew[e].Busy?
  }

  /** Tasks wait, and executors may leave until nobody is left to run them. */
  ghost predicate Doomed(s: Pool) {
    s.stopper == Collect && !Safe(s)
  }

  lemma LastOneLeaves(s: Pool) returns (step: ExecutorStep)
    requires Doomed(s) && s.crew != map[] && |Stayers(s.crew)| == 0
    ensures ExecutorCan(s, step) && Doomed(ExecutorDoes(s, step)) && |ExecutorDoes(s, step).crew| < |s.crew|
  {
    Halves(s.crew);
    var e :| e in s.crew;
    assert e !in Stayers(s.crew);
    step := Release(e);
    LeaverGoes(s.crew, e);
    SizeWithout(s.crew, e);
    Halves(s.crew - {e});
  }

  /** One step towards a pool without executors: finish a task, leave as excess, or release a slot. */
  lemma OneStepDown(s: Pool) returns (step: ExecutorStep)
    requires Inv(s) && Doomed(s) && s.crew != map[]
    ensures ExecutorCan(s, step) && Doomed(ExecutorDoes(s, step))
    ensures var r := ExecutorDoes(s, step);
            |r.crew| < |s.crew| || (|r.crew| == |s.crew| && |Working(r.crew)| < |Working(s.crew)|)
  {
    assert s.done && s.slots == |s.crew| && Doers(s.crew, Parked) == {} by {
      assert Lifecycle(s) && Ledger(s) && Joinable(s) && WorkConserving(s);
    }
    hide Inv, Doomed, ExecutorCan, ExecutorDoes, Working, Stayers;
    if |Stayers(s.crew)| > 0 { step := StayerStep(s); } else { step := LastOneLeaves(s); }
  }

  lemma StayerStep(s: Pool) returns (step: ExecutorStep)
    requires s.done && s.slots == |s.crew| && Doers(s.crew, Parked) == {} && Doomed(s) && |Stayers(s.crew)| > 0
    ensures ExecutorCan(s, step) && Doomed(ExecutorDoes(s, step))
    ensures var r := ExecutorDoes(s, step);
            |r.crew| < |s.crew| || (|r.crew| == |s.crew| && |Working(r.crew)| < |Working(s.crew)|)
  {
    var e :| e in Stayers(s.crew);
    assert e !in Doers(s.crew, Parked);
    Halves(s.crew);
    if s.crew[e].Busy? {
      step := Finish(e);
      StayersAfter(s.crew, e, Entering);
      Halves(s.crew[e := Entering]);
      SizeWith(s.crew, e, Entering);
      assert Working(s.crew) == Working(s.crew[e := Entering]) + {e};
    } else {
      step := ExitExcess(e);
      StayersAfter(s.crew, e, Entering);
      Halves(s.crew - {e});
      SizeWithout(s.crew, e);
    }
  }

  /** Once nobody is left, stop() returns and leaves the tasks behind. */
  lemma StopReturnsAnyway(steps: seq<Step>) returns (more: seq<Step>)
    requires Run(steps).Some? && Doomed(Run(steps).value) && Run(steps).value.crew == map[]
    ensures steps <= more && Run(more).Some? && Run(more).value.phase == Stopped && Run(more).value.work.queue != {}
  {
    var collect, stop := ByCaller(CollectHandles), ByCaller(StopReturns);
    After(steps, collect);
    After(steps + [collect], stop);
    more := steps + [collect] + [stop];
    hide Run;
  }

  lemma {:induction false} Strand(steps: seq<Step>) returns (more: seq<Step>)
    requires Run(steps).Some? && Doomed(Run(steps).value)
    ensures steps <= more && Run(more).Some? && Run(more).value.phase == Stopped && Run(more).value.work.queue != {}
    decreases |Run(steps).value.crew|, |Working(Run(steps).value.crew)|
  {
    hide Run, Inv, Doomed, ExecutorCan, ExecutorDoes, Working;
    if Run(steps).value.crew == map[] {
      more := StopReturnsAnyway(steps);
    } else {
      RunKeeps(steps);
      var step := OneStepDown(Run(steps).value);
      After(steps, ByExecutor(step));
      more := Strand(steps + [ByExecutor(step)]);
    }
  }

  /** However the run goes on, stop() does not return before every accepted task was begun. */
  ghost predicate AlwaysDrains(steps: seq<Step>) {
    forall more | steps <= more && EndsStopped(more) :: Run(more).value.work.queue == {}
  }

  predicate EndsStopped(steps: seq<Step>) {
    Run(steps).Some? && Run(steps).value.phase == Stopped
  }

  /**
   When stop() has joined the manager, it is settled whether tasks can be left behind: every continuation drains the
   queue if and only if nothing waits, or an executor stays and fewer executors than the target are leaving.
   */
  lemma DrainsIff(steps: seq<Step>)
    requires Run(steps).Some? && Run(steps).value.stopper == Collect
    ensures AlwaysDrains(steps) <==> Safe(Run(steps).value)
  {
    if Safe(Run(steps).value) {
      forall more | steps <= more && EndsStopped(more) ensures Run(more).value.work.queue == {} {
        assert more[..|steps|] == steps;
        SafeAtTheEnd(more, |steps|);
      }
    } else {
      var more := Strand(steps);
      assert EndsStopped(more);
    }
  }

  /** A run that ends with stop() and was safe when the manager was joined has drained its queue. */
  lemma SafeAtTheEnd(steps: seq<Step>, n: nat)
    requires EndsStopped(steps) && n <= |steps| && Run(steps[..n]).Some?
    requires Run(steps[..n]).value.stopper == Collect && Safe(Run(steps[..n]).value)
    ensures Run(steps).value.work.queue == {}
  {
    StaysSafe(steps, n);
    RunKeeps(steps);
    assert Joinable(Run(steps).value) && Lifecycle(Run(steps).value);
    hide Inv, Run;
  }

  /** Every stop() that has returned has joined the manager before. */
  lemma {:induction false} JoinedBefore(steps: seq<Step>) returns (n: nat)
    requires Run(steps).Some? && PastManager(Run(steps).value)
    ensures n <= |steps| && Run(steps[..n]).Some? && Run(steps[..n]).value.stopper == Collect
  {
    assert steps != [];
    if Run(steps).value.stopper == Collect {
      n := |steps|;
      assert steps[..n] == steps;
    } else {
      var before, last := steps[..|steps| - 1], steps[|steps| - 1];
      CameFrom(Run(before).value, last);
      n := JoinedBefore(before);
      assert before[..n] == steps[..n];
    }
  }

  lemma ManagerLeavesStopper(s: Pool, step: ManagerStep)
    requires ManagerCan(s, step)
    ensures ManagerDoes(s, step).stopper == s.stopper
  {
    hide WakeAll;
  }

  lemma CameFrom(s: Pool, step: Step)
    requires Enabled(s, step) && PastManager(Do(s, step)) && Do(s, step).stopper != Collect
    ensures PastManager(s)
  {
    hide Doers, WakeAll, ExecutorDoes, ManagerDoes, ExecutorCan, ManagerCan;
    match step
    case ByExecutor(act) => StopperUnmoved(s, act);
    case ByManager(deed) => ManagerLeavesStopper(s, deed);
    case ByCaller(call) =>
  }

  /** Without a cancellation of an idle executor the state is always safe. */
  lemma SafeWithoutIdleCancel(s: Pool)
    requires Inv(s) && PastManager(s) && !s.idleCancelled
    ensures Safe(s)
  {
    if s.work.queue != {} {
      var t :| t in s.work.queue;
      assert s.work.accepted > 0;
      assert Doers(s.crew, Leaving) == {};
    }
    hide WorkConserving, Joinable;
  }

  /**
   When stop() has returned, every accepted task was run, exactly once, no executor is left and no slot is taken,
   if no executor's own coroutine was cancelled while it was idle. `DrainsIff` says what happens if one was.
   */
  lemma StoppedMeansDrained(steps: seq<Step>)
    requires EndsStopped(steps) && forall step | step in steps :: !CancelsIdle(step)
    ensures var s := Run(steps).value;
            && s.work.queue == {} && s.crew == map[] && s.slots == 0
            && NoDuplicates(s.work.begun)
            && (forall t :: t in s.work.begun <==> 0 <= t < s.work.accepted)
  {
    RunKeeps(steps);
    var s := Run(steps).value;
    assert Lifecycle(s) && Joinable(s) && PastManager(s);
    var n := JoinedBefore(steps);
    assert forall step | step in steps[..n] :: step in steps;
    RunKeeps(steps[..n]);
    SafeWithoutIdleCancel(Run(steps[..n]).value);
    SafeAtTheEnd(steps, n);
    hide Run, WorkConserving, Manned;
  }

  /** One more step of a concrete run, with the state it leads to. */
  lemma Then(s: Pool, steps: seq<Step>, step: Step, after: Pool) returns (s': Pool, steps': seq<Step>)
    requires Run(steps) == Some(s) && Enabled(s, step) && Do(s, step) == after
    ensures s' == after && Run(steps') == Some(after)
  {
    assert (steps + [step])[..|steps|] == steps;
    return after, steps + [step];
  }

  /** A start() that waits for the manager it launched. */
  lemma LaunchOne() returns (s: Pool, steps: seq<Step>)
    ensures Run(steps) == Some(s) && s == INITIAL.(phase := Starting, manager := Checked, starter := Waiting)
  {
    s, steps := INITIAL, [];
    assert Run(steps) == Some(s);
    hide Run;
    s, steps := Then(s, steps, ByCaller(CallStart), s.(phase := Starting, starter := Launching));
    s, steps := Then(s, steps, ByCaller(LaunchManager), s.(manager := Top));
    s, steps := Then(s, steps, ByCaller(Publish), s.(starter := Waiting));
    s, steps := Then(s, steps, ByManager(ManagerCheck), s.(manager := Checked));
  }

  /** A pool whose first executor was just spawned by the manager of a start() that waits. */
  lemma SpawnOne() returns (s: Pool, steps: seq<Step>)
    ensures Run(steps) == Some(s)
    ensures s == INITIAL.(phase := Starting, crew := map[0 := Entering], hired := 1, slots := 1, target := 1,
                          spawned := {0}, manager := Growing(0, false), starter := Waiting)
  {
    s, steps := LaunchOne();
    hide Run;
    s, steps := Then(s, steps, ByManager(Reconcile(1)), s.(target := 1, manager := Growing(1, false)));
    s, steps := Then(s, steps, ByManager(Reserve), s.(slots := 1, manager := Growing(1, true)));
    s, steps := Then(s, steps, ByManager(SpawnOk),
                     s.(crew := map[0 := Entering], spawned := {0}, hired := 1, manager := Growing(0, false)));
  }

  /** The same pool, running. */
  lemma RunOne() returns (s: Pool, steps: seq<Step>)
    ensures Run(steps) == Some(s)
    ensures s == INITIAL.(phase := Running, startup := Ready, crew := map[0 := Entering], hired := 1, slots := 1,
                          target := 1, handles := {0}, manager := Top, starter := Returned)
  {
    s, steps := SpawnOne();
    hide Run;
    s, steps := Then(s, steps, ByManager(GrowthDone), s.(manager := Adopting(false)));
    s, steps := Then(s, steps, ByManager(Adopt), s.(handles := {0}, spawned := {}, manager := Settled(false)));
    s, steps := Then(s, steps, ByManager(ManagerReady), s.(startup := Ready, manager := Top));
    s, steps := Then(s, steps, ByCaller(StartReturns), s.(starter := Returned, phase := Running));
  }

  /** Its executor is gone and its first task waits. */
  lemma StrandOne() returns (s: Pool, steps: seq<Step>)
    ensures Run(steps) == Some(s)
    ensures s == INITIAL.(phase := Running, startup := Ready, work := Backlog({0}, 1, []), hired := 1, target := 1,
                          notifies := 1, handles := {0}, manager := Top, starter := Returned, idleCancelled := true)
  {
    s, steps := RunOne();
    hide Run;
    s, steps := Then(s, steps, ByExecutor(IdleCancel(0)), s.(crew := map[0 := Leaving], idleCancelled := true));
    s, steps := Then(s, steps, ByExecutor(Release(0)), s.(crew := map[], slots := 0));
    s, steps := Then(s, steps, ByCaller(Accept), s.(work := Backlog({0}, 1, []), notifies := 1));
  }

  /** stop() has set done_ and the manager has seen it. */
  lemma CloseOne() returns (s: Pool, steps: seq<Step>)
    ensures Run(steps) == Some(s)
    ensures s == INITIAL.(phase := Stopping, startup := Ready, done := true, work := Backlog({0}, 1, []), hired := 1,
                          target := 1, notifies := 1, handles := {0}, manager := Gone, starter := Returned,
                          stopper := JoinManager, idleCancelled := true)
  {
    s, steps := StrandOne();
    hide Run;
    s, steps := Then(s, steps, ByCaller(ClaimStop), s.(phase := Stopping, done := true, stopper := JoinManager));
    s, steps := Then(s, steps, ByManager(ManagerCheck), s.(manager := Gone));
  }

  /** A pool with one executor is up; its coroutine is cancelled while idle; the next task is accepted and never run. */
  lemma IdleCancelStrandsTask() returns (s: Pool, steps: seq<Step>)
    ensures Run(steps) == Some(s) && s.phase == Stopped
    ensures s.work == Backlog({0}, 1, [])
  {
    s, steps := CloseOne();
    hide Run;
    s, steps := Then(s, steps, ByCaller(ManagerJoined), s.(stopper := Collect));
    s, steps := Then(s, steps, ByCaller(CollectHandles), s.(toWait := {0}, handles := {}, stopper := AwaitExecutors));
    s, steps := Then(s, steps, ByCaller(StopReturns), s.(phase := Stopped, stopper := Finished));
  }
}
