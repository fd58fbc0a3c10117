/**
 How one item of the join storage is armed, renewed, cancelled and expired.

 The item's mutex is held by at most one joinValue call at a time; timers, expiry tasks and stop callbacks run beside
 it. One step is one atomic access, one section under the storage's mutex, or a stretch of code under the item's
 mutex that touches nothing another coroutine may look at. Resetting a stop callback waits until it is not running.
 */
module JoinExpiry {
  import opened Options

  /** How far a stop callback has come, once its context was cancelled. */
  datatype Fire = Quiet | Published | Scheduling | Finished

  datatype Registration = Registration(generation: nat, context: nat, fire: Fire)

  /** What a generation was armed with. */
  datatype Arm = Arm(deadline: int, context: nat)

  datatype Saved = Saved(deadline: Option<int>, generation: nat, armed: nat, cancelled: nat)

  /** Where armExpiryLocked is. */
  datatype Stage = AtRegister | AtSpawn | AtStore | AtCheck | AtSchedule

  datatype Holder = Free | Arming(stage: Stage, context: nat, saved: Option<Saved>) | Holding

  /** A sleeping expiry task: a timer with its deadline, or an immediate one. */
  datatype Task = Task(generation: nat, due: Option<int>)

  datatype Item = Item(
    now: int, cancelledContexts: set<nat>, running: bool,
    deadline: Option<int>, processed: bool,
    generation: nat, armed: nat, cancelled: nat,      // generation, armedGeneration, cancelledGeneration
    callback: Option<Registration>,
    holder: Holder,
    tasks: map<nat, Task>, spawned: nat,
    // history
    base: nat,                    // the last generation that was armed, 0 for none
    arms: map<nat, Arm>,
    timers: map<nat, nat>,        // the timer of a generation
    alarms: map<nat, nat>,        // its immediate task
    swallowed: set<nat>,          // generations whose immediate task could not be spawned
    dropped: bool)                // the last attempt to renew failed

  /** An item just inserted by a call that holds its mutex. */
  function Created(now: int, cancelledContexts: set<nat>, context: nat, deadline: Option<int>): Item {
    Item(now, cancelledContexts, true, deadline, false, if deadline.Some? then 1 else 0, 0, 0, None,
         if deadline.Some? then Arming(AtRegister, context, None) else Holding,
         map[], 0, 0, map[], map[], map[], {}, false)
  }

  datatype CallStep =
    | Lapse
    | Renew(context: nat, until: int)
    | Hold
    | Register
    | SpawnTimer
    | ArmFails
    | StoreArmed
    | CheckCancelled
    | ScheduleNow(ok: bool)
    | Accept(done: bool)

  datatype OtherStep =
    // time, contexts, stop()
    | Tick(now: int)
    | Cancel(context: nat)
    | StopStore
    | Unregister
    // the stop callback
    | Publish
    | Consult
    | ScheduleFromCallback(ok: bool)
    // expiry tasks
    | Wake(task: nat)
    | Discard(task: nat)

  datatype Step = ByCall(act: CallStep) | ByOther(deed: OtherStep)

  predicate Resettable(s: Item) {
    s.callback.None? || s.callback.value.fire == Quiet || s.callback.value.fire == Finished
  }

  predicate Past(s: Item) {
    s.deadline.Some? && s.deadline.value <= s.now
  }

  predicate At(s: Item, stage: Stage) {
    s.holder.Arming? && s.holder.stage == stage
  }

  predicate CallCan(s: Item, act: CallStep) {
    match act
    case Lapse => s.holder.Free? && !s.processed && Past(s) && Resettable(s)
    case Renew(_, _) => s.holder.Free? && !s.processed && !Past(s) && Resettable(s)
    case Hold => s.holder.Free? && !s.processed && !Past(s)
    case Register => At(s, AtRegister)
    case SpawnTimer => At(s, AtSpawn) && s.deadline.Some?
    case ArmFails => (At(s, AtRegister) || At(s, AtSpawn)) && Resettable(s)
    case StoreArmed => At(s, AtStore)
    case CheckCancelled => At(s, AtCheck)
    case ScheduleNow(_) => At(s, AtSchedule)
    case Accept(done) => s.holder.Holding? && (done ==> Resettable(s))
  }

  /** scheduleExpiryNow: only while running, and a failure to spawn is swallowed. */
  function Schedule(s: Item, generation: nat, ok: bool): Item {
    if !s.running then s
    else if ok then
      s.(tasks := s.tasks[s.spawned := Task(generation, None)], spawned := s.spawned + 1,
         alarms := s.alarms[generation := s.spawned])
    else s.(swallowed := s.swallowed + {generation})
  }

  function Spawned(s: Item): Item
    requires At(s, AtSpawn) && s.deadline.Some?
  {
    var g := s.generation;
    s.(tasks := s.tasks[s.spawned := Task(g, s.deadline)], spawned := s.spawned + 1,
       arms := s.arms[g := Arm(s.deadline.value, s.holder.context)], timers := s.timers[g := s.spawned],
       base := g, dropped := false, holder := s.holder.(stage := AtStore))
  }

  function Failed(s: Item): Item
    requires s.holder.Arming?
  {
    if s.holder.saved.None? then s.(processed := true, callback := None, holder := Free)
    else
      var saved := s.holder.saved.value;
      s.(callback := None, deadline := saved.deadline, generation := saved.generation, armed := saved.armed,
         cancelled := saved.cancelled, holder := Free, dropped := true)
  }

  function CallDoes(s: Item, act: CallStep): Item
    requires CallCan(s, act)
  {
    match act
    case Lapse => s.(processed := true, generation := s.generation + 1, callback := None)
    case Renew(context, until) =>
      s.(deadline := Some(until), generation := s.generation + 1, callback := None,
         holder := Arming(AtRegister, context, Some(Saved(s.deadline, s.generation, s.armed, s.cancelled))))
    case Hold => s.(holder := Holding)
    case Register =>
      s.(callback := Some(Registration(s.generation, s.holder.context, Quiet)), holder := s.holder.(stage := AtSpawn))
    case SpawnTimer => Spawned(s)
    case ArmFails => Failed(s)
    case StoreArmed => s.(armed := s.generation, holder := s.holder.(stage := AtCheck))
    case CheckCancelled =>
      s.(holder := if s.cancelled >= s.generation then s.holder.(stage := AtSchedule) else Holding)
    case ScheduleNow(ok) => Schedule(s, s.generation, ok).(holder := Holding)
    case Accept(done) =>
      if done then s.(processed := true, generation := s.generation + 1, callback := None, holder := Free)
      else s.(holder := Free)
  }

  predicate Firing(s: Item, fire: Fire) {
    s.callback.Some? && s.callback.value.fire == fire
  }

  /** expire() finds the item unprocessed and of its generation. */
  predicate Hits(s: Item, t: nat)
    requires t in s.tasks
  {
    !s.processed && s.generation == s.tasks[t].generation
  }

  predicate OtherCan(s: Item, step: OtherStep) {
    match step
    case Tick(now) => s.now <= now
    case Cancel(_) => true
    case StopStore => true
    case Unregister => !s.running && s.holder.Free? && Resettable(s)
    case Publish => Firing(s, Quiet) && s.callback.value.context in s.cancelledContexts
    case Consult => Firing(s, Published)
    case ScheduleFromCallback(_) => Firing(s, Scheduling)
    case Wake(t) =>
      && t in s.tasks && s.holder.Free?
      && (s.tasks[t].due.Some? ==> s.tasks[t].due.value <= s.now)
      && (Hits(s, t) ==> Resettable(s))
    case Discard(t) => !s.running && t in s.tasks
  }

  function OtherDoes(s: Item, step: OtherStep): Item
    requires OtherCan(s, step)
  {
    match step
    case Tick(now) => s.(now := now)
    case Cancel(context) => s.(cancelledContexts := s.cancelledContexts + {context})
    case StopStore => s.(running := false)
    case Unregister => s.(callback := None)
    case Publish =>
      var g := s.callback.value.generation;
      s.(cancelled := if s.cancelled < g then g else s.cancelled,
         callback := Some(s.callback.value.(fire := Published)))
    case Consult =>
      var fire := if s.armed >= s.callback.value.generation then Scheduling else Finished;
      s.(callback := Some(s.callback.value.(fire := fire)))
    case ScheduleFromCallback(ok) =>
      Schedule(s, s.callback.value.generation, ok).(callback := Some(s.callback.value.(fire := Finished)))
    case Wake(t) =>
      if Hits(s, t) then s.(processed := true, callback := None, tasks := s.tasks - {t})
      else s.(tasks := s.tasks - {t})
    case Discard(t) => s.(tasks := s.tasks - {t})
  }

  predicate Enabled(s: Item, step: Step) {
    match step
    case ByCall(act) => CallCan(s, act)
    case ByOther(deed) => OtherCan(s, deed)
  }

  function Do(s: Item, step: Step): Item
    requires Enabled(s, step)
  {
    match step
    case ByCall(act) => CallDoes(s, act)
    case ByOther(deed) => OtherDoes(s, deed)
  }

  predicate IsCreated(s: Item) {
    s.holder != Free &&
    s == Created(s.now, s.cancelledContexts, if s.holder.Arming? then s.holder.context else 0, s.deadline)
  }

  /** The state after the steps, if each of them was possible. */
  function Run(start: Item, steps: seq<Step>): Option<Item> {
    if steps == [] then Some(start) else
    var before, step := Run(start, steps[..|steps| - 1]), steps[|steps| - 1];
    if before.Some? && Enabled(before.value, step) then Some(Do(before.value, step)) else None
  }

  // ---------------------------------------------------------------- what every step keeps

  /** A new generation exists that has no timer yet. */
  predicate Early(s: Item) {
    At(s, AtRegister) || At(s, AtSpawn)
  }

  /** Armed, but the call has not looked for a cancellation yet. */
  predicate Unchecked(s: Item) {
    At(s, AtStore) || At(s, AtCheck) || At(s, AtSchedule)
  }

  function BaseDeadline(s: Item): Option<int> {
    if s.base in s.arms then Some(s.arms[s.base].deadline) else None
  }

  ghost predicate Generations(s: Item) {
    && (s.base == 0 <==> s.arms == map[])
    && (s.base > 0 ==> s.base in s.arms)
    && (forall g | g in s.arms :: 1 <= g <= s.base)
    && (s.holder != Free ==> !s.processed)
    && s.base <= s.generation
    && (!s.processed && !Early(s) ==> s.generation == s.base && s.deadline == BaseDeadline(s))
    && (Early(s) ==> s.generation == s.base + 1 && s.deadline.Some?)
    && (!s.processed ==> if At(s, AtStore) then s.armed < s.base else s.armed == s.base)
    && (Unchecked(s) ==> s.base > 0 && s.holder.context == s.arms[s.base].context)
  }

  /** A cancellation that was published for the last armed generation is a cancellation of its context. */
  ghost predicate Truthful(s: Item, cancelled: nat) {
    && cancelled <= s.base
    && (cancelled == s.base > 0 ==> s.base in s.arms && s.arms[s.base].context in s.cancelledContexts)
  }

  ghost predicate SavedSound(s: Item) {
    Early(s) ==>
      if s.holder.saved.Some? then
        var v := s.holder.saved.value;
        v.generation == s.base && v.deadline == BaseDeadline(s) && v.armed == s.armed && Truthful(s, v.cancelled)
      else s.base == 0
  }

  ghost predicate CancelledSound(s: Item) {
    !s.processed ==>
      if Early(s) then
        s.cancelled <= s.generation &&
        (s.cancelled == s.generation ==> s.callback.Some? && s.callback.value.context in s.cancelledContexts)
      else Truthful(s, s.cancelled) && (At(s, AtSchedule) ==> s.cancelled >= s.generation)
  }

  ghost predicate CallbackSound(s: Item) {
    && (s.callback.Some? ==>
          var reg := s.callback.value;
          && !s.processed && reg.generation == s.generation && reg.generation > 0
          && (Early(s) ==> At(s, AtSpawn) && reg.context == s.holder.context)
          && (!Early(s) ==> s.base in s.arms && reg.context == s.arms[s.base].context)
          && (reg.fire != Quiet ==> reg.context in s.cancelledContexts && s.cancelled >= reg.generation)
          && (reg.fire == Scheduling ==> s.armed >= reg.generation))
    && (At(s, AtSpawn) || Unchecked(s) ==> s.callback.Some?)
  }

  ghost predicate TaskSound(s: Item, t: nat, task: Task) {
    && t < s.spawned && task.generation in s.arms
    && (task.due.Some? ==> task.due.value == s.arms[task.generation].deadline)
    && (task.due.None? ==> s.arms[task.generation].context in s.cancelledContexts)
  }

  ghost predicate TasksSound(s: Item) {
    forall t | t in s.tasks :: TaskSound(s, t, s.tasks[t])
  }

  ghost predicate Sleeping(s: Item, t: nat, task: Task) {
    t in s.tasks && s.tasks[t] == task
  }

  /** The timer of the last armed generation is there. */
  ghost predicate Timed(s: Item) {
    s.running && !s.processed && s.base > 0 ==>
      && s.base in s.timers && s.base in s.arms
      && Sleeping(s, s.timers[s.base], Task(s.base, Some(s.arms[s.base].deadline)))
  }

  /** An immediate task for the last armed generation is there, or could not be spawned. */
  ghost predicate Alarmed(s: Item) {
    s.base in s.swallowed || (s.base in s.alarms && Sleeping(s, s.alarms[s.base], Task(s.base, None)))
  }

  ghost predicate Watched(s: Item) {
    && (s.running && Firing(s, Finished) && !Early(s) && !Unchecked(s) ==> Alarmed(s))
    && (s.running && !s.processed && s.base > 0 && !Early(s) && !s.dropped ==> s.callback.Some?)
    && (s.dropped && !Early(s) ==> s.callback.None?)
  }

  ghost predicate Inv(s: Item) {
    Generations(s) && SavedSound(s) && CancelledSound(s) && CallbackSound(s) && TasksSound(s) && Timed(s) && Watched(s)
  }

  lemma LapseKeeps(s: Item)
    requires Inv(s) && CallCan(s, Lapse)
    ensures Inv(CallDoes(s, Lapse))
  {
  }

  lemma RenewKeeps(s: Item, context: nat, until: int)
    requires Inv(s) && CallCan(s, Renew(context, until))
    ensures Inv(CallDoes(s, Renew(context, until)))
  {
  }

  lemma HoldKeeps(s: Item)
    requires Inv(s) && CallCan(s, Hold)
    ensures Inv(CallDoes(s, Hold))
  {
  }

  lemma RegisterKeeps(s: Item)
    requires Inv(s) && CallCan(s, Register)
    ensures Inv(CallDoes(s, Register))
  {
  }

  lemma TasksAfterSpawn(s: Item)
    requires TasksSound(s) && Generations(s) && CallCan(s, SpawnTimer)
    ensures TasksSound(Spawned(s)) && Timed(Spawned(s))
  {
    var r := Spawned(s);
    forall t | t in r.tasks ensures TaskSound(r, t, r.tasks[t]) {
      assert t in s.tasks ==> TaskSound(s, t, s.tasks[t]);
    }
    assert s.deadline == Some(s.deadline.value);
  }

  lemma SpawnedSound(s: Item)
    requires Generations(s) && SavedSound(s) && CancelledSound(s) && CallbackSound(s) && CallCan(s, SpawnTimer)
    ensures var r := Spawned(s); Generations(r) && SavedSound(r) && CancelledSound(r) && CallbackSound(r) && Watched(r)
  {
    var r := Spawned(s);
    assert Early(s) && Unchecked(r) && !Early(r) && r.base == s.base + 1 && r.base in r.arms;
    hide Alarmed;
  }

  lemma SpawnTimerKeeps(s: Item)
    requires Inv(s) && CallCan(s, SpawnTimer)
    ensures Inv(CallDoes(s, SpawnTimer))
  {
    hide Generations, SavedSound, CancelledSound, CallbackSound, TasksSound, Timed, Watched, Spawned;
    TasksAfterSpawn(s);
    SpawnedSound(s);
  }

  /** A failed arming leaves the tasks alone. */
  lemma TasksAfterFailure(s: Item)
    requires TasksSound(s) && Timed(s) && s.holder.Arming?
    ensures TasksSound(Failed(s)) && Timed(Failed(s))
  {
  }

  /** A failed renewal: what was saved is put back. */
  lemma RestoreKeeps(s: Item)
    requires Generations(s) && SavedSound(s) && CancelledSound(s) && CallbackSound(s) && Watched(s)
    requires CallCan(s, ArmFails) && s.holder.saved.Some?
    ensures var r := Failed(s); Generations(r) && SavedSound(r) && CancelledSound(r) && CallbackSound(r) && Watched(r)
  {
    hide Alarmed;
  }

  lemma GiveUpKeeps(s: Item)
    requires Generations(s) && SavedSound(s) && CancelledSound(s) && CallbackSound(s) && Watched(s)
    requires CallCan(s, ArmFails) && s.holder.saved.None?
    ensures var r := Failed(s); Generations(r) && SavedSound(r) && CancelledSound(r) && CallbackSound(r) && Watched(r)
  {
    hide Alarmed;
  }

  lemma ArmFailsKeeps(s: Item)
    requires Inv(s) && CallCan(s, ArmFails)
    ensures Inv(CallDoes(s, ArmFails))
  {
    hide Generations, SavedSound, CancelledSound, CallbackSound, TasksSound, Timed, Watched, Failed;
    TasksAfterFailure(s);
    if s.holder.saved.Some? { RestoreKeeps(s); } else { GiveUpKeeps(s); }
  }

  lemma StoreArmedKeeps(s: Item)
    requires Inv(s) && CallCan(s, StoreArmed)
    ensures Inv(CallDoes(s, StoreArmed))
  {
  }

  lemma CheckCancelledKeeps(s: Item)
    requires Inv(s) && CallCan(s, CheckCancelled)
    ensures Inv(CallDoes(s, CheckCancelled))
  {
  }

  lemma ScheduleNowKeeps(s: Item, ok: bool)
    requires Inv(s) && CallCan(s, ScheduleNow(ok))
    ensures Inv(CallDoes(s, ScheduleNow(ok)))
  {
  }

  lemma AcceptKeeps(s: Item, done: bool)
    requires Inv(s) && CallCan(s, Accept(done))
    ensures Inv(CallDoes(s, Accept(done)))
  {
  }

  lemma TickKeeps(s: Item, now: int)
    requires Inv(s) && OtherCan(s, Tick(now))
    ensures Inv(OtherDoes(s, Tick(now)))
  {
  }

  lemma CancelKeeps(s: Item, context: nat)
    requires Inv(s) && OtherCan(s, Cancel(context))
    ensures Inv(OtherDoes(s, Cancel(context)))
  {
  }

  lemma StopStoreKeeps(s: Item)
    requires Inv(s) && OtherCan(s, StopStore)
    ensures Inv(OtherDoes(s, StopStore))
  {
  }

  lemma UnregisterKeeps(s: Item)
    requires Inv(s) && OtherCan(s, Unregister)
    ensures Inv(OtherDoes(s, Unregister))
  {
  }

  lemma PublishKeeps(s: Item)
    requires Inv(s) && OtherCan(s, Publish)
    ensures Inv(OtherDoes(s, Publish))
  {
  }

  lemma ConsultKeeps(s: Item)
    requires Inv(s) && OtherCan(s, Consult)
    ensures Inv(OtherDoes(s, Consult))
  {
  }

  lemma ScheduleFromCallbackKeeps(s: Item, ok: bool)
    requires Inv(s) && OtherCan(s, ScheduleFromCallback(ok))
    ensures Inv(OtherDoes(s, ScheduleFromCallback(ok)))
  {
  }

  /** A task that is not one of the last armed generation, or of no use any more, may go. */
  lemma TaskGoes(s: Item, t: nat)
    requires TasksSound(s) && Timed(s) && Watched(s) && CallbackSound(s) && t in s.tasks
    requires s.running && !s.processed ==> s.tasks[t].generation != s.base
    ensures var r := s.(tasks := s.tasks - {t}); TasksSound(r) && Timed(r) && Watched(r)
  {
    var r := s.(tasks := s.tasks - {t});
    assert forall u, task | Sleeping(s, u, task) && u != t :: Sleeping(r, u, task);
    assert s.running && !s.processed && Alarmed(s) ==> Alarmed(r);
    hide Sleeping, Alarmed;
    assert forall u | u in r.tasks :: TaskSound(s, u, s.tasks[u]);
  }

  /** Tasks do not matter to the rest of the invariant. */
  lemma TasksDoNotMatter(s: Item, t: nat)
    requires Generations(s) && SavedSound(s) && CancelledSound(s) && CallbackSound(s)
    ensures var r := s.(tasks := s.tasks - {t});
            Generations(r) && SavedSound(r) && CancelledSound(r) && CallbackSound(r)
  {
  }

  lemma ExpireKeeps(s: Item, t: nat)
    requires Inv(s) && OtherCan(s, Wake(t)) && Hits(s, t)
    ensures Inv(OtherDoes(s, Wake(t)))
  {
    var r := OtherDoes(s, Wake(t));
    assert forall u | u in r.tasks :: TaskSound(s, u, s.tasks[u]);
    assert TasksSound(r);
    hide TaskSound, TasksSound, Sleeping, Alarmed;
  }

  lemma WakeKeeps(s: Item, t: nat)
    requires Inv(s) && OtherCan(s, Wake(t))
    ensures Inv(OtherDoes(s, Wake(t)))
  {
    if Hits(s, t) {
      ExpireKeeps(s, t);
    } else {
      assert s.running && !s.processed ==> s.tasks[t].generation != s.base;
      TaskGoes(s, t);
      TasksDoNotMatter(s, t);
    }
    hide Generations, SavedSound, CancelledSound, CallbackSound, TasksSound, Timed, Watched;
  }

  lemma DiscardKeeps(s: Item, t: nat)
    requires Inv(s) && OtherCan(s, Discard(t))
    ensures Inv(OtherDoes(s, Discard(t)))
  {
    TaskGoes(s, t);
    TasksDoNotMatter(s, t);
    hide Generations, SavedSound, CancelledSound, CallbackSound, TasksSound, Timed, Watched;
  }

  lemma CallKeeps(s: Item, act: CallStep)
    requires Inv(s) && CallCan(s, act)
    ensures Inv(CallDoes(s, act))
  {
    hide Inv, CallCan, CallDoes;
    match act
    case Lapse => LapseKeeps(s);
    case Renew(context, until) => RenewKeeps(s, context, until);
    case Hold => HoldKeeps(s);
    case Register => RegisterKeeps(s);
    case SpawnTimer => SpawnTimerKeeps(s);
    case ArmFails => ArmFailsKeeps(s);
    case StoreArmed => StoreArmedKeeps(s);
    case CheckCancelled => CheckCancelledKeeps(s);
    case ScheduleNow(ok) => ScheduleNowKeeps(s, ok);
    case Accept(done) => AcceptKeeps(s, done);
  }

  lemma OtherKeeps(s: Item, step: OtherStep)
    requires Inv(s) && OtherCan(s, step)
    ensures Inv(OtherDoes(s, step))
  {
    hide Inv, OtherCan, OtherDoes;
    match step
    case Tick(now) => TickKeeps(s, now);
    case Cancel(context) => CancelKeeps(s, context);
    case StopStore => StopStoreKeeps(s);
    case Unregister => UnregisterKeeps(s);
    case Publish => PublishKeeps(s);
    case Consult => ConsultKeeps(s);
    case ScheduleFromCallback(ok) => ScheduleFromCallbackKeeps(s, ok);
    case Wake(t) => WakeKeeps(s, t);
    case Discard(t) => DiscardKeeps(s, t);
  }

  lemma StepKeeps(s: Item, step: Step)
    requires Inv(s) && Enabled(s, step)
    ensures Inv(Do(s, step))
  {
    hide Inv, CallCan, CallDoes, OtherCan, OtherDoes;
    match step
    case ByCall(act) => CallKeeps(s, act);
    case ByOther(deed) => OtherKeeps(s, deed);
  }

  lemma InitiallyHolds(s: Item)
    requires IsCreated(s)
    ensures Inv(s)
  {
  }

  lemma {:induction false} RunKeeps(start: Item, steps: seq<Step>)
    requires IsCreated(start) && Run(start, steps).Some?
    ensures Inv(Run(start, steps).value)
  {
    hide Inv, Do, Enabled, IsCreated;
    if steps == [] {
      InitiallyHolds(start);
    } else {
      RunKeeps(start, steps[..|steps| - 1]);
      StepKeeps(Run(start, steps[..|steps| - 1]).value, steps[|steps| - 1]);
    }
  }

  // ---------------------------------------------------------------- main results

  /** The deadline of the last successful arming has passed, or the context that armed it was cancelled. */
  predicate MayExpire(s: Item) {
    s.base in s.arms && (s.arms[s.base].deadline <= s.now || s.arms[s.base].context in s.cancelledContexts)
  }

  /** Completed by its callback, or given up by the call that was creating it. */
  predicate CompletedByCall(s: Item, step: Step) {
    step == ByCall(Accept(true)) || (step == ByCall(ArmFails) && s.base == 0)
  }

  lemma NeverEarlyByCall(s: Item, act: CallStep)
    requires Generations(s) && SavedSound(s) && CallCan(s, act)
    requires !s.processed && CallDoes(s, act).processed && !CompletedByCall(s, ByCall(act))
    ensures MayExpire(s)
  {
    assert act.Lapse? || act.Accept? || act.ArmFails?;
  }

  lemma NeverEarlyByOther(s: Item, step: OtherStep)
    requires Generations(s) && TasksSound(s) && OtherCan(s, step) && !s.processed && OtherDoes(s, step).processed
    ensures MayExpire(s)
  {
    assert step.Wake?;
    assert TaskSound(s, step.task, s.tasks[step.task]);
  }

  lemma NeverEarly(s: Item, step: Step)
    requires Inv(s) && Enabled(s, step) && !s.processed && Do(s, step).processed && !CompletedByCall(s, step)
    ensures MayExpire(s)
  {
    hide Generations, SavedSound, TasksSound, MayExpire, CompletedByCall, CallCan, OtherCan, CallDoes, OtherDoes;
    hide CancelledSound, CallbackSound, Timed, Watched;
    match step
    case ByCall(act) => NeverEarlyByCall(s, act);
    case ByOther(deed) => NeverEarlyByOther(s, deed);
  }

  /** No expiry before the current deadline unless the context that armed the item was cancelled. */
  lemma NoEarlyExpiry(start: Item, steps: seq<Step>, step: Step)
    requires IsCreated(start) && Run(start, steps).Some? && Enabled(Run(start, steps).value, step)
    requires !Run(start, steps).value.processed && Do(Run(start, steps).value, step).processed
    requires !CompletedByCall(Run(start, steps).value, step)
    ensures MayExpire(Run(start, steps).value)
  {
    RunKeeps(start, steps);
    NeverEarly(Run(start, steps).value, step);
  }

  /** A task of another generation than the last armed one does nothing to the item. */
  lemma OldGenerationsAreHarmless(start: Item, steps: seq<Step>, t: nat)
    requires IsCreated(start) && Run(start, steps).Some?
    requires OtherCan(Run(start, steps).value, Wake(t))
    ensures var s := Run(start, steps).value;
            s.tasks[t].generation != s.base ==> OtherDoes(s, Wake(t)) == s.(tasks := s.tasks - {t})
  {
    RunKeeps(start, steps);
  }

  /** Arming a generation makes every task that was there before a task of another generation. */
  lemma RenewalOutdatesTasks(start: Item, steps: seq<Step>, t: nat)
    requires IsCreated(start) && Run(start, steps).Some?
    requires CallCan(Run(start, steps).value, SpawnTimer) && t in Run(start, steps).value.tasks
    ensures var s := Run(start, steps).value;
            var r := CallDoes(s, SpawnTimer);
            t in r.tasks && r.tasks[t] == s.tasks[t] && r.tasks[t].generation < r.base
  {
    RunKeeps(start, steps);
    var s := Run(start, steps).value;
    assert TaskSound(s, t, s.tasks[t]);
  }

  /** While the storage runs, an armed item that is not processed has a timer for its current deadline. */
  lemma TimerStaysArmed(start: Item, steps: seq<Step>)
    requires IsCreated(start) && Run(start, steps).Some?
    ensures var s := Run(start, steps).value;
            s.running && !s.processed && s.base > 0 ==>
              exists t :: t in s.tasks && s.tasks[t] == Task(s.base, BaseDeadline(s))
  {
    RunKeeps(start, steps);
    var s := Run(start, steps).value;
    if s.running && !s.processed && s.base > 0 {
      assert s.tasks[s.timers[s.base]] == Task(s.base, BaseDeadline(s));
    }
  }

  /** A stop callback of the last armed generation is registered and has not finished. */
  predicate Listening(s: Item) {
    s.callback.Some? && s.callback.value.fire != Finished && s.callback.value.generation == s.base
  }

  /** The callback has not finished yet, or the immediate task is there (or could not be spawned). */
  ghost predicate Noticed(s: Item) {
    Listening(s) || Alarmed(s)
  }

  /**
   As long as no immediate task was spawned, a cancellation of the context that armed the item, whenever it comes, finds
   a listening callback if and only if the last renewal did not fail.
   */
  lemma NoMissedCancellation(start: Item, steps: seq<Step>)
    requires IsCreated(start) && Run(start, steps).Some?
    requires var s := Run(start, steps).value;
             s.running && !s.processed && s.base > 0 && (s.holder.Free? || s.holder.Holding?)
    ensures var s := Run(start, steps).value; !Alarmed(s) ==> (Listening(s) <==> !s.dropped)
  {
    RunKeeps(start, steps);
    hide Timed, TasksSound, SavedSound, CancelledSound, Alarmed;
  }

  /** Nobody listens for a cancellation any more. */
  ghost predicate Deaf(s: Item) {
    s.callback.None? && !Alarmed(s) && (s.holder.Free? || s.holder.Holding?)
  }

  lemma DeafToLapse(s: Item)
    requires Deaf(s) && CallCan(s, Lapse)
    ensures Deaf(CallDoes(s, Lapse))
  {
  }

  lemma DeafToHold(s: Item)
    requires Deaf(s) && CallCan(s, Hold)
    ensures Deaf(CallDoes(s, Hold))
  {
  }

  lemma DeafToAccept(s: Item, done: bool)
    requires Deaf(s) && CallCan(s, Accept(done))
    ensures Deaf(CallDoes(s, Accept(done)))
  {
  }

  lemma DeafToCalls(s: Item, act: CallStep)
    requires Deaf(s) && CallCan(s, act) && !act.Renew?
    ensures Deaf(CallDoes(s, act))
  {
    hide CallDoes, Alarmed;
    if act.Lapse? {
      DeafToLapse(s);
    } else if act.Hold? {
      DeafToHold(s);
    } else {
      assert act.Accept?;
      DeafToAccept(s, act.done);
    }
  }

  lemma DeafToOthers(s: Item, step: OtherStep)
    requires Deaf(s) && OtherCan(s, step)
    ensures Deaf(OtherDoes(s, step))
  {
  }

  /** After a failed renewal, nothing but another renewal makes a cancellation noticed. */
  lemma {:induction false} DeafUntilRenewed(start: Item, steps: seq<Step>)
    requires Deaf(start) && Run(start, steps).Some?
    requires forall step | step in steps :: !(step.ByCall? && step.act.Renew?)
    ensures Deaf(Run(start, steps).value) && !Noticed(Run(start, steps).value)
  {
    hide CallCan, CallDoes, OtherCan, OtherDoes, Alarmed;
    if steps != [] {
      var before, last := steps[..|steps| - 1], steps[|steps| - 1];
      assert last in steps && forall step | step in before :: step in steps;
      DeafUntilRenewed(start, before);
      match last
      case ByCall(act) => DeafToCalls(Run(start, before).value, act);
      case ByOther(deed) => DeafToOthers(Run(start, before).value, deed);
    }
  }

  /** One more step of a concrete run, with the state it leads to. */
  lemma Then(start: Item, s: Item, steps: seq<Step>, step: Step, after: Item) returns (s': Item, steps': seq<Step>)
    requires Run(start, steps) == Some(s) && Enabled(s, step) && Do(s, step) == after
    ensures s' == after && Run(start, steps') == Some(after)
  {
    assert (steps + [step])[..|steps|] == steps;
    return after, steps + [step];
  }

  /** An item armed until 10 by context 0 and released. */
  lemma ArmedOnce() returns (start: Item, s: Item, steps: seq<Step>)
    ensures IsCreated(start) && Run(start, steps) == Some(s)
    ensures s == start.(callback := Some(Registration(1, 0, Quiet)), tasks := map[0 := Task(1, Some(10))], spawned := 1,
                        arms := map[1 := Arm(10, 0)], timers := map[1 := 0], base := 1, armed := 1, holder := Free)
    ensures start == Created(0, {}, 0, Some(10))
  {
    start := Created(0, {}, 0, Some(10));
    s, steps := start, [];
    assert Run(start, steps) == Some(s);
    hide Run;
    s, steps := Then(start, s, steps, ByCall(Register),
                     s.(callback := Some(Registration(1, 0, Quiet)), holder := Arming(AtSpawn, 0, None)));
    s, steps := Then(start, s, steps, ByCall(SpawnTimer),
                     s.(tasks := map[0 := Task(1, Some(10))], spawned := 1, arms := map[1 := Arm(10, 0)],
                        timers := map[1 := 0], base := 1, holder := Arming(AtStore, 0, None)));
    s, steps := Then(start, s, steps, ByCall(StoreArmed), s.(armed := 1, holder := Arming(AtCheck, 0, None)));
    s, steps := Then(start, s, steps, ByCall(CheckCancelled), s.(holder := Holding));
    s, steps := Then(start, s, steps, ByCall(Accept(false)), s.(holder := Free));
  }

  /** A renewal by context 1 fails; then context 0, which the restored arming depends on, is cancelled unnoticed. */
  lemma FailedRenewalMissesCancellation() returns (start: Item, s: Item, steps: seq<Step>)
    ensures IsCreated(start) && Run(start, steps) == Some(s)
    ensures s.running && !s.processed && s.holder.Free? && s.base == s.generation == 1
    ensures 1 in s.arms && s.arms[1].context in s.cancelledContexts && !Noticed(s)
  {
    start, s, steps := ArmedOnce();
    hide Run;
    s, steps := Then(start, s, steps, ByCall(Renew(1, 20)),
                     s.(deadline := Some(20), generation := 2, callback := None,
                        holder := Arming(AtRegister, 1, Some(Saved(Some(10), 1, 1, 0)))));
    s, steps := Then(start, s, steps, ByCall(ArmFails),
                     s.(deadline := Some(10), generation := 1, holder := Free, dropped := true));
    s, steps := Then(start, s, steps, ByOther(Cancel(0)), s.(cancelledContexts := {0}));
  }
}
