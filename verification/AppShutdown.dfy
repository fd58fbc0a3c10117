/**
 ServiceApp: start, stop and the clean-up of a failed start, together with the counters of the stream execution
 environment. Input invocations are counted in one atomic word with a closed bit; parallel operations under a mutex.

 Calls of start and stop take turns; input invocations, parallel operations and stop operations of components go on
 beside them. One step is one atomic access, one section under the mutex, or one step of the component lifecycle.
 */
module AppShutdown {
  import opened Options
  import L = Lifecycle

  const CLOSED_BIT: nat := 0x8000_0000_0000_0000
  const WORD_SIZE: nat := 0x1_0000_0000_0000_0000

  /** Where the call that has the turn is; `cleanup` tells the clean-up of a failed start from stop(). */
  datatype Pc =
    | Idle
    | Configuring
    | Resetting
    | Accepting
    | Initializing
    | Failing                     // ensureConfiguredPools or startExecutionRuntime has thrown
    | StartingComponents
    | StopBefore(cleanup: bool)
    | Closing(cleanup: bool)
    | Draining(cleanup: bool)
    | StopAfter(cleanup: bool)
    | Releasing(cleanup: bool)

  datatype App = App(
    word: nat,                    // inputInvocations_
    outstanding: nat,             // history: input invocations that exist
    forgotten: nat,               // history: those that existed when the word was last reset
    parallelActive: nat, accepting: bool,
    active: bool,                 // activeRuntime_
    pending: bool,                // lifecyclePending_
    life: L.Life, pc: Pc)

  function Initial(kinds: seq<L.Kind>): App {
    App(0, 0, 0, 0, false, false, false, L.Registered(kinds), Idle)
  }

  datatype InitResult = BuildFails | InitFails | InitOk(admission: bool)

  datatype OtherStep =
    | BeginInput
    | FinishInput
    | EnterParallel
    | LeaveParallel
    | OperationReturns(who: nat, ok: bool)

  datatype CallStep =
    | CallStart
    | Configure(ok: bool)
    | Reset
    | OpenParallel
    | Init(result: InitResult)
    | CleanUp
    | LifeStep(step: L.Step)
    | StartReturns
    | CallStop
    | BeforeReturns
    | Close
    | DrainSucceeds
    | DrainFails
    | AfterReturns
    | Release

  datatype Step = ByOther(deed: OtherStep) | ByCall(act: CallStep)

  function Count(word: nat): nat {
    word % CLOSED_BIT
  }

  predicate Closed(word: nat) {
    word >= CLOSED_BIT
  }

  predicate OtherCan(s: App, step: OtherStep) {
    match step
    case BeginInput => !Closed(s.word) && Count(s.word) != CLOSED_BIT - 1
    case FinishInput => s.outstanding > 0
    case EnterParallel => s.accepting
    case LeaveParallel => s.parallelActive > 0
    case OperationReturns(i, ok) => L.Enabled(s.life, L.OperationReturns(i, ok))
  }

  function OtherDoes(s: App, step: OtherStep): App
    requires OtherCan(s, step)
  {
    match step
    case BeginInput => s.(word := s.word + 1, outstanding := s.outstanding + 1)
    case FinishInput => s.(word := if s.word == 0 then WORD_SIZE - 1 else s.word - 1, outstanding := s.outstanding - 1)
    case EnterParallel => s.(parallelActive := s.parallelActive + 1)
    case LeaveParallel => s.(parallelActive := s.parallelActive - 1)
    case OperationReturns(i, ok) => s.(life := L.Do(s.life, L.OperationReturns(i, ok)))
  }

  /** The lifecycle is asked to go on by itself, not to begin something. */
  predicate Internal(step: L.Step) {
    !step.CallStart? && !step.CallStopBefore? && !step.CallStopAfter? && !step.OperationReturns?
  }

  predicate InLifecycle(pc: Pc) {
    pc.StartingComponents? || pc.StopBefore? || pc.StopAfter?
  }

  predicate CallCan(s: App, step: CallStep) {
    match step
    case CallStart => s.pc.Idle? && !s.pending
    case Configure(_) => s.pc.Configuring?
    case Reset => s.pc.Resetting?
    case OpenParallel => s.pc.Accepting?
    case Init(_) => s.pc.Initializing? && s.life.driver.Idle?
    case CleanUp => s.pc.Failing? && s.life.driver.Idle?
    case LifeStep(step) => InLifecycle(s.pc) && Internal(step) && L.Enabled(s.life, step)
    case StartReturns => s.pc.StartingComponents? && s.life.driver.Idle?
    case CallStop => s.pc.Idle? && s.pending && s.life.driver.Idle?
    case BeforeReturns => s.pc.StopBefore? && s.life.driver.Idle?
    case Close => s.pc.Closing? && s.life.driver.Idle?
    case DrainSucceeds => s.pc.Draining? && s.life.driver.Idle? && Count(s.word) == 0 && s.parallelActive == 0
    case DrainFails => s.pc.Draining?
    case AfterReturns => s.pc.StopAfter? && s.life.driver.Idle?
    case Release => s.pc.Releasing?
  }

  /** stopBeforeGraphDrain is called. */
  function Stopping(s: App, cleanup: bool): App
    requires s.life.driver.Idle?
  {
    s.(life := L.StopBefore(s.life), pc := StopBefore(cleanup))
  }

  /** stopAfterGraphDrain is called: nothing to do, the sinks are stopped, or it is refused. */
  function StoppingAfter(s: App, cleanup: bool): App
    requires s.life.driver.Idle?
  {
    if s.life.state == L.Stopped then s.(pc := if cleanup then Closing(true) else Releasing(false))
    else if s.life.state == L.Stopping && s.life.beforeGraphDrained then
      s.(life := L.Begin(s.life, L.Sinks), pc := StopAfter(cleanup))
    else s.(pc := Idle)
  }

  function CallDoes(s: App, step: CallStep): App
    requires CallCan(s, step)
  {
    match step
    case CallStart => s.(pending := true, pc := Configuring)
    case Configure(ok) => s.(pc := if ok then Resetting else Failing)
    case Reset =>
      if s.active then s.(pc := Failing)
      else s.(word := 0, forgotten := s.outstanding, pc := Accepting)
    case OpenParallel =>
      if s.parallelActive != 0 then s.(pc := Failing) else s.(accepting := true, pc := Initializing)
    case Init(result) =>
      if result.BuildFails? then s.(pc := Failing)
      else if result.InitFails? then s.(accepting := false, pc := Failing)
      else if s.life.state != L.Created then s.(active := true, pc := Failing)
      else
        s.(active := true, life := L.Do(s.life, L.CallStart(result.admission)), pc := StartingComponents)
    case CleanUp => Stopping(s, true)
    case LifeStep(step) => s.(life := L.Do(s.life, step))
    case StartReturns => if s.life.state == L.Running then s.(pc := Idle) else Stopping(s, true)
    case CallStop => Stopping(s, false)
    case BeforeReturns =>
      if s.life.state != L.Stopped && !s.life.beforeGraphDrained then s.(pc := Idle)
      else if s.pc.cleanup then StoppingAfter(s, true)
      else s.(pc := Closing(false))
    case Close =>
      if !s.active then Drained(s)
      else s.(word := if Closed(s.word) then s.word else s.word + CLOSED_BIT, pc := Draining(s.pc.cleanup))
    case DrainSucceeds => Drained(s.(accepting := false))
    case DrainFails => s.(pc := Idle)
    case AfterReturns =>
      if s.life.state != L.Stopped then s.(pc := Idle)
      else s.(pc := if s.pc.cleanup then Closing(true) else Releasing(false))
    case Release => s.(active := false, pending := false, pc := Idle)
  }

  /** drainExecutionRuntime has returned true. */
  function Drained(s: App): App
    requires (s.pc.Closing? || s.pc.Draining?) && s.life.driver.Idle?
  {
    if s.pc.cleanup then s.(pc := Releasing(true)) else StoppingAfter(s, false)
  }

  predicate Enabled(s: App, step: Step) {
    match step
    case ByOther(deed) => OtherCan(s, deed)
    case ByCall(act) => CallCan(s, act)
  }

  function Do(s: App, step: Step): App
    requires Enabled(s, step)
  {
    match step
    case ByOther(deed) => OtherDoes(s, deed)
    case ByCall(act) => CallDoes(s, act)
  }

  function Run(kinds: seq<L.Kind>, steps: seq<Step>): Option<App> {
    if steps == [] then Some(Initial(kinds)) else
    var before, step := Run(kinds, steps[..|steps| - 1]), steps[|steps| - 1];
    if before.Some? && Enabled(before.value, step) then Some(Do(before.value, step)) else None
  }

  // ---------------------------------------------------------------- what every step keeps

  /** The count bits are the invocations that began after the last reset minus those that ended, modulo their range. */
  predicate WordSound(s: App) {
    && s.word < WORD_SIZE
    && (s.word - s.outstanding + s.forgotten) % CLOSED_BIT == 0
    && (s.forgotten == 0 ==> Count(s.word) == s.outstanding)
  }

  /** Only a call that is inside the lifecycle leaves it in the middle of something. */
  ghost predicate LifeSound(s: App) {
    L.Inv(s.life) && (InLifecycle(s.pc) || s.life.driver.Idle?)
  }

  /** Between a successful drain and the release, nothing is running and nothing can begin. */
  predicate QuietSound(s: App) {
    && (s.pc.Draining? && s.forgotten == 0 ==> Closed(s.word))
    && (s.active && (s.pc == StopAfter(false) || s.pc.Releasing?) ==>
      s.parallelActive == 0 && !s.accepting && (s.forgotten == 0 ==> Closed(s.word) && Count(s.word) == 0))
  }

  predicate StoppedSound(s: App) {
    s.pc.Releasing? || s.pc == Closing(true) || s.pc == Draining(true) ==> s.life.state == L.Stopped
  }

  ghost predicate Inv(s: App) {
    WordSound(s) && LifeSound(s) && QuietSound(s) && StoppedSound(s)
  }

  lemma BeginKeeps(s: App)
    requires WordSound(s) && OtherCan(s, BeginInput)
    ensures WordSound(OtherDoes(s, BeginInput))
  {
  }

  lemma FinishKeeps(s: App)
    requires WordSound(s) && OtherCan(s, FinishInput)
    ensures WordSound(OtherDoes(s, FinishInput))
    ensures s.forgotten == 0 && Closed(s.word) ==> Closed(OtherDoes(s, FinishInput).word)
  {
  }

  lemma OtherKeeps(s: App, step: OtherStep)
    requires Inv(s) && OtherCan(s, step)
    ensures Inv(OtherDoes(s, step))
  {
    hide L.Inv;
    match step
    case BeginInput => BeginKeeps(s);
    case FinishInput => FinishKeeps(s);
    case EnterParallel =>
    case LeaveParallel =>
    case OperationReturns(i, ok) => L.StepKeeps(s.life, L.OperationReturns(i, ok));
  }

  lemma StoppingKeeps(s: App, cleanup: bool)
    requires WordSound(s) && L.Inv(s.life) && s.life.driver.Idle?
    ensures Inv(Stopping(s, cleanup))
  {
    L.StopBeforeKeeps(s.life);
    hide L.Inv, L.StopBefore;
  }

  lemma StoppingAfterKeeps(s: App, cleanup: bool)
    requires WordSound(s) && L.Inv(s.life) && s.life.driver.Idle?
    requires s.active && !cleanup ==>
               s.parallelActive == 0 && !s.accepting && (s.forgotten == 0 ==> Closed(s.word) && Count(s.word) == 0)
    ensures Inv(StoppingAfter(s, cleanup))
  {
    hide L.Inv, L.Begin, Count, Closed;
    if s.life.state == L.Stopping && s.life.beforeGraphDrained { L.StepKeeps(s.life, L.CallStopAfter); }
  }

  predicate InStart(step: CallStep) {
    || step.CallStart? || step.Configure? || step.Reset? || step.OpenParallel? || step.Init? || step.CleanUp?
    || step.StartReturns?
  }

  lemma StartKeeps(s: App, step: CallStep)
    requires Inv(s) && CallCan(s, step) && InStart(step)
    ensures Inv(CallDoes(s, step))
  {
    hide L.Inv, L.StopBefore;
    if step.CleanUp? || (step.StartReturns? && s.life.state != L.Running) {
      StoppingKeeps(s, true);
    } else if step.Init? && step.result.InitOk? && s.life.state == L.Created {
      L.StepKeeps(s.life, L.CallStart(step.result.admission));
    }
  }

  lemma DrainKeeps(s: App, step: CallStep)
    requires Inv(s) && CallCan(s, step) && (step.Close? || step.DrainSucceeds?)
    ensures Inv(CallDoes(s, step))
  {
    hide L.Inv, L.Begin;
    if !s.pc.cleanup {
      if step.DrainSucceeds? {
        StoppingAfterKeeps(s.(accepting := false), false);
      } else if !s.active {
        StoppingAfterKeeps(s, false);
      }
    }
  }

  lemma StopKeeps(s: App, step: CallStep)
    requires Inv(s) && CallCan(s, step)
    requires step.CallStop? || step.BeforeReturns? || step.DrainFails? || step.AfterReturns? || step.Release?
    ensures Inv(CallDoes(s, step))
  {
    hide L.Inv, L.StopBefore, L.Begin;
    if step.CallStop? {
      StoppingKeeps(s, false);
    } else if step.BeforeReturns? && s.pc.cleanup && (s.life.state == L.Stopped || s.life.beforeGraphDrained) {
      StoppingAfterKeeps(s, true);
    }
  }

  lemma CallKeeps(s: App, step: CallStep)
    requires Inv(s) && CallCan(s, step)
    ensures Inv(CallDoes(s, step))
  {
    if InStart(step) {
      StartKeeps(s, step);
    } else if step.LifeStep? {
      LifeStepKeeps(s, step.step);
    } else if step.Close? || step.DrainSucceeds? {
      DrainKeeps(s, step);
    } else {
      StopKeeps(s, step);
    }
    hide *;
  }

  lemma LifeStepKeeps(s: App, step: L.Step)
    requires Inv(s) && CallCan(s, LifeStep(step))
    ensures Inv(CallDoes(s, LifeStep(step)))
  {
    hide L.Inv, L.Do, L.Enabled;
    L.StepKeeps(s.life, step);
  }

  lemma StepKeeps(s: App, step: Step)
    requires Inv(s) && Enabled(s, step)
    ensures Inv(Do(s, step))
  {
    hide Inv, OtherCan, CallCan, OtherDoes, CallDoes;
    match step
    case ByOther(deed) => OtherKeeps(s, deed);
    case ByCall(act) => CallKeeps(s, act);
  }

  lemma InitiallyHolds(kinds: seq<L.Kind>)
    ensures Inv(Initial(kinds))
  {
    L.InitiallyHolds(kinds);
  }

  lemma {:induction false} RunKeeps(kinds: seq<L.Kind>, steps: seq<Step>)
    requires Run(kinds, steps).Some?
    ensures Inv(Run(kinds, steps).value)
  {
    hide Inv, Do, Enabled;
    if steps == [] {
      InitiallyHolds(kinds);
    } else {
      RunKeeps(kinds, steps[..|steps| - 1]);
      StepKeeps(Run(kinds, steps[..|steps| - 1]).value, steps[|steps| - 1]);
    }
  }

  // ---------------------------------------------------------------- main results

  /** Every component that was started has been stopped, and no stop is under way. */
  ghost predicate ComponentsStopped(life: L.Life) {
    && life.state == L.Stopped
    && (forall i | 0 <= i < |life.kinds| ::
          && (i in L.Starts(life.log) ==> L.StoppedIn(life.log, i))
          && L.Invocations(life.log, i) == L.Returns(life.log, i))
  }

  lemma StoppedLife(life: L.Life)
    requires L.Inv(life) && life.state == L.Stopped
    ensures ComponentsStopped(life)
  {
    forall i | 0 <= i < |life.kinds|
      ensures i in L.Starts(life.log) ==> L.StoppedIn(life.log, i)
      ensures L.Invocations(life.log, i) == L.Returns(life.log, i)
    {
      assert L.Faithful(life.started[i], life.operations[i], life.log, i);
    }
  }

  /**
   Streams and callers are freed, by stop() or after a failed start, only when no parallel operation is active or can be
   admitted and every component has stopped; and if no invocation was forgotten by a reset, when the inputs are closed
   and no input invocation exists.
   */
  lemma FreedOnlyWhenQuiet(kinds: seq<L.Kind>, steps: seq<Step>)
    requires Run(kinds, steps).Some? && CallCan(Run(kinds, steps).value, Release) && Run(kinds, steps).value.active
    ensures var s := Run(kinds, steps).value;
            && s.parallelActive == 0 && !s.accepting && ComponentsStopped(s.life)
            && (s.forgotten == 0 ==> Closed(s.word) && s.outstanding == 0)
  {
    RunKeeps(kinds, steps);
    StoppedLife(Run(kinds, steps).value.life);
    hide L.Inv;
  }

  /** A drain succeeds with no invocation left exactly when the last reset of the word found none. */
  lemma DrainIsCompleteIffNothingForgotten(kinds: seq<L.Kind>, steps: seq<Step>)
    requires Run(kinds, steps).Some? && CallCan(Run(kinds, steps).value, DrainSucceeds)
    requires Run(kinds, steps).value.forgotten < CLOSED_BIT
    ensures var s := Run(kinds, steps).value; s.outstanding == 0 <==> s.forgotten == 0
  {
    RunKeeps(kinds, steps);
    NothingLeftOver(Run(kinds, steps).value);
    hide L.Inv, WordSound;
  }

  lemma NothingLeftOver(s: App)
    requires WordSound(s) && Count(s.word) == 0 && s.forgotten < CLOSED_BIT
    ensures s.outstanding == 0 <==> s.forgotten == 0
  {
  }

  /** One more step of a concrete run, with the state it leads to. */
  lemma Then(s: App, steps: seq<Step>, step: Step, after: App) returns (s': App, steps': seq<Step>)
    requires Run([], steps) == Some(s) && Enabled(s, step) && Do(s, step) == after
    ensures s' == after && Run([], steps') == Some(after)
  {
    assert (steps + [step])[..|steps|] == steps;
    return after, steps + [step];
  }

  const NO_COMPONENTS := L.Life([], [], [], [], L.Created, false, false, L.Idle, [])

  lemma {:induction false} NothingToPlan(groups: seq<L.Kind>)
    ensures L.PlanFor([], groups) == []
  {
    if groups != [] { NothingToPlan(groups[..|groups| - 1]); }
  }

  lemma NothingToStart()
    ensures L.Plan([], true) == []
  {
    NothingToPlan(L.START_ORDER + [L.Source]);
  }

  lemma NothingToStop()
    ensures L.ListOf([], L.Admission) == [] && L.ListOf([], L.Executors) == []
  {
  }

  /** An input invocation begins, then the execution runtime is started. */
  lemma InputThenReset() returns (s: App, steps: seq<Step>)
    ensures Run([], steps) == Some(s)
    ensures s == App(0, 1, 1, 0, true, false, true, NO_COMPONENTS, Initializing)
  {
    s, steps := Initial([]), [];
    assert s.life == NO_COMPONENTS;
    assert Run([], steps) == Some(s);
    hide Run;
    s, steps := Then(s, steps, ByOther(BeginInput), s.(word := 1, outstanding := 1));
    s, steps := Then(s, steps, ByCall(CallStart), s.(pending := true, pc := Configuring));
    s, steps := Then(s, steps, ByCall(Configure(true)), s.(pc := Resetting));
    s, steps := Then(s, steps, ByCall(Reset), s.(word := 0, forgotten := 1, pc := Accepting));
    s, steps := Then(s, steps, ByCall(OpenParallel), s.(accepting := true, pc := Initializing));
  }

  /** The application has no component to start. */
  lemma StartedAfterInput() returns (s: App, steps: seq<Step>)
    ensures Run([], steps) == Some(s)
    ensures s == App(0, 1, 1, 0, true, true, true, NO_COMPONENTS.(state := L.Running), Idle)
  {
    NothingToStart();
    s, steps := InputThenReset();
    hide Run, L.Plan;
    s, steps := Then(s, steps, ByCall(Init(InitOk(true))),
                     s.(active := true, pc := StartingComponents,
                        life := NO_COMPONENTS.(state := L.Starting, driver := L.StartingUp([], 0))));
    s, steps := Then(s, steps, ByCall(LifeStep(L.StartDone)), s.(life := NO_COMPONENTS.(state := L.Running)));
    s, steps := Then(s, steps, ByCall(StartReturns), s.(pc := Idle));
  }

  /** stop() has stopped the sources and components. */
  lemma StoppedAdmission() returns (s: App, steps: seq<Step>)
    ensures Run([], steps) == Some(s)
    ensures s == App(0, 1, 1, 0, true, true, true,
                     NO_COMPONENTS.(state := L.Stopping, driver := L.Launching(L.Executors, [], 0)), StopBefore(false))
  {
    NothingToStop();
    s, steps := StartedAfterInput();
    hide Run, L.ListOf;
    var life := NO_COMPONENTS.(state := L.Stopping);
    s, steps := Then(s, steps, ByCall(CallStop),
                     s.(life := life.(driver := L.Launching(L.Admission, [], 0)), pc := StopBefore(false)));
    s, steps := Then(s, steps, ByCall(LifeStep(L.Launched)),
                     s.(life := life.(driver := L.Awaiting(L.Admission, [], 0, false))));
    s, steps := Then(s, steps, ByCall(LifeStep(L.EndPhase)),
                     s.(life := life.(driver := L.Launching(L.Executors, [], 0))));
  }

  /** stop() has stopped the pools and storages, too. */
  lemma StoppedProducers() returns (s: App, steps: seq<Step>)
    ensures Run([], steps) == Some(s)
    ensures s == App(0, 1, 1, 0, true, true, true,
                     NO_COMPONENTS.(state := L.Stopping, beforeGraphDrained := true), StopBefore(false))
  {
    s, steps := StoppedAdmission();
    hide Run, L.ListOf;
    var life := NO_COMPONENTS.(state := L.Stopping);
    s, steps := Then(s, steps, ByCall(LifeStep(L.Launched)),
                     s.(life := life.(driver := L.Awaiting(L.Executors, [], 0, false))));
    s, steps := Then(s, steps, ByCall(LifeStep(L.EndPhase)), s.(life := life.(beforeGraphDrained := true)));
  }

  /** The reset in startExecutionRuntime forgets an invocation, and the drain of stop() does not wait for it. */
  lemma ResetForgetsInvocation() returns (s: App, steps: seq<Step>)
    ensures Run([], steps) == Some(s) && CallCan(s, DrainSucceeds) && s.active && s.outstanding == 1
  {
    s, steps := StoppedProducers();
    hide Run;
    s, steps := Then(s, steps, ByCall(BeforeReturns), s.(pc := Closing(false)));
    s, steps := Then(s, steps, ByCall(Close), s.(word := CLOSED_BIT, pc := Draining(false)));
  }
}
