/**
 Requests of a gRPC data source that wait for results: everything that happens on one stream id of an endpoint.

 The pending map is one slot here, read and written atomically. A handler call activates its request, consumes its
 messages, waits for done and finishes; results come in beside it and call the callbacks that were registered. One step
 is one access to the slot or to a flag, one section under the callbacks mutex, the taking or giving back of the
 lifetime lock, or a piece of user code.
 */
module SourceRequest {
  import opened Options

  /** Where the handler call is; from Deciding to EndingRequest it holds the lifetime lock exclusively. */
  datatype Stage =
    | Activating
    | Working
    | Waiting
    | LockingExclusive
    | Deciding
    | Unlisting
    | ClosingSender
    | ClosingRegistry
    | EndingRequest
    | Finished

  datatype Request = Request(
    stage: Stage, error: bool, waitFailed: bool,
    doneSent: bool, doneEvent: bool,
    pendingInserted: bool, senderActive: bool,
    callbacksClosed: bool, callbacks: map<string, nat>,
    sharers: set<nat>, exclusive: bool,
    doneByCallback: bool)         // history: an admitted callback called done()

  /** Where a consumeResult call is. */
  datatype Pc =
    | Got(request: nat)
    | Locked(request: nat)
    | GettingId(request: nat)
    | LookingUp(request: nat, message: string)
    | Calling(request: nat, message: string)
    | Erasing(request: nat, message: string)

  datatype Endpoint = Endpoint(slot: Option<nat>, requests: seq<Request>, results: map<nat, Pc>)

  const INITIAL := Endpoint(None, [], map[])

  const NEW_REQUEST := Request(Activating, false, false, false, false, false, true, false, map[], {}, false, false)

  datatype HandlerStep =
    | Activate
    | WorkDone
    | WorkFails
    | WaitSucceeds
    | WaitFails
    | LockExclusive
    | Decide
    | Unlist
    | CloseSender
    | CloseRegistry
    | EndRequest(ok: bool)

  datatype ResultStep =
    | LockShared
    | Recheck
    | GotId(message: string)
    | LookUp
    | CallDone
    | CallbackReturns(erase: bool)
    | Erase

  datatype Step =
    | Begin
    | ByHandler(request: nat, act: HandlerStep)
    | Arrive(result: nat)
    | ByResult(result: nat, move: ResultStep)
    | SetCallback(request: nat, message: string, callback: nat)
    | DoneOutside(request: nat)
    | SendDone(request: nat)

  function With(s: Endpoint, i: nat, q: Request): Endpoint
    requires i < |s.requests|
  {
    s.(requests := s.requests[i := q])
  }

  /** The request is where the handler takes the step. */
  predicate Fits(q: Request, act: HandlerStep) {
    match act
    case Activate => q.stage.Activating?
    case WorkDone => q.stage.Working?
    case WorkFails => q.stage.Working?
    case WaitSucceeds => q.stage.Waiting? && q.doneEvent
    case WaitFails => q.stage.Waiting? && !q.doneEvent
    case LockExclusive => q.stage.LockingExclusive? && q.sharers == {} && !q.exclusive
    case Decide => q.stage.Deciding?
    case Unlist => q.stage.Unlisting?
    case CloseSender => q.stage.ClosingSender?
    case CloseRegistry => q.stage.ClosingRegistry?
    case EndRequest(_) => q.stage.EndingRequest?
  }

  predicate HandlerCan(s: Endpoint, i: nat, act: HandlerStep) {
    i < |s.requests| && Fits(s.requests[i], act)
  }

  function NextStage(act: HandlerStep, vacant: bool): Stage {
    match act
    case Activate => if vacant then Working else LockingExclusive
    case WorkDone => Waiting
    case WorkFails => LockingExclusive
    case WaitSucceeds => LockingExclusive
    case WaitFails => LockingExclusive
    case LockExclusive => Deciding
    case Decide => Unlisting
    case Unlist => ClosingSender
    case CloseSender => ClosingRegistry
    case CloseRegistry => EndingRequest
    case EndRequest(_) => Finished
  }

  /** What a failed activation, failed work or a failed wait leaves, until finish() decides. */
  function ErrorAfter(q: Request, act: HandlerStep, vacant: bool): bool {
    if act.Decide? then q.error && !(q.waitFailed && q.doneSent)
    else q.error || act.WorkFails? || act.WaitFails? || (act.Activate? && !vacant)
  }

  function Handled(q: Request, act: HandlerStep, vacant: bool): Request {
    q.(stage := NextStage(act, vacant), error := ErrorAfter(q, act, vacant),
       waitFailed := q.waitFailed || act.WaitFails?,
       exclusive := act.LockExclusive? || (q.exclusive && !act.EndRequest?),
       pendingInserted := (act.Activate? && vacant) || (q.pendingInserted && !act.Unlist?),
       senderActive := q.senderActive && !act.CloseSender?,
       callbacksClosed := q.callbacksClosed || act.CloseRegistry?,
       callbacks := if act.CloseRegistry? then map[] else q.callbacks)
  }

  function HandlerDoes(s: Endpoint, i: nat, act: HandlerStep): Endpoint
    requires HandlerCan(s, i, act)
  {
    With(s, i, Handled(s.requests[i], act, s.slot.None?)).(
      slot := if act.Activate? && s.slot.None? then Some(i)
              else if act.Unlist? && s.requests[i].pendingInserted then None
              else s.slot)
  }

  predicate ResultCan(s: Endpoint, t: nat, move: ResultStep) {
    t in s.results && s.results[t].request < |s.requests| &&
    var pc := s.results[t];
    match move
    case LockShared => pc.Got? && !s.requests[pc.request].exclusive
    case Recheck => pc.Locked?
    case GotId(_) => pc.GettingId?
    case LookUp => pc.LookingUp?
    case CallDone => pc.Calling?
    case CallbackReturns(_) => pc.Calling?
    case Erase => pc.Erasing?
  }

  /** The call gives the lifetime lock back and returns. */
  function Leave(s: Endpoint, t: nat): Endpoint
    requires t in s.results && s.results[t].request < |s.requests|
  {
    var i := s.results[t].request;
    With(s, i, s.requests[i].(sharers := s.requests[i].sharers - {t})).(results := s.results - {t})
  }

  function ResultDoes(s: Endpoint, t: nat, move: ResultStep): Endpoint
    requires ResultCan(s, t, move)
  {
    var i := s.results[t].request;
    var q := s.requests[i];
    match move
    case LockShared => With(s, i, q.(sharers := q.sharers + {t})).(results := s.results[t := Locked(i)])
    case Recheck => if s.slot == Some(i) then s.(results := s.results[t := GettingId(i)]) else Leave(s, t)
    case GotId(message) => s.(results := s.results[t := LookingUp(i, message)])
    case LookUp =>
      var message := s.results[t].message;
      if message in q.callbacks then s.(results := s.results[t := Calling(i, message)]) else Leave(s, t)
    case CallDone => With(s, i, q.(doneSent := true, doneByCallback := true))
    case CallbackReturns(erase) =>
      if erase then s.(results := s.results[t := Erasing(i, s.results[t].message)]) else Leave(s, t)
    case Erase =>
      Leave(With(s, i, q.(callbacks := q.callbacks - {s.results[t].message})), t)
  }

  predicate Enabled(s: Endpoint, step: Step) {
    match step
    case Begin => true
    case ByHandler(i, act) => HandlerCan(s, i, act)
    case Arrive(t) => t !in s.results && s.slot.Some?
    case ByResult(t, move) => ResultCan(s, t, move)
    case SetCallback(i, _, _) => i < |s.requests| && !s.requests[i].callbacksClosed
    case DoneOutside(i) => i < |s.requests|
    case SendDone(i) => i < |s.requests| && s.requests[i].doneSent
  }

  function Do(s: Endpoint, step: Step): Endpoint
    requires Enabled(s, step)
  {
    match step
    case Begin => s.(requests := s.requests + [NEW_REQUEST])
    case ByHandler(i, act) => HandlerDoes(s, i, act)
    case Arrive(t) => s.(results := s.results[t := Got(s.slot.value)])
    case ByResult(t, move) => ResultDoes(s, t, move)
    case SetCallback(i, message, callback) =>
      With(s, i, s.requests[i].(callbacks := s.requests[i].callbacks[message := callback]))
    case DoneOutside(i) => With(s, i, s.requests[i].(doneSent := true))
    case SendDone(i) => With(s, i, s.requests[i].(doneEvent := true))
  }

  function Run(steps: seq<Step>): Option<Endpoint> {
    if steps == [] then Some(INITIAL) else
    var before, step := Run(steps[..|steps| - 1]), steps[|steps| - 1];
    if before.Some? && Enabled(before.value, step) then Some(Do(before.value, step)) else None
  }

  // ---------------------------------------------------------------- what every step keeps

  /** finish() holds the lifetime lock exclusively. */
  predicate Holding(stage: Stage) {
    stage.Deciding? || stage.Unlisting? || stage.ClosingSender? || stage.ClosingRegistry? || stage.EndingRequest?
  }

  /** finish() has taken the lifetime lock. */
  predicate Closed(stage: Stage) {
    Holding(stage) || stage.Finished?
  }

  predicate Decided(stage: Stage) {
    Closed(stage) && !stage.Deciding?
  }

  /** Its entry is in the slot. */
  predicate Listed(q: Request) {
    q.pendingInserted
  }

  /** A result call has been admitted to the request. */
  predicate Admitted(pc: Pc) {
    pc.GettingId? || pc.LookingUp? || pc.Calling? || pc.Erasing?
  }

  ghost predicate RequestSound(q: Request) {
    && (q.exclusive <==> Holding(q.stage))
    && (q.exclusive ==> q.sharers == {})
    && (q.pendingInserted ==> !q.stage.Activating? && !(Decided(q.stage) && !q.stage.Unlisting?))
    && (q.callbacksClosed <==> q.stage.EndingRequest? || q.stage.Finished?)
    && (q.callbacksClosed ==> q.callbacks == map[])
    && (q.senderActive <==> !(q.stage.ClosingRegistry? || q.stage.EndingRequest? || q.stage.Finished?))
    && (q.doneByCallback ==> q.doneSent)
    && (Decided(q.stage) && q.waitFailed && q.doneByCallback ==> !q.error)
  }

  ghost predicate ResultSound(s: Endpoint, t: nat, pc: Pc) {
    && pc.request < |s.requests|
    && (t in s.requests[pc.request].sharers <==> !pc.Got?)
    && (Admitted(pc) ==> !Closed(s.requests[pc.request].stage))
  }

  ghost predicate RequestsSound(s: Endpoint) {
    forall i | 0 <= i < |s.requests| :: RequestSound(s.requests[i]) && (s.slot == Some(i) <==> Listed(s.requests[i]))
  }

  ghost predicate ResultsSound(s: Endpoint) {
    forall t | t in s.results :: ResultSound(s, t, s.results[t])
  }

  ghost predicate SharersSound(s: Endpoint) {
    && (forall i, t | 0 <= i < |s.requests| && t in s.requests[i].sharers ::
          t in s.results && s.results[t].request == i)
    && (s.slot.Some? ==> s.slot.value < |s.requests|)
  }

  ghost predicate Inv(s: Endpoint) {
    RequestsSound(s) && ResultsSound(s) && SharersSound(s)
  }

  // ---------------------------------------------------------------- one request moves

  /** What a step of result call `t` (or of no result call) may do to a request that others are concerned with. */
  ghost predicate Mild(a: Request, b: Request, t: Option<nat>) {
    && (forall u | t != Some(u) :: u in b.sharers <==> u in a.sharers)
    && (a.sharers != {} && !Closed(a.stage) ==> !Closed(b.stage))
  }

  ghost predicate OneRequestMoves(s: Endpoint, r: Endpoint, i: nat, t: Option<nat>) {
    && i < |s.requests| && |r.requests| == |s.requests| && r.requests == s.requests[i := r.requests[i]]
    && Mild(s.requests[i], r.requests[i], t)
    && (r.slot == s.slot || (r.slot.None? && s.slot == Some(i)) || (r.slot == Some(i) && s.slot.None?))
    && (forall u | u in s.results && t != Some(u) :: u in r.results && r.results[u] == s.results[u])
    && (forall u | u in r.results && t != Some(u) :: u in s.results)
    && (t.Some? ==> t.value in s.results && s.results[t.value].request == i)
    && (t.Some? && t.value in r.results ==> r.results[t.value].request == i)
  }

  lemma BystanderSound(s: Endpoint, r: Endpoint, i: nat, t: Option<nat>, u: nat)
    requires OneRequestMoves(s, r, i, t) && u in s.results && t != Some(u) && ResultSound(s, u, s.results[u])
    ensures u in r.results && ResultSound(r, u, r.results[u])
  {
    assert s.results[u].request != i ==> r.requests[s.results[u].request] == s.requests[s.results[u].request];
    hide Closed;
  }

  lemma ResultsKept(s: Endpoint, r: Endpoint, i: nat, t: Option<nat>)
    requires ResultsSound(s) && OneRequestMoves(s, r, i, t)
    requires t.Some? && t.value in r.results ==> ResultSound(r, t.value, r.results[t.value])
    ensures ResultsSound(r)
  {
    hide ResultSound, Mild;
    forall u | u in r.results ensures ResultSound(r, u, r.results[u]) {
      if t != Some(u) {
        assert ResultSound(s, u, s.results[u]);
        BystanderSound(s, r, i, t, u);
      }
    }
  }

  lemma SharersKept(s: Endpoint, r: Endpoint, i: nat, t: Option<nat>)
    requires SharersSound(s) && OneRequestMoves(s, r, i, t)
    requires t.Some? && t.value in r.requests[i].sharers ==> t.value in r.results
    ensures SharersSound(r)
  {
  }

  lemma OneRequestKeeps(s: Endpoint, r: Endpoint, i: nat, t: Option<nat>)
    requires Inv(s) && OneRequestMoves(s, r, i, t)
    requires RequestSound(r.requests[i]) && (r.slot == Some(i) <==> Listed(r.requests[i]))
    requires t.Some? && t.value in r.results ==> ResultSound(r, t.value, r.results[t.value])
    requires t.Some? && t.value !in r.results ==> t.value !in r.requests[i].sharers
    ensures Inv(r)
  {
    ResultsKept(s, r, i, t);
    SharersKept(s, r, i, t);
    hide ResultsSound, SharersSound;
    forall d | 0 <= d < |r.requests|
      ensures RequestSound(r.requests[d]) && (r.slot == Some(d) <==> Listed(r.requests[d]))
    {
      if d != i { assert RequestSound(s.requests[d]); }
    }
  }

  lemma HandledSound(q: Request, act: HandlerStep, vacant: bool)
    requires RequestSound(q) && Fits(q, act)
    ensures RequestSound(Handled(q, act, vacant)) && Mild(q, Handled(q, act, vacant), None)
  {
  }

  lemma HandledListed(q: Request, act: HandlerStep, vacant: bool)
    requires RequestSound(q) && Fits(q, act)
    ensures Listed(Handled(q, act, vacant)) <==> (Listed(q) && !act.Unlist?) || (act.Activate? && vacant)
  {
  }

  lemma HandlerMoves(s: Endpoint, i: nat, act: HandlerStep)
    requires HandlerCan(s, i, act) && (s.slot == Some(i) <==> Listed(s.requests[i]))
    requires Mild(s.requests[i], Handled(s.requests[i], act, s.slot.None?), None)
    ensures OneRequestMoves(s, HandlerDoes(s, i, act), i, None)
  {
    hide Mild, Handled, Fits;
  }

  lemma HandlerKeeps(s: Endpoint, i: nat, act: HandlerStep)
    requires Inv(s) && HandlerCan(s, i, act)
    ensures Inv(HandlerDoes(s, i, act))
  {
    var q, vacant := s.requests[i], s.slot.None?;
    assert RequestSound(q) && (s.slot == Some(i) <==> Listed(q));
    hide Inv, RequestSound, Mild, Handled, Fits, OneRequestMoves;
    HandledSound(q, act, vacant);
    HandledListed(q, act, vacant);
    HandlerMoves(s, i, act);
    OneRequestKeeps(s, HandlerDoes(s, i, act), i, None);
  }

  /** Only flags or callbacks of an open request change. */
  lemma RequestKeeps(s: Endpoint, i: nat, q: Request)
    requires Inv(s) && i < |s.requests| && RequestSound(q) && q.stage == s.requests[i].stage
    requires q.sharers == s.requests[i].sharers && q.pendingInserted == s.requests[i].pendingInserted
    ensures Inv(With(s, i, q))
  {
    assert s.slot == Some(i) <==> Listed(s.requests[i]);
    hide Inv, RequestSound;
    OneRequestKeeps(s, With(s, i, q), i, None);
  }

  lemma LeaveKeeps(s: Endpoint, t: nat)
    requires Inv(s) && t in s.results && s.results[t].request < |s.requests|
    ensures Inv(Leave(s, t))
  {
    var i := s.results[t].request;
    assert RequestSound(s.requests[i]) && (s.slot == Some(i) <==> Listed(s.requests[i]));
    hide Inv;
    OneRequestKeeps(s, Leave(s, t), i, Some(t));
  }

  /** The call goes on with the lock it has; it is admitted only while its request is listed. */
  lemma MoveKeeps(s: Endpoint, t: nat, next: Pc)
    requires Inv(s) && t in s.results && !s.results[t].Got? && !next.Got? && next.request == s.results[t].request
    requires Admitted(s.results[t]) || s.slot == Some(next.request)
    ensures Inv(s.(results := s.results[t := next]))
  {
    var i := next.request;
    assert ResultSound(s, t, s.results[t]);
    assert RequestSound(s.requests[i]) && (s.slot == Some(i) <==> Listed(s.requests[i]));
    hide Inv;
    assert s.requests[i := s.requests[i]] == s.requests;
    OneRequestKeeps(s, s.(results := s.results[t := next]), i, Some(t));
  }

  lemma LockSharedKeeps(s: Endpoint, t: nat)
    requires Inv(s) && ResultCan(s, t, LockShared)
    ensures Inv(ResultDoes(s, t, LockShared))
  {
    var i := s.results[t].request;
    assert ResultSound(s, t, s.results[t]);
    assert RequestSound(s.requests[i]) && (s.slot == Some(i) <==> Listed(s.requests[i]));
    hide Inv;
    OneRequestKeeps(s, ResultDoes(s, t, LockShared), i, Some(t));
  }

  lemma EraseKeeps(s: Endpoint, t: nat)
    requires Inv(s) && ResultCan(s, t, Erase)
    ensures Inv(ResultDoes(s, t, Erase))
  {
    var i := s.results[t].request;
    var q := s.requests[i].(callbacks := s.requests[i].callbacks - {s.results[t].message});
    assert RequestSound(s.requests[i]) && RequestSound(q);
    hide Inv, RequestSound;
    RequestKeeps(s, i, q);
    LeaveKeeps(With(s, i, q), t);
  }

  lemma CallDoneKeeps(s: Endpoint, t: nat)
    requires Inv(s) && ResultCan(s, t, CallDone)
    ensures Inv(ResultDoes(s, t, CallDone))
  {
    var i := s.results[t].request;
    var q := s.requests[i].(doneSent := true, doneByCallback := true);
    assert ResultSound(s, t, s.results[t]) && RequestSound(s.requests[i]);
    assert RequestSound(q);
    hide Inv, RequestSound;
    RequestKeeps(s, i, q);
  }

  lemma ResultKeeps(s: Endpoint, t: nat, move: ResultStep)
    requires Inv(s) && ResultCan(s, t, move)
    ensures Inv(ResultDoes(s, t, move))
  {
    hide Inv, Leave, With;
    var i := s.results[t].request;
    match move
    case LockShared => LockSharedKeeps(s, t);
    case Recheck => if s.slot == Some(i) { MoveKeeps(s, t, GettingId(i)); } else { LeaveKeeps(s, t); }
    case GotId(message) => MoveKeeps(s, t, LookingUp(i, message));
    case LookUp =>
      var message := s.results[t].message;
      if message in s.requests[i].callbacks { MoveKeeps(s, t, Calling(i, message)); } else { LeaveKeeps(s, t); }
    case CallDone => CallDoneKeeps(s, t);
    case CallbackReturns(erase) =>
      if erase { MoveKeeps(s, t, Erasing(i, s.results[t].message)); } else { LeaveKeeps(s, t); }
    case Erase => EraseKeeps(s, t);
  }

  lemma BeginKeeps(s: Endpoint)
    requires Inv(s)
    ensures Inv(Do(s, Begin))
  {
    var r := Do(s, Begin);
    forall d | 0 <= d < |r.requests|
      ensures RequestSound(r.requests[d]) && (r.slot == Some(d) <==> Listed(r.requests[d]))
    {
      if d < |s.requests| { assert RequestSound(s.requests[d]); }
    }
    forall u | u in r.results ensures ResultSound(r, u, r.results[u]) {
      assert ResultSound(s, u, s.results[u]);
    }
  }

  lemma ArriveResults(s: Endpoint, t: nat)
    requires ResultsSound(s) && SharersSound(s) && Enabled(s, Arrive(t))
    ensures ResultsSound(Do(s, Arrive(t)))
  {
    var r := Do(s, Arrive(t));
    assert forall i | 0 <= i < |s.requests| :: t !in s.requests[i].sharers;
    hide SharersSound;
    forall u | u in r.results ensures ResultSound(r, u, r.results[u]) {
      if u != t { assert ResultSound(s, u, s.results[u]); }
    }
  }

  lemma ArriveKeeps(s: Endpoint, t: nat)
    requires Inv(s) && Enabled(s, Arrive(t))
    ensures Inv(Do(s, Arrive(t)))
  {
    hide RequestSound, ResultsSound;
    ArriveResults(s, t);
  }

  lemma StepKeeps(s: Endpoint, step: Step)
    requires Inv(s) && Enabled(s, step)
    ensures Inv(Do(s, step))
  {
    match step
    case Begin => BeginKeeps(s);
    case ByHandler(i, act) => HandlerKeeps(s, i, act);
    case Arrive(t) => ArriveKeeps(s, t);
    case ByResult(t, move) => ResultKeeps(s, t, move);
    case SetCallback(i, message, callback) =>
      assert RequestSound(s.requests[i]);
      RequestKeeps(s, i, s.requests[i].(callbacks := s.requests[i].callbacks[message := callback]));
    case DoneOutside(i) =>
      assert RequestSound(s.requests[i]);
      RequestKeeps(s, i, s.requests[i].(doneSent := true));
    case SendDone(i) =>
      assert RequestSound(s.requests[i]);
      RequestKeeps(s, i, s.requests[i].(doneEvent := true));
  }

  lemma InitiallyHolds()
    ensures Inv(INITIAL)
  {
  }

  lemma {:induction false} RunKeeps(steps: seq<Step>)
    requires Run(steps).Some?
    ensures Inv(Run(steps).value)
  {
    hide Inv, Do, Enabled;
    if steps == [] {
      InitiallyHolds();
    } else {
      RunKeeps(steps[..|steps| - 1]);
      StepKeeps(Run(steps[..|steps| - 1]).value, steps[|steps| - 1]);
    }
  }

  // ---------------------------------------------------------------- main results

  /** Once finish() has had the lifetime lock, neither getMessageId nor a callback runs on the request again. */
  lemma NoCallbackAfterFinish(steps: seq<Step>, t: nat)
    requires Run(steps).Some? && t in Run(steps).value.results && Admitted(Run(steps).value.results[t])
    ensures var s := Run(steps).value;
            s.results[t].request < |s.requests| && !Closed(s.requests[s.results[t].request].stage)
  {
    RunKeeps(steps);
    var s := Run(steps).value;
    assert ResultSound(s, t, s.results[t]);
  }

  /** The request is still as closed as it was. */
  predicate NotReopened(a: Stage, b: Stage) {
    (Closed(a) ==> Closed(b)) && (a.Finished? ==> b.Finished?)
  }

  lemma HandlerDoesNotReopen(s: Endpoint, i: nat, act: HandlerStep, j: nat)
    requires HandlerCan(s, i, act) && j < |s.requests|
    ensures var r := HandlerDoes(s, i, act);
            j < |r.requests| && NotReopened(s.requests[j].stage, r.requests[j].stage)
  {
  }

  lemma ResultDoesNotReopen(s: Endpoint, t: nat, move: ResultStep, j: nat)
    requires ResultCan(s, t, move) && j < |s.requests|
    ensures j < |ResultDoes(s, t, move).requests| && ResultDoes(s, t, move).requests[j].stage == s.requests[j].stage
  {
  }

  lemma StepDoesNotReopen(s: Endpoint, step: Step, j: nat)
    requires Enabled(s, step) && j < |s.requests|
    ensures j < |Do(s, step).requests| && NotReopened(s.requests[j].stage, Do(s, step).requests[j].stage)
  {
    hide HandlerCan, HandlerDoes, ResultCan, ResultDoes;
    if step.ByHandler? {
      HandlerDoesNotReopen(s, step.request, step.act, j);
    } else if step.ByResult? {
      ResultDoesNotReopen(s, step.result, step.move, j);
    }
  }

  /** A request stays closed, and finished, in every continuation of the run. */
  lemma {:induction false} ClosedForGood(steps: seq<Step>, n: nat, i: nat)
    requires n <= |steps| && Run(steps).Some? && Run(steps[..n]).Some? && i < |Run(steps[..n]).value.requests|
    ensures i < |Run(steps).value.requests|
    ensures NotReopened(Run(steps[..n]).value.requests[i].stage, Run(steps).value.requests[i].stage)
    decreases |steps|
  {
    if n == |steps| {
      assert steps[..n] == steps;
    } else {
      var before := steps[..|steps| - 1];
      assert before[..n] == steps[..n];
      ClosedForGood(before, n, i);
      hide Do, Enabled;
      StepDoesNotReopen(Run(before).value, steps[|steps| - 1], i);
    }
  }

  /** The registry of callbacks of a finished request is closed and empty. */
  lemma RegistryStaysEmpty(steps: seq<Step>, i: nat)
    requires Run(steps).Some? && i < |Run(steps).value.requests| && Run(steps).value.requests[i].stage.Finished?
    ensures var q := Run(steps).value.requests[i];
            q.callbacksClosed && q.callbacks == map[] && !q.senderActive && Run(steps).value.slot != Some(i)
  {
    RunKeeps(steps);
    assert RequestSound(Run(steps).value.requests[i]);
  }

  /** A done() of an admitted callback makes up for a wait that failed. */
  lemma DoneOverridesFailedWait(steps: seq<Step>, i: nat)
    requires Run(steps).Some? && i < |Run(steps).value.requests|
    requires var q := Run(steps).value.requests[i]; Decided(q.stage) && q.waitFailed && q.doneByCallback
    ensures !Run(steps).value.requests[i].error
  {
    RunKeeps(steps);
    assert RequestSound(Run(steps).value.requests[i]);
  }

  /** finish() removes the entry of its own request, or none: not that of another request with the same stream id. */
  lemma PopsOwnEntry(steps: seq<Step>, i: nat)
    requires Run(steps).Some? && i < |Run(steps).value.requests| && Run(steps).value.requests[i].stage.Unlisting?
    ensures var s := Run(steps).value;
            var r := HandlerDoes(s, i, Unlist);
            && (s.requests[i].pendingInserted <==> s.slot == Some(i))
            && r.slot == if s.slot == Some(i) then None else s.slot
  {
    RunKeeps(steps);
    assert RequestSound(Run(steps).value.requests[i]);
  }
}
