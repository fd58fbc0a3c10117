/**
 Client-streaming sink sessions: everything that happens on one stream id of an endpoint.

 The pending map is one slot here, read and written atomically. A consume() call finds a cell in the slot or puts a new
 one there and makes the session; a detached task completes the session once done was sent. One step is one access to
 the slot or to a flag, the taking or giving back of a lock, or a piece of user code.
 */
module SinkSession {
  import opened Options

  /** How far the call that made the cell is with its session; `began` tells whether beginRequest had succeeded. */
  datatype Maker =
    | Beginning
    | Dialling
    | Broken(began: bool)         // error stored
    | Ending                      // ready, endRequest to be called
    | Looking(began: bool)        // dropReservation, before get
    | Popping(began: bool)        // dropReservation, before pop
    | Gone(began: bool)
    | Filled                      // session stored
    | Published                   // ready, the completing task is to be spawned
    | Made

  /** Where complete() is. */
  datatype Completion =
    | NotSpawned
    | AwaitingDone
    | Finishing                   // closing the transport
    | Locking
    | Handling                    // handleResponse
    | Finalizing(owns: bool)
    | Relocking
    | EndingRequest               // endRequest
    | Removing
    | Completed

  datatype Cell = Cell(
    maker: Maker, ready: bool, session: bool, error: bool,
    finalizing: bool, done: bool,
    sharers: set<nat>, exclusive: bool,     // lifetimeMutex
    completion: Completion,
    begins: nat, ends: nat)                 // history: successful beginRequest and endRequest calls

  /** Where a consume() call is. */
  datatype Pc =
    | Making(cell: nat)
    | Waiting(cell: nat)
    | Having(cell: nat)
    | LockingShared(cell: nat)
    | Checking(cell: nat)
    | Consuming(cell: nat)

  datatype Endpoint = Endpoint(slot: Option<nat>, cells: seq<Cell>, calls: map<nat, Pc>)

  const INITIAL := Endpoint(None, [], map[])

  const NEW_CELL := Cell(Beginning, false, false, false, false, false, {}, false, NotSpawned, 0, 0)

  /** Making the session, or giving it up. */
  datatype MakerStep =
    | Begin(ok: bool)
    | Dial(ok: bool)
    | MarkReady
    | EndFailed
    | DropGet
    | DropPop
    | Spawn

  datatype CallStep =
    | SeeReady
    | LookFinalizing
    | LockShared
    | Check
    | Finish

  datatype CompleteStep =
    | SeeDone
    | WaitFails
    | FinishRpc(ok: bool)
    | LockExclusive
    | Handled
    | MarkFinalizing
    | LockAgain
    | EndRequest
    | Pop

  datatype Step =
    | Arrive(call: nat)
    | ByMaker(call: nat, deed: MakerStep)
    | ByCall(call: nat, act: CallStep)
    | ByTask(cell: nat, move: CompleteStep)
    | Done(cell: nat)

  function With(s: Endpoint, c: nat, cell: Cell): Endpoint
    requires c < |s.cells|
  {
    s.(cells := s.cells[c := cell])
  }

  predicate Fits(m: Maker, step: MakerStep) {
    match step
    case Begin(_) => m.Beginning?
    case Dial(_) => m.Dialling?
    case MarkReady => m.Broken? || m.Filled?
    case EndFailed => m.Ending?
    case DropGet => m.Looking?
    case DropPop => m.Popping?
    case Spawn => m.Published?
  }

  /** What the step makes of the cell; `mine` tells whether the slot holds it. */
  function Advanced(cell: Cell, step: MakerStep, mine: bool): Cell
    requires Fits(cell.maker, step)
  {
    match step
    case Begin(ok) =>
      if ok then cell.(maker := Dialling, begins := cell.begins + 1) else cell.(maker := Broken(false), error := true)
    case Dial(ok) =>
      if ok then cell.(maker := Filled, session := true) else cell.(maker := Broken(true), error := true)
    case MarkReady =>
      cell.(ready := true,
            maker := if cell.maker.Filled? then Published else if cell.maker.began then Ending else Looking(false))
    case EndFailed => cell.(maker := Looking(true), ends := cell.ends + 1)
    case DropGet => cell.(maker := if mine then Popping(cell.maker.began) else Gone(cell.maker.began))
    case DropPop => cell.(maker := Gone(cell.maker.began))
    case Spawn => cell.(maker := Made, completion := AwaitingDone)
  }

  predicate MakerCan(s: Endpoint, t: nat, step: MakerStep) {
    t in s.calls && s.calls[t].Making? && s.calls[t].cell < |s.cells| && Fits(s.cells[s.calls[t].cell].maker, step)
  }

  function MakerDoes(s: Endpoint, t: nat, step: MakerStep): Endpoint
    requires MakerCan(s, t, step)
  {
    var c := s.calls[t].cell;
    var cell := Advanced(s.cells[c], step, s.slot == Some(c));
    With(s, c, cell).(
      slot := if step.DropPop? then None else s.slot,
      calls :=
        if cell.maker.Gone? then s.calls - {t}
        else if cell.maker.Made? then s.calls[t := Having(c)]
        else s.calls)
  }

  predicate CallCan(s: Endpoint, t: nat, act: CallStep) {
    t in s.calls && s.calls[t].cell < |s.cells| &&
    var pc := s.calls[t];
    match act
    case SeeReady => pc.Waiting? && s.cells[pc.cell].ready
    case LookFinalizing => pc.Having?
    case LockShared => pc.LockingShared? && !s.cells[pc.cell].exclusive
    case Check => pc.Checking?
    case Finish => pc.Consuming?
  }

  function CallDoes(s: Endpoint, t: nat, act: CallStep): Endpoint
    requires CallCan(s, t, act)
  {
    var c := s.calls[t].cell;
    var cell := s.cells[c];
    match act
    case SeeReady => s.(calls := if cell.error then s.calls - {t} else s.calls[t := Having(c)])
    case LookFinalizing => s.(calls := if cell.finalizing then s.calls - {t} else s.calls[t := LockingShared(c)])
    case LockShared => With(s, c, cell.(sharers := cell.sharers + {t})).(calls := s.calls[t := Checking(c)])
    case Check =>
      if cell.finalizing || s.slot != Some(c) then
        With(s, c, cell.(sharers := cell.sharers - {t})).(calls := s.calls - {t})
      else s.(calls := s.calls[t := Consuming(c)])
    case Finish => With(s, c, cell.(sharers := cell.sharers - {t})).(calls := s.calls - {t})
  }

  predicate TaskCan(s: Endpoint, c: nat, move: CompleteStep) {
    c < |s.cells| &&
    var cell := s.cells[c];
    match move
    case SeeDone => cell.completion.AwaitingDone? && cell.done
    case WaitFails => cell.completion.AwaitingDone?
    case FinishRpc(_) => cell.completion.Finishing?
    case LockExclusive => cell.completion.Locking? && cell.sharers == {} && !cell.exclusive
    case Handled => cell.completion.Handling?
    case MarkFinalizing => cell.completion.Finalizing?
    case LockAgain => cell.completion.Relocking? && cell.sharers == {} && !cell.exclusive
    case EndRequest => cell.completion.EndingRequest?
    case Pop => cell.completion.Removing?
  }

  function TaskDoes(s: Endpoint, c: nat, move: CompleteStep): Endpoint
    requires TaskCan(s, c, move)
  {
    var cell := s.cells[c];
    match move
    case SeeDone => With(s, c, cell.(completion := Finishing, finalizing := true))
    case WaitFails => With(s, c, cell.(completion := Finalizing(false)))
    case FinishRpc(ok) => With(s, c, cell.(completion := if ok then Locking else Finalizing(false)))
    case LockExclusive => With(s, c, cell.(completion := Handling, exclusive := true))
    case Handled => With(s, c, cell.(completion := Finalizing(true)))
    case MarkFinalizing =>
      With(s, c, cell.(finalizing := true, completion := if cell.completion.owns then EndingRequest else Relocking))
    case LockAgain => With(s, c, cell.(completion := EndingRequest, exclusive := true))
    case EndRequest => With(s, c, cell.(completion := Removing, ends := cell.ends + 1))
    case Pop => With(s, c, cell.(completion := Completed, exclusive := false)).(slot := None)
  }

  predicate Enabled(s: Endpoint, step: Step) {
    match step
    case Arrive(t) => t !in s.calls
    case ByMaker(t, deed) => MakerCan(s, t, deed)
    case ByCall(t, act) => CallCan(s, t, act)
    case ByTask(c, move) => TaskCan(s, c, move)
    case Done(c) => c < |s.cells| && s.cells[c].session
  }

  function Do(s: Endpoint, step: Step): Endpoint
    requires Enabled(s, step)
  {
    match step
    case Arrive(t) =>
      if s.slot.Some? then s.(calls := s.calls[t := Waiting(s.slot.value)])
      else s.(slot := Some(|s.cells|), cells := s.cells + [NEW_CELL], calls := s.calls[t := Making(|s.cells|)])
    case ByMaker(t, deed) => MakerDoes(s, t, deed)
    case ByCall(t, act) => CallDoes(s, t, act)
    case ByTask(c, move) => TaskDoes(s, c, move)
    case Done(c) => With(s, c, s.cells[c].(done := true))
  }

  function Run(steps: seq<Step>): Option<Endpoint> {
    if steps == [] then Some(INITIAL) else
    var before, step := Run(steps[..|steps| - 1]), steps[|steps| - 1];
    if before.Some? && Enabled(before.value, step) then Some(Do(before.value, step)) else None
  }

  // ---------------------------------------------------------------- what every step keeps

  predicate Popped(cell: Cell) {
    cell.maker.Gone? || cell.completion.Completed?
  }

  predicate Failed(m: Maker) {
    m.Ending? || m.Looking? || m.Popping? || m.Gone?
  }

  predicate Began(m: Maker) {
    match m
    case Beginning => false
    case Broken(b) => b
    case Looking(b) => b
    case Popping(b) => b
    case Gone(b) => b
    case Dialling => true
    case Ending => true
    case Filled => true
    case Published => true
    case Made => true
  }

  predicate Ended(cell: Cell) {
    || (Failed(cell.maker) && !cell.maker.Ending? && Began(cell.maker))
    || cell.completion.Removing? || cell.completion.Completed?
  }

  /** complete() has the exclusive lock. */
  predicate Owning(m: Completion) {
    m.Handling? || m == Finalizing(true) || m.EndingRequest? || m.Removing?
  }

  /** A cell by itself. */
  ghost predicate CellSound(cell: Cell) {
    && (cell.completion.NotSpawned? <==> !cell.maker.Made?)
    && (cell.ready <==> Failed(cell.maker) || cell.maker.Published? || cell.maker.Made?)
    && (cell.session <==> cell.maker.Filled? || cell.maker.Published? || cell.maker.Made?)
    && (cell.error <==> cell.maker.Broken? || Failed(cell.maker))
    && cell.begins == (if Began(cell.maker) then 1 else 0)
    && cell.ends == (if Ended(cell) then 1 else 0)
    && (cell.exclusive <==> Owning(cell.completion))
    && (cell.exclusive ==> cell.sharers == {})
    && (cell.completion.NotSpawned? || cell.completion.AwaitingDone? ==> !cell.finalizing)
    && (!cell.completion.NotSpawned? && !cell.completion.AwaitingDone? && cell.completion != Finalizing(false) ==>
          cell.finalizing)
  }

  /** consumeMessage may be running. */
  predicate MayConsume(m: Completion) {
    !Owning(m) && !m.Completed?
  }

  ghost predicate CallSound(s: Endpoint, t: nat, pc: Pc) {
    pc.cell < |s.cells| &&
    var cell := s.cells[pc.cell];
    && (pc.Making? ==> !cell.maker.Made? && !cell.maker.Gone?)
    && (pc.Having? || pc.LockingShared? || pc.Checking? || pc.Consuming? ==> cell.ready && cell.session)
    && (t in cell.sharers <==> pc.Checking? || pc.Consuming?)
    && (pc.Consuming? ==> MayConsume(cell.completion))
  }

  ghost predicate CellsSound(s: Endpoint) {
    forall c | 0 <= c < |s.cells| :: CellSound(s.cells[c]) && (s.slot == Some(c) <==> !Popped(s.cells[c]))
  }

  ghost predicate CallsSound(s: Endpoint) {
    forall t | t in s.calls :: CallSound(s, t, s.calls[t])
  }

  /** Whoever shares a lock is inside its call; a cell is made by one call. */
  ghost predicate SharersSound(s: Endpoint) {
    && (forall c, t | 0 <= c < |s.cells| && t in s.cells[c].sharers :: t in s.calls && s.calls[t].cell == c)
    && (forall t, u | t in s.calls && u in s.calls && s.calls[t].Making? && s.calls[u].Making?
                      && s.calls[t].cell == s.calls[u].cell :: t == u)
    && (s.slot.Some? ==> s.slot.value < |s.cells|)
  }

  ghost predicate Inv(s: Endpoint) {
    CellsSound(s) && CallsSound(s) && SharersSound(s)
  }

  // ---------------------------------------------------------------- one cell moves

  /** What a step of call `t` (or of no call) may do to a cell that other calls are concerned with. */
  ghost predicate Mild(a: Cell, b: Cell, t: Option<nat>) {
    && (a.ready ==> b.ready) && (a.session ==> b.session)
    && (t.None? ==> b.maker == a.maker)
    && (forall u | t != Some(u) :: u in b.sharers <==> u in a.sharers)
    && (a.sharers != {} && MayConsume(a.completion) ==> MayConsume(b.completion))
  }

  ghost predicate OneCellMoves(s: Endpoint, r: Endpoint, c: nat, t: Option<nat>) {
    && c < |s.cells| && |r.cells| == |s.cells| && r.cells == s.cells[c := r.cells[c]]
    && Mild(s.cells[c], r.cells[c], t)
    && (r.slot == s.slot || (r.slot.None? && s.slot == Some(c)))
    && (forall u | u in s.calls && t != Some(u) :: u in r.calls && r.calls[u] == s.calls[u])
    && (forall u | u in r.calls && t != Some(u) :: u in s.calls)
    && (t.Some? ==> t.value in s.calls && s.calls[t.value].cell == c &&
                    (t.value in r.calls ==>
                       && r.calls[t.value].cell == c
                       && (r.calls[t.value].Making? ==> s.calls[t.value].Making?)) &&
                    (r.cells[c].maker == s.cells[c].maker || s.calls[t.value].Making?))
  }

  lemma CallsKept(s: Endpoint, r: Endpoint, c: nat, t: Option<nat>)
    requires CallsSound(s) && SharersSound(s) && OneCellMoves(s, r, c, t)
    requires t.Some? && t.value in r.calls ==> CallSound(r, t.value, r.calls[t.value])
    ensures CallsSound(r)
  {
    forall u | u in r.calls ensures CallSound(r, u, r.calls[u]) {
      if t != Some(u) {
        assert CallSound(s, u, s.calls[u]);
      }
    }
  }

  lemma SharersKept(s: Endpoint, r: Endpoint, c: nat, t: Option<nat>)
    requires SharersSound(s) && OneCellMoves(s, r, c, t)
    requires t.Some? && t.value in r.cells[c].sharers ==> t.value in r.calls
    requires t.Some? ==> forall d | 0 <= d < |s.cells| && d != c :: t.value !in s.cells[d].sharers
    ensures SharersSound(r)
  {
  }

  lemma OneCellKeeps(s: Endpoint, r: Endpoint, c: nat, t: Option<nat>)
    requires Inv(s) && OneCellMoves(s, r, c, t)
    requires CellSound(r.cells[c]) && (r.slot == Some(c) <==> !Popped(r.cells[c]))
    requires t.Some? && t.value in r.calls ==> CallSound(r, t.value, r.calls[t.value])
    requires t.Some? && t.value !in r.calls ==> t.value !in r.cells[c].sharers
    ensures Inv(r)
  {
    CallsKept(s, r, c, t);
    SharersKept(s, r, c, t);
    hide CallsSound, SharersSound;
    forall d | 0 <= d < |r.cells| ensures CellSound(r.cells[d]) && (r.slot == Some(d) <==> !Popped(r.cells[d])) {
      if d != c { assert CellSound(s.cells[d]); }
    }
  }

  lemma CallIsSound(s: Endpoint, t: nat)
    requires Inv(s) && t in s.calls
    ensures CallSound(s, t, s.calls[t])
    ensures var c := s.calls[t].cell;
            c < |s.cells| && CellSound(s.cells[c]) && (s.slot == Some(c) <==> !Popped(s.cells[c]))
  {
    hide CellSound, Popped, SharersSound;
    assert CallSound(s, t, s.calls[t]);
  }

  lemma AdvancedSound(cell: Cell, step: MakerStep, t: nat)
    requires CellSound(cell) && Fits(cell.maker, step) && !Popped(cell)
    ensures var next := Advanced(cell, step, true);
            CellSound(next) && Mild(cell, next, Some(t)) && (step.DropPop? <==> Popped(next))
  {
  }

  /** The maker, while it is making its cell or when it has become its first user. */
  lemma MakerSound(cell: Cell, step: MakerStep)
    requires CellSound(cell) && Fits(cell.maker, step) && !Popped(cell)
    ensures var next := Advanced(cell, step, true);
            && next.sharers == cell.sharers && (next.maker.Gone? <==> step.DropPop?)
            && (next.maker.Made? ==> next.ready && next.session)
  {
  }

  lemma MakerCallSound(s: Endpoint, t: nat, step: MakerStep)
    requires MakerCan(s, t, step) && CallSound(s, t, s.calls[t])
    requires var cell := s.cells[s.calls[t].cell]; CellSound(cell) && !Popped(cell) && s.slot == Some(s.calls[t].cell)
    ensures var r := MakerDoes(s, t, step); t in r.calls ==> CallSound(r, t, r.calls[t])
  {
    MakerSound(s.cells[s.calls[t].cell], step);
    hide Advanced, CellSound;
  }

  lemma MakerMoves(s: Endpoint, t: nat, step: MakerStep)
    requires MakerCan(s, t, step) && s.slot == Some(s.calls[t].cell)
    requires var cell := s.cells[s.calls[t].cell]; Mild(cell, Advanced(cell, step, true), Some(t))
    ensures OneCellMoves(s, MakerDoes(s, t, step), s.calls[t].cell, Some(t))
  {
    hide Mild, Advanced, Fits;
  }

  lemma MakerKeeps(s: Endpoint, t: nat, step: MakerStep)
    requires Inv(s) && MakerCan(s, t, step)
    ensures Inv(MakerDoes(s, t, step))
  {
    hide Mild, Inv, OneCellMoves;
    var c := s.calls[t].cell;
    CallIsSound(s, t);
    assert !Popped(s.cells[c]);
    hide Popped, CellSound;
    AdvancedSound(s.cells[c], step, t);
    MakerSound(s.cells[c], step);
    MakerCallSound(s, t, step);
    MakerMoves(s, t, step);
    hide Advanced, CallSound, Fits;
    OneCellKeeps(s, MakerDoes(s, t, step), c, Some(t));
  }

  /** A call of consume by itself. */
  lemma NextCallSound(s: Endpoint, t: nat, act: CallStep)
    requires CallCan(s, t, act) && CallSound(s, t, s.calls[t])
    requires var c := s.calls[t].cell; CellSound(s.cells[c]) && (s.slot == Some(c) <==> !Popped(s.cells[c]))
    ensures var r := CallDoes(s, t, act); t in r.calls ==> CallSound(r, t, r.calls[t])
  {
  }

  /** What a call of consume does to the cell: at most it takes or drops its share of the lock. */
  lemma ConsumeSound(s: Endpoint, t: nat, act: CallStep)
    requires CallCan(s, t, act) && CallSound(s, t, s.calls[t]) && CellSound(s.cells[s.calls[t].cell])
    ensures var cell, next := s.cells[s.calls[t].cell], CallDoes(s, t, act).cells[s.calls[t].cell];
            && CellSound(next) && Mild(cell, next, Some(t)) && next.maker == cell.maker
            && (Popped(next) <==> Popped(cell))
            && (t !in CallDoes(s, t, act).calls ==> t !in next.sharers)
  {
  }

  lemma CallMoves(s: Endpoint, t: nat, act: CallStep)
    requires CallCan(s, t, act)
    requires var cell, next := s.cells[s.calls[t].cell], CallDoes(s, t, act).cells[s.calls[t].cell];
             Mild(cell, next, Some(t)) && next.maker == cell.maker
    ensures OneCellMoves(s, CallDoes(s, t, act), s.calls[t].cell, Some(t))
  {
    hide Mild;
    var c := s.calls[t].cell;
    assert s.cells[c := s.cells[c]] == s.cells;
  }

  lemma CallKeeps(s: Endpoint, t: nat, act: CallStep)
    requires Inv(s) && CallCan(s, t, act)
    ensures Inv(CallDoes(s, t, act))
  {
    hide Inv, CellSound, Popped, Mild, CallSound, OneCellMoves;
    CallIsSound(s, t);
    NextCallSound(s, t, act);
    ConsumeSound(s, t, act);
    CallMoves(s, t, act);
    assert CallDoes(s, t, act).slot == s.slot;
    hide CallDoes, CallCan;
    OneCellKeeps(s, CallDoes(s, t, act), s.calls[t].cell, Some(t));
  }

  /** What a step of complete() makes of its cell. */
  lemma CompletionSound(s: Endpoint, c: nat, move: CompleteStep)
    requires TaskCan(s, c, move) && CellSound(s.cells[c])
    ensures var cell, next := s.cells[c], TaskDoes(s, c, move).cells[c];
            CellSound(next) && Mild(cell, next, None) && (Popped(next) <==> Popped(cell) || move.Pop?)
  {
  }

  lemma TaskMoves(s: Endpoint, c: nat, move: CompleteStep)
    requires TaskCan(s, c, move) && s.slot == Some(c)
    requires Mild(s.cells[c], TaskDoes(s, c, move).cells[c], None)
    ensures OneCellMoves(s, TaskDoes(s, c, move), c, None)
  {
    hide Mild;
  }

  lemma TaskKeeps(s: Endpoint, c: nat, move: CompleteStep)
    requires Inv(s) && TaskCan(s, c, move)
    ensures Inv(TaskDoes(s, c, move))
  {
    assert CellSound(s.cells[c]) && (s.slot == Some(c) <==> !Popped(s.cells[c]));
    assert !Popped(s.cells[c]);
    hide Inv, CellSound, Mild, Popped, OneCellMoves;
    CompletionSound(s, c, move);
    TaskMoves(s, c, move);
    assert TaskDoes(s, c, move).slot == if move.Pop? then None else s.slot;
    hide TaskDoes, TaskCan;
    OneCellKeeps(s, TaskDoes(s, c, move), c, None);
  }

  lemma NotSharing(s: Endpoint, t: nat)
    requires SharersSound(s) && t !in s.calls
    ensures forall c | 0 <= c < |s.cells| :: t !in s.cells[c].sharers
  {
  }

  lemma JoinCalls(s: Endpoint, t: nat)
    requires CallsSound(s) && SharersSound(s) && t !in s.calls && s.slot.Some?
    ensures CallsSound(s.(calls := s.calls[t := Waiting(s.slot.value)]))
  {
    var r := s.(calls := s.calls[t := Waiting(s.slot.value)]);
    NotSharing(s, t);
    hide SharersSound;
    forall u | u in r.calls ensures CallSound(r, u, r.calls[u]) {
      if u != t { assert CallSound(s, u, s.calls[u]); }
    }
  }

  lemma JoinKeeps(s: Endpoint, t: nat)
    requires Inv(s) && t !in s.calls && s.slot.Some?
    ensures Inv(s.(calls := s.calls[t := Waiting(s.slot.value)]))
  {
    hide CellSound, Popped, CallsSound;
    JoinCalls(s, t);
    NotSharing(s, t);
  }

  lemma OpenCells(s: Endpoint, t: nat)
    requires CellsSound(s) && t !in s.calls && s.slot.None?
    ensures CellsSound(Do(s, Arrive(t)))
  {
    var r := Do(s, Arrive(t));
    assert CellSound(NEW_CELL) && !Popped(NEW_CELL);
    forall d | 0 <= d < |r.cells| ensures CellSound(r.cells[d]) && (r.slot == Some(d) <==> !Popped(r.cells[d])) {
      if d < |s.cells| { assert CellSound(s.cells[d]); }
    }
  }

  lemma OpenCalls(s: Endpoint, t: nat)
    requires CallsSound(s) && t !in s.calls && s.slot.None?
    ensures CallsSound(Do(s, Arrive(t)))
  {
    var r := Do(s, Arrive(t));
    forall u | u in r.calls ensures CallSound(r, u, r.calls[u]) {
      if u != t { assert CallSound(s, u, s.calls[u]); }
    }
  }

  lemma OpenSharers(s: Endpoint, t: nat)
    requires SharersSound(s) && CallsSound(s) && t !in s.calls && s.slot.None?
    ensures SharersSound(Do(s, Arrive(t)))
  {
    assert forall u | u in s.calls :: CallSound(s, u, s.calls[u]) && s.calls[u].cell < |s.cells|;
    hide CallSound;
  }

  lemma OpenKeeps(s: Endpoint, t: nat)
    requires Inv(s) && t !in s.calls && s.slot.None?
    ensures Inv(Do(s, Arrive(t)))
  {
    hide CellsSound, CallsSound, SharersSound;
    OpenCells(s, t);
    OpenCalls(s, t);
    OpenSharers(s, t);
  }

  lemma ArriveKeeps(s: Endpoint, t: nat)
    requires Inv(s) && Enabled(s, Arrive(t))
    ensures Inv(Do(s, Arrive(t)))
  {
    hide Inv;
    if s.slot.Some? { JoinKeeps(s, t); } else { OpenKeeps(s, t); }
  }

  lemma DoneKeeps(s: Endpoint, c: nat)
    requires Inv(s) && Enabled(s, Done(c))
    ensures Inv(Do(s, Done(c)))
  {
    assert CellSound(s.cells[c]) && (s.slot == Some(c) <==> !Popped(s.cells[c]));
    hide Inv;
    OneCellKeeps(s, Do(s, Done(c)), c, None);
  }

  lemma StepKeeps(s: Endpoint, step: Step)
    requires Inv(s) && Enabled(s, step)
    ensures Inv(Do(s, step))
  {
    hide Inv, MakerCan, CallCan, TaskCan, MakerDoes, CallDoes, TaskDoes;
    match step
    case Arrive(t) => ArriveKeeps(s, t);
    case ByMaker(t, deed) => MakerKeeps(s, t, deed);
    case ByCall(t, act) => CallKeeps(s, t, act);
    case ByTask(c, move) => TaskKeeps(s, c, move);
    case Done(c) => DoneKeeps(s, c);
  }

  lemma InitiallyHolds()
    ensures Inv(INITIAL)
  {
  }

  lemma {:induction false} RunKeeps(steps: seq<Step>)
    requires Run(steps).Some?
    ensures Inv(Run(steps).value)
  {
    hide Inv, Do, Enabled;
    if steps == [] {
      InitiallyHolds();
    } else {
      RunKeeps(steps[..|steps| - 1]);
      StepKeeps(Run(steps[..|steps| - 1]).value, steps[|steps| - 1]);
    }
  }

  // ---------------------------------------------------------------- main results

  /** A call that goes on after waiting sees a published session; one that sees an error sees a published error. */
  lemma WaitersSeeOnlyPublished(steps: seq<Step>, t: nat)
    requires Run(steps).Some? && t in Run(steps).value.calls
    ensures var s := Run(steps).value;
            var pc := s.calls[t];
            pc.cell < |s.cells| &&
            var cell := s.cells[pc.cell];
            && (pc.Having? || pc.LockingShared? || pc.Checking? || pc.Consuming? ==>
                  cell.ready && cell.session && !cell.error)
            && (cell.ready ==> cell.session != cell.error)
  {
    RunKeeps(steps);
    var s := Run(steps).value;
    assert CallSound(s, t, s.calls[t]) && CellSound(s.cells[s.calls[t].cell]);
  }

  /** consumeMessage never overlaps handleResponse, and does not run during or after endRequest. */
  lemma NoConsumeBesideFinalizer(steps: seq<Step>, t: nat)
    requires Run(steps).Some? && t in Run(steps).value.calls && Run(steps).value.calls[t].Consuming?
    ensures var s := Run(steps).value;
            var c := s.calls[t].cell;
            && c < |s.cells| && s.cells[c].ends == 0
            && !s.cells[c].completion.Handling? && !s.cells[c].completion.EndingRequest?
  {
    RunKeeps(steps);
    var s := Run(steps).value;
    assert CallSound(s, t, s.calls[t]) && CellSound(s.cells[s.calls[t].cell]);
  }

  /**
   endRequest runs at most once per cell and only after a successful beginRequest; exactly once when the cell is gone.
   */
  lemma EndOncePerBegin(steps: seq<Step>, c: nat)
    requires Run(steps).Some? && c < |Run(steps).value.cells|
    ensures var cell := Run(steps).value.cells[c];
            && cell.ends <= cell.begins <= 1
            && (Popped(cell) ==> cell.ends == cell.begins)
  {
    RunKeeps(steps);
    assert CellSound(Run(steps).value.cells[c]);
  }

  /** Whoever removes an entry from the map removes its own cell. */
  lemma PopsOwnCell(steps: seq<Step>, c: nat)
    requires Run(steps).Some? && c < |Run(steps).value.cells|
    requires Run(steps).value.cells[c].completion.Removing? || Run(steps).value.cells[c].maker.Popping?
             || Run(steps).value.cells[c].maker.Looking?
    ensures Run(steps).value.slot == Some(c)
  {
    RunKeeps(steps);
    assert CellSound(Run(steps).value.cells[c]);
  }

  /**
   While complete() has the exclusive lock, every call that comes to the flag is turned away without waiting for the
   lock.
   */
  lemma FinalizersMayReenter(steps: seq<Step>, t: nat)
    requires Run(steps).Some? && t in Run(steps).value.calls && Run(steps).value.calls[t].Having?
    requires var s := Run(steps).value; s.calls[t].cell < |s.cells| && s.cells[s.calls[t].cell].exclusive
    ensures var s := Run(steps).value; t !in CallDoes(s, t, LookFinalizing).calls
  {
    RunKeeps(steps);
    var s := Run(steps).value;
    assert CellSound(s.cells[s.calls[t].cell]);
  }
}
