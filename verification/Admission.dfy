/**
 The gate of a data source: accepted requests hold leases, stop() closes the gate and waits until none is left.

 One atomic word holds a closed bit and the number of leases. One step is one atomic access, the taking or giving back
 of the mutex, or a wake-up. A compare-and-exchange may fail spuriously, a waiter may wake up at any time.
 */
module Admission {
  import opened Options

  const CLOSED_BIT: nat := 0x8000_0000_0000_0000

  predicate Closed(word: nat) {
    word >= CLOSED_BIT
  }

  /** Where the release of a lease is. */
  datatype Release = Loading | Seen(word: nat) | Locking | Subtracting | Notifying | Unlocking

  /** Where a call of stop() is. */
  datatype Stop = Entering | Closing | Checking | Waiting | Relocking | Drained | TimedOut

  /** Who holds the mutex. */
  datatype Holder = Nobody | Releaser(lease: nat) | Stopper(call: nat)

  datatype Gate = Gate(
    word: nat, mutex: Holder,
    acquirers: map<nat, nat>,     // the word that an acquire() call has seen
    releases: map<nat, Release>, stops: map<nat, Stop>,
    leases: set<nat>, issued: nat, overflowed: bool)   // history

  const INITIAL := Gate(0, Nobody, map[], map[], map[], {}, 0, false)

  datatype AcquireStep = LoadWord | TryAcquire(spurious: bool)

  datatype ReleaseStep = BeginRelease | LoadForRelease | TryRelease(spurious: bool) | Lock | Subtract | Notify | Unlock

  datatype StopStep = CallStop | LockStop | Close | Check(timeout: bool) | WakeUp

  datatype Step =
    | Acquire(call: nat, a: AcquireStep)
    | Give(lease: nat, g: ReleaseStep)
    | Halt(call: nat, h: StopStep)

  predicate AcquireCan(s: Gate, t: nat, step: AcquireStep) {
    match step
    case LoadWord => t !in s.acquirers
    case TryAcquire(_) => t in s.acquirers
  }

  /** A closed word ends the loop without a lease; otherwise one compare-and-exchange, which may reload the word. */
  function AcquireDoes(s: Gate, t: nat, step: AcquireStep): Gate
    requires AcquireCan(s, t, step)
  {
    match step
    case LoadWord => s.(acquirers := s.acquirers[t := s.word])
    case TryAcquire(spurious) =>
      if Closed(s.acquirers[t]) then s.(acquirers := s.acquirers - {t})
      else if s.word != s.acquirers[t] || spurious then s.(acquirers := s.acquirers[t := s.word])
      else s.(word := s.word + 1, acquirers := s.acquirers - {t},
              leases := s.leases + {s.issued}, issued := s.issued + 1,
              overflowed := s.overflowed || s.word + 1 == CLOSED_BIT)
  }

  predicate ReleaseCan(s: Gate, t: nat, step: ReleaseStep) {
    match step
    case BeginRelease => t in s.leases && t !in s.releases
    case LoadForRelease => t in s.releases && s.releases[t].Loading?
    case TryRelease(_) => t in s.releases && s.releases[t].Seen?
    case Lock => t in s.releases && s.releases[t].Locking? && s.mutex.Nobody?
    case Subtract => t in s.releases && s.releases[t].Subtracting?
    case Notify => t in s.releases && s.releases[t].Notifying?
    case Unlock => t in s.releases && s.releases[t].Unlocking?
  }

  function WakeAll(stops: map<nat, Stop>): map<nat, Stop> {
    map t | t in stops :: if stops[t].Waiting? then Relocking else stops[t]
  }

  function Less(word: nat): nat {
    if word == 0 then 2 * CLOSED_BIT - 1 else word - 1
  }

  function ReleaseDoes(s: Gate, t: nat, step: ReleaseStep): Gate
    requires ReleaseCan(s, t, step)
  {
    match step
    case BeginRelease => s.(releases := s.releases[t := Loading])
    case LoadForRelease => s.(releases := s.releases[t := Seen(s.word)])
    case TryRelease(spurious) =>
      if Closed(s.releases[t].word) then s.(releases := s.releases[t := Locking])
      else if s.word != s.releases[t].word || spurious then s.(releases := s.releases[t := Seen(s.word)])
      else s.(word := Less(s.word), releases := s.releases - {t}, leases := s.leases - {t})
    case Lock => s.(mutex := Releaser(t), releases := s.releases[t := Subtracting])
    case Subtract =>
      s.(word := Less(s.word), leases := s.leases - {t},
         releases := s.releases[t := if s.word == CLOSED_BIT + 1 then Notifying else Unlocking])
    case Notify => s.(stops := WakeAll(s.stops), releases := s.releases[t := Unlocking])
    case Unlock => s.(mutex := Nobody, releases := s.releases - {t})
  }

  predicate StopCan(s: Gate, t: nat, step: StopStep) {
    match step
    case CallStop => t !in s.stops
    case LockStop => t in s.stops && (s.stops[t].Entering? || s.stops[t].Relocking?) && s.mutex.Nobody?
    case Close => t in s.stops && s.stops[t].Closing?
    case Check(_) => t in s.stops && s.stops[t].Checking?
    case WakeUp => t in s.stops && s.stops[t].Waiting?
  }

  function StopDoes(s: Gate, t: nat, step: StopStep): Gate
    requires StopCan(s, t, step)
  {
    match step
    case CallStop => s.(stops := s.stops[t := Entering])
    case LockStop =>
      s.(mutex := Stopper(t), stops := s.stops[t := if s.stops[t].Entering? then Closing else Checking])
    case Close =>
      s.(word := if Closed(s.word) then s.word else s.word + CLOSED_BIT, stops := s.stops[t := Checking])
    case Check(timeout) =>
      s.(mutex := Nobody,
         stops := s.stops[t := if s.word == CLOSED_BIT then Drained else if timeout then TimedOut else Waiting])
    case WakeUp => s.(stops := s.stops[t := Relocking])
  }

  predicate Enabled(s: Gate, step: Step) {
    match step
    case Acquire(t, a) => AcquireCan(s, t, a)
    case Give(t, g) => ReleaseCan(s, t, g)
    case Halt(t, h) => StopCan(s, t, h)
  }

  function Do(s: Gate, step: Step): Gate
    requires Enabled(s, step)
  {
    match step
    case Acquire(t, a) => AcquireDoes(s, t, a)
    case Give(t, g) => ReleaseDoes(s, t, g)
    case Halt(t, h) => StopDoes(s, t, h)
  }

  function Run(steps: seq<Step>): Option<Gate> {
    if steps == [] then Some(INITIAL) else
    var before, step := Run(steps[..|steps| - 1]), steps[|steps| - 1];
    if before.Some? && Enabled(before.value, step) then Some(Do(before.value, step)) else None
  }

  // ---------------------------------------------------------------- what every step keeps

  /** The count bits are the leases. */
  ghost predicate Counted(s: Gate) {
    && (forall i | i in s.leases :: i < s.issued)
    && s.word == |s.leases| + (if Closed(s.word) then CLOSED_BIT else 0)
    && |s.leases| < CLOSED_BIT
  }

  predicate Holds(r: Release) {
    r.Subtracting? || r.Notifying? || r.Unlocking?
  }

  predicate HoldsStop(p: Stop) {
    p.Closing? || p.Checking?
  }

  /** A release that has not subtracted still has its lease; one inside the mutex holds it, and the gate is closed. */
  ghost predicate ReleasesSound(s: Gate) {
    && (forall t | t in s.releases && !s.releases[t].Notifying? && !s.releases[t].Unlocking? :: t in s.leases)
    && (forall t | t in s.releases && (s.releases[t].Notifying? || s.releases[t].Unlocking?) :: t !in s.leases)
    && (forall t | t in s.releases && Holds(s.releases[t]) :: s.mutex == Releaser(t))
    && (forall t | t in s.releases && s.releases[t].Seen? && Closed(s.releases[t].word) :: Closed(s.word))
    && (forall t | t in s.releases && (s.releases[t].Locking? || Holds(s.releases[t])) :: Closed(s.word))
    && (s.mutex.Releaser? ==> s.mutex.lease in s.releases && Holds(s.releases[s.mutex.lease]))
  }

  ghost predicate StopsSound(s: Gate) {
    && (forall t | t in s.stops && HoldsStop(s.stops[t]) :: s.mutex == Stopper(t))
    && (forall t | t in s.stops && !s.stops[t].Entering? && !s.stops[t].Closing? :: Closed(s.word))
    && (forall t | t in s.stops && s.stops[t].Drained? :: s.leases == {} && s.releases == map[])
    && (s.mutex.Stopper? ==> s.mutex.call in s.stops && HoldsStop(s.stops[s.mutex.call]))
  }

  /** While somebody waits for the last lease, there is one, or its releaser is about to notify. */
  ghost predicate Woken(s: Gate) {
    forall t | t in s.stops && s.stops[t].Waiting? ::
      s.leases != {} || (s.mutex.Releaser? && s.mutex.lease in s.releases && s.releases[s.mutex.lease].Notifying?)
  }

  ghost predicate Inv(s: Gate) {
    Counted(s) && ReleasesSound(s) && StopsSound(s) && Woken(s)
  }

  lemma OneLess(leases: set<nat>, t: nat)
    requires t in leases
    ensures |leases - {t}| == |leases| - 1
  {
  }

  lemma AcquirersDoNotMatter(s: Gate, acquirers: map<nat, nat>)
    requires Inv(s)
    ensures Inv(s.(acquirers := acquirers))
  {
  }

  lemma IssueKeeps(s: Gate)
    requires Inv(s) && !Closed(s.word) && s.word + 1 != CLOSED_BIT
    ensures Inv(s.(word := s.word + 1, leases := s.leases + {s.issued}, issued := s.issued + 1))
  {
  }

  lemma AcquireKeeps(s: Gate, t: nat, step: AcquireStep)
    requires Inv(s) && AcquireCan(s, t, step) && !AcquireDoes(s, t, step).overflowed
    ensures Inv(AcquireDoes(s, t, step))
  {
    hide Inv;
    var r := AcquireDoes(s, t, step);
    if r.issued != s.issued {
      IssueKeeps(s);
      var issuing := s.(word := s.word + 1, leases := s.leases + {s.issued}, issued := s.issued + 1);
      AcquirersDoNotMatter(issuing, r.acquirers);
    } else {
      AcquirersDoNotMatter(s, r.acquirers);
    }
  }

  /** A release in an open gate: nobody waits and nobody is inside the mutex. */
  lemma OpenReleaseKeeps(s: Gate, t: nat)
    requires Inv(s) && t in s.releases && s.releases[t].Seen? && !Closed(s.word)
    ensures Inv(s.(word := Less(s.word), releases := s.releases - {t}, leases := s.leases - {t}))
  {
    OneLess(s.leases, t);
  }

  lemma TryReleaseKeeps(s: Gate, t: nat, spurious: bool)
    requires Inv(s) && ReleaseCan(s, t, TryRelease(spurious))
    ensures Inv(ReleaseDoes(s, t, TryRelease(spurious)))
  {
    if !Closed(s.releases[t].word) && s.word == s.releases[t].word && !spurious {
      hide Inv;
      OpenReleaseKeeps(s, t);
    } else {
      RetryKeeps(s, t, if Closed(s.releases[t].word) then Locking else Seen(s.word));
    }
  }

  lemma RetryKeeps(s: Gate, t: nat, next: Release)
    requires Inv(s) && t in s.releases && s.releases[t].Seen?
    requires next == Seen(s.word) || (next == Locking && Closed(s.word))
    ensures Inv(s.(releases := s.releases[t := next]))
  {
  }

  lemma SubtractKeeps(s: Gate, t: nat)
    requires Inv(s) && ReleaseCan(s, t, Subtract)
    ensures Inv(ReleaseDoes(s, t, Subtract))
  {
    OneLess(s.leases, t);
    assert s.word == CLOSED_BIT + 1 <==> |s.leases - {t}| == 0;
  }

  lemma EnterKeeps(s: Gate, t: nat, step: ReleaseStep)
    requires Inv(s) && ReleaseCan(s, t, step) && (step.BeginRelease? || step.LoadForRelease?)
    ensures Inv(ReleaseDoes(s, t, step))
  {
    var r := ReleaseDoes(s, t, step);
    assert r == s.(releases := s.releases[t := if step.BeginRelease? then Loading else Seen(s.word)]);
    hide ReleaseDoes, ReleaseCan;
  }

  lemma LockKeeps(s: Gate, t: nat)
    requires Inv(s) && ReleaseCan(s, t, Lock)
    ensures Inv(ReleaseDoes(s, t, Lock))
  {
  }

  lemma NotifyKeeps(s: Gate, t: nat)
    requires Inv(s) && ReleaseCan(s, t, Notify)
    ensures Inv(ReleaseDoes(s, t, Notify))
  {
  }

  lemma UnlockKeeps(s: Gate, t: nat)
    requires Inv(s) && ReleaseCan(s, t, Unlock)
    ensures Inv(ReleaseDoes(s, t, Unlock))
  {
  }

  lemma ReleaseKeeps(s: Gate, t: nat, step: ReleaseStep)
    requires Inv(s) && ReleaseCan(s, t, step)
    ensures Inv(ReleaseDoes(s, t, step))
  {
    hide Inv, ReleaseCan, ReleaseDoes;
    match step
    case BeginRelease => EnterKeeps(s, t, step);
    case LoadForRelease => EnterKeeps(s, t, step);
    case TryRelease(spurious) => TryReleaseKeeps(s, t, spurious);
    case Lock => LockKeeps(s, t);
    case Subtract => SubtractKeeps(s, t);
    case Notify => NotifyKeeps(s, t);
    case Unlock => UnlockKeeps(s, t);
  }

  lemma StopKeeps(s: Gate, t: nat, step: StopStep)
    requires Inv(s) && StopCan(s, t, step)
    ensures Inv(StopDoes(s, t, step))
  {
    if step.Check? && s.word == CLOSED_BIT {
      assert forall u :: u !in s.releases;
    }
  }

  lemma StepKeeps(s: Gate, step: Step)
    requires Inv(s) && Enabled(s, step) && !Do(s, step).overflowed
    ensures Inv(Do(s, step))
  {
    hide Inv;
    match step
    case Acquire(t, a) => AcquireKeeps(s, t, a);
    case Give(t, g) => ReleaseKeeps(s, t, g);
    case Halt(t, h) => StopKeeps(s, t, h);
  }

  /** Overflow is never forgotten. */
  lemma OverflowStays(s: Gate, step: Step)
    requires Enabled(s, step) && s.overflowed
    ensures Do(s, step).overflowed
  {
  }

  lemma InitiallyHolds()
    ensures Inv(INITIAL)
  {
  }

  lemma {:induction false} RunKeeps(steps: seq<Step>)
    requires Run(steps).Some? && !Run(steps).value.overflowed
    ensures Inv(Run(steps).value)
  {
    hide Inv, Do, Enabled;
    if steps == [] {
      InitiallyHolds();
    } else {
      var before, last := steps[..|steps| - 1], steps[|steps| - 1];
      if Run(before).value.overflowed { OverflowStays(Run(before).value, last); }
      RunKeeps(before);
      StepKeeps(Run(before).value, last);
    }
  }

  // ---------------------------------------------------------------- main results

  /** The count bits of the word are n modulo their range. */
  predicate BitsMatch(word: nat, n: nat) {
    word < 2 * CLOSED_BIT && word % CLOSED_BIT == n % CLOSED_BIT
  }

  /** Every release that has not subtracted yet has its lease, and the count bits are the leases modulo their range. */
  ghost predicate BitsSound(s: Gate) {
    && (forall i | i in s.leases :: i < s.issued)
    && (forall t | t in s.releases && !s.releases[t].Notifying? && !s.releases[t].Unlocking? :: t in s.leases)
    && BitsMatch(s.word, |s.leases|)
  }

  lemma OneUp(word: nat, n: nat)
    requires BitsMatch(word, n) && !Closed(word)
    ensures BitsMatch(word + 1, n + 1)
  {
  }

  lemma OneDown(word: nat, n: nat)
    requires BitsMatch(word, n) && n > 0
    ensures BitsMatch(Less(word), n - 1)
  {
  }

  lemma ClosingKeepsBits(word: nat, n: nat)
    requires BitsMatch(word, n) && !Closed(word)
    ensures BitsMatch(word + CLOSED_BIT, n)
  {
  }

  lemma BitsKeptByIssue(s: Gate)
    requires BitsSound(s) && !Closed(s.word)
    ensures BitsSound(s.(word := s.word + 1, leases := s.leases + {s.issued}, issued := s.issued + 1))
  {
    OneUp(s.word, |s.leases|);
    hide BitsMatch;
    assert s.issued !in s.leases;
  }

  lemma BitsKeptByAcquire(s: Gate, t: nat, step: AcquireStep)
    requires BitsSound(s) && AcquireCan(s, t, step)
    ensures BitsSound(AcquireDoes(s, t, step))
  {
    var r := AcquireDoes(s, t, step);
    if r.issued != s.issued {
      BitsKeptByIssue(s);
      assert r.releases == s.releases;
    } else {
      assert r.word == s.word && r.leases == s.leases && r.releases == s.releases;
    }
    hide BitsMatch, AcquireDoes;
  }

  /** A lease is given back. */
  lemma BitsKeptByReturn(s: Gate, t: nat, releases: map<nat, Release>)
    requires BitsSound(s) && t in s.leases
    requires forall u | u in releases && !releases[u].Notifying? && !releases[u].Unlocking? :: u in s.leases && u != t
    ensures BitsSound(s.(word := Less(s.word), leases := s.leases - {t}, releases := releases))
  {
    hide BitsMatch, Less;
    OneLess(s.leases, t);
    OneDown(s.word, |s.leases|);
  }

  lemma BitsKeptByRelease(s: Gate, t: nat, step: ReleaseStep)
    requires BitsSound(s) && ReleaseCan(s, t, step)
    ensures BitsSound(ReleaseDoes(s, t, step))
  {
    hide WakeAll, BitsMatch, Less;
    var r := ReleaseDoes(s, t, step);
    if r.leases != s.leases { BitsKeptByReturn(s, t, r.releases); }
  }

  lemma BitsKeptByStop(s: Gate, t: nat, step: StopStep)
    requires BitsSound(s) && StopCan(s, t, step)
    ensures BitsSound(StopDoes(s, t, step))
  {
    if !Closed(s.word) { ClosingKeepsBits(s.word, |s.leases|); }
    hide BitsMatch, Closed;
  }

  lemma {:induction false} BitsOfEveryRun(steps: seq<Step>)
    requires Run(steps).Some?
    ensures BitsSound(Run(steps).value)
  {
    if steps != [] {
      hide BitsSound, AcquireCan, AcquireDoes, ReleaseCan, ReleaseDoes, StopCan, StopDoes;
      var before, last := steps[..|steps| - 1], steps[|steps| - 1];
      BitsOfEveryRun(before);
      match last
      case Acquire(t, a) => BitsKeptByAcquire(Run(before).value, t, a);
      case Give(t, g) => BitsKeptByRelease(Run(before).value, t, g);
      case Halt(t, h) => BitsKeptByStop(Run(before).value, t, h);
    }
  }

  lemma FewEnough(word: nat, n: nat)
    requires BitsMatch(word, n)
    ensures word % CLOSED_BIT == n <==> n < CLOSED_BIT
  {
  }

  /** In every run the count bits are the outstanding leases if and only if these are fewer than 2^63. */
  lemma CountIsLeasesIff(steps: seq<Step>)
    requires Run(steps).Some?
    ensures var s := Run(steps).value; s.word % CLOSED_BIT == |s.leases| <==> |s.leases| < CLOSED_BIT
  {
    hide Run, BitsMatch;
    BitsOfEveryRun(steps);
    FewEnough(Run(steps).value.word, |Run(steps).value.leases|);
  }

  /** As long as there were never 2^63 leases at a time, the rest of the word is the closed bit. */
  lemma WordIsCountAndBit(steps: seq<Step>)
    requires Run(steps).Some? && !Run(steps).value.overflowed
    ensures var s := Run(steps).value;
            |s.leases| < CLOSED_BIT && s.word == |s.leases| + if Closed(s.word) then CLOSED_BIT else 0
  {
    RunKeeps(steps);
  }

  lemma ClosedToAcquirers(s: Gate, t: nat, step: AcquireStep)
    requires !s.overflowed && Closed(s.word) && AcquireCan(s, t, step)
    ensures var r := AcquireDoes(s, t, step); Closed(r.word) && r.leases == s.leases && !r.overflowed
  {
  }

  lemma ClosedToReleasers(s: Gate, t: nat, step: ReleaseStep)
    requires Inv(s) && !s.overflowed && Closed(s.word) && ReleaseCan(s, t, step)
    ensures var r := ReleaseDoes(s, t, step);
            && Closed(r.word) && r.leases <= s.leases && !r.overflowed
            && (r.leases != s.leases ==> s.mutex == Releaser(t))
  {
    assert step.Subtract? || step.TryRelease? ==> t in s.leases && |s.leases| > 0;
    hide StopsSound, Woken, WakeAll;
  }

  lemma ClosedToStops(s: Gate, t: nat, step: StopStep)
    requires !s.overflowed && Closed(s.word) && StopCan(s, t, step)
    ensures var r := StopDoes(s, t, step); Closed(r.word) && r.leases == s.leases && !r.overflowed
  {
  }

  /** A closed gate stays closed and gives out no lease; leases are given back under the mutex of stop() only. */
  lemma NothingAcquiredAfterClose(steps: seq<Step>, step: Step)
    requires Run(steps).Some? && !Run(steps).value.overflowed && Closed(Run(steps).value.word)
    requires Enabled(Run(steps).value, step)
    ensures var r := Do(Run(steps).value, step);
            && Closed(r.word) && r.leases <= Run(steps).value.leases && !r.overflowed
            && (r.leases != Run(steps).value.leases ==> step.Give? && Run(steps).value.mutex == Releaser(step.lease))
  {
    RunKeeps(steps);
    var s := Run(steps).value;
    hide Run, Inv, AcquireDoes, ReleaseDoes, StopDoes, AcquireCan, ReleaseCan, StopCan;
    match step
    case Acquire(t, a) => ClosedToAcquirers(s, t, a);
    case Give(t, g) => ClosedToReleasers(s, t, g);
    case Halt(t, h) => ClosedToStops(s, t, h);
  }

  /** stop() returns normally only when no lease is left, and then nobody is still busy with the gate. */
  lemma DrainedMeansIdle(steps: seq<Step>, t: nat)
    requires Run(steps).Some? && !Run(steps).value.overflowed
    requires t in Run(steps).value.stops && Run(steps).value.stops[t].Drained?
    ensures var s := Run(steps).value; s.leases == {} && s.releases == map[] && s.word == CLOSED_BIT
  {
    RunKeeps(steps);
  }

  /** The check that lets stop() return is met with no lease left if and only if there are fewer than 2^63 leases. */
  lemma DrainCheckIff(steps: seq<Step>)
    requires Run(steps).Some? && Run(steps).value.word == CLOSED_BIT
    ensures Run(steps).value.leases == {} <==> |Run(steps).value.leases| < CLOSED_BIT
  {
    BitsOfEveryRun(steps);
    SmallMultiple(|Run(steps).value.leases|);
    hide Run;
  }

  lemma SmallMultiple(n: nat)
    requires n % CLOSED_BIT == 0
    ensures n < CLOSED_BIT ==> n == 0
  {
  }

  /** A waiting stop() is not left behind: there still is a lease, or its releaser holds the mutex and will notify. */
  lemma NoMissedWakeUp(steps: seq<Step>, t: nat)
    requires Run(steps).Some? && !Run(steps).value.overflowed
    requires t in Run(steps).value.stops && Run(steps).value.stops[t].Waiting?
    ensures var s := Run(steps).value;
            s.leases != {} || (exists u :: u in s.releases && s.releases[u].Notifying? && s.mutex == Releaser(u))
  {
    RunKeeps(steps);
  }

  /** At some point of the run there were 2^63 leases at a time. */
  ghost predicate EverFull(steps: seq<Step>) {
    exists n :: 0 <= n <= |steps| && FullAt(steps[..n])
  }

  ghost predicate FullAt(steps: seq<Step>) {
    Run(steps).Some? && |Run(steps).value.leases| >= CLOSED_BIT
  }

  /** What the history flag means: there were 2^63 leases at a time. */
  lemma {:induction false} OverflowedMeansFull(steps: seq<Step>)
    requires Run(steps).Some?
    ensures Run(steps).value.overflowed <==> EverFull(steps)
  {
    if Run(steps).value.overflowed {
      WasFull(steps);
    }
    if EverFull(steps) {
      var n :| 0 <= n <= |steps| && FullAt(steps[..n]);
      if !Run(steps[..n]).value.overflowed { RunKeeps(steps[..n]); }
      StaysOverflowed(steps, n);
    }
  }

  lemma {:induction false} StaysOverflowed(steps: seq<Step>, n: nat)
    requires n <= |steps| && Run(steps).Some? && Run(steps[..n]).Some? && Run(steps[..n]).value.overflowed
    ensures Run(steps).value.overflowed
    decreases |steps|
  {
    if n == |steps| {
      assert steps[..n] == steps;
    } else {
      var before := steps[..|steps| - 1];
      assert before[..n] == steps[..n];
      hide Do, Enabled;
      StaysOverflowed(before, n);
      OverflowStays(Run(before).value, steps[|steps| - 1]);
    }
  }

  lemma {:induction false} WasFull(steps: seq<Step>)
    requires Run(steps).Some? && Run(steps).value.overflowed
    ensures EverFull(steps)
  {
    assert steps != [];
    var before, last := steps[..|steps| - 1], steps[|steps| - 1];
    var s := Run(before).value;
    if s.overflowed {
      WasFull(before);
      var n :| 0 <= n <= |before| && FullAt(before[..n]);
      assert before[..n] == steps[..n];
    } else {
      if last.Acquire? {
        RunKeeps(before);
        AcquireOverflows(s, last.call, last.a);
      } else {
        OthersDoNotOverflow(s, last);
      }
      assert steps[..|steps|] == steps && FullAt(steps[..|steps|]);
    }
  }

  lemma OthersDoNotOverflow(s: Gate, step: Step)
    requires !s.overflowed && Enabled(s, step) && !step.Acquire?
    ensures !Do(s, step).overflowed
  {
    hide WakeAll;
  }

  lemma AcquireOverflows(s: Gate, t: nat, a: AcquireStep)
    requires Counted(s) && !s.overflowed && AcquireCan(s, t, a) && AcquireDoes(s, t, a).overflowed
    ensures AcquireDoes(s, t, a).word == CLOSED_BIT == |AcquireDoes(s, t, a).leases|
  {
    assert s.issued !in s.leases;
    assert AcquireDoes(s, t, a).leases == s.leases + {s.issued};
  }

  lemma Then(steps: seq<Step>, step: Step)
    requires Run(steps).Some? && Enabled(Run(steps).value, step)
    ensures Run(steps + [step]) == Some(Do(Run(steps).value, step))
  {
    assert (steps + [step])[..|steps|] == steps;
  }

  /** Nothing limits the number of leases: any number can be acquired, one after the other. */
  lemma {:induction false} ManyAcquired(n: nat) returns (steps: seq<Step>)
    requires n <= CLOSED_BIT
    ensures Run(steps).Some?
    ensures var s := Run(steps).value;
            s.word == n == |s.leases| == s.issued && s.acquirers == map[] && (forall i | i in s.leases :: i < n)
            && s.overflowed == (n == CLOSED_BIT) && s.stops == map[]
  {
    steps := [];
    if n > 0 {
      steps := ManyAcquired(n - 1);
      hide Run;
      Then(steps, Acquire(0, LoadWord));
      steps := steps + [Acquire(0, LoadWord)];
      Then(steps, Acquire(0, TryAcquire(false)));
      steps := steps + [Acquire(0, TryAcquire(false))];
    }
  }

  /** The lease that makes the count overflow closes the gate although nobody has called stop(). */
  lemma OverflowClosesGate() returns (steps: seq<Step>)
    ensures Run(steps).Some? && Closed(Run(steps).value.word) && Run(steps).value.stops == map[]
    ensures Run(steps).value.word % CLOSED_BIT != |Run(steps).value.leases|
  {
    steps := ManyAcquired(CLOSED_BIT);
  }
}
