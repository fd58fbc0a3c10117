/**
 The list of cancelled tasks of the delay pool, as an atomic head pointer and a next pointer in each task.

 Publishers push with a compare-and-exchange loop, the scheduler takes the whole list with one exchange and walks it.
 `stack`, `left` and `drained` are the list that the pointers are meant to be; no step looks at them.
 */
module CancelInbox {
  import opened Collections
  import opened Options

  /** Where a publisher is in its loop: it has seen a head, or has also stored it as its task's next pointer. */
  datatype Publisher = Loading | Seen(head: Option<nat>) | Linked(head: Option<nat>)

  datatype Inbox = Inbox(
    head: Option<nat>, next: map<nat, Option<nat>>,
    published: set<nat>, publishers: map<nat, Publisher>,
    cursor: Option<nat>,
    stack: seq<nat>, left: seq<nat>, drained: seq<nat>)

  const INITIAL := Inbox(None, map[], {}, map[], None, [], [], [])

  datatype Step =
    | Announce(task: nat)
    | Load(task: nat)
    | Link(task: nat)
    | Swing(task: nat, spurious: bool)
    | Exchange
    | Advance

  predicate Enabled(s: Inbox, step: Step) {
    match step
    case Announce(n) => n !in s.publishers
    case Load(n) => n in s.publishers && s.publishers[n].Loading?
    case Link(n) => n in s.publishers && s.publishers[n].Seen?
    case Swing(n, _) => n in s.publishers && s.publishers[n].Linked?
    case Exchange => s.cursor.None?
    case Advance => s.cursor.Some? && s.cursor.value in s.next
  }

  function Do(s: Inbox, step: Step): Inbox
    requires Enabled(s, step)
  {
    match step
    case Announce(n) =>
      if n in s.published then s
      else s.(published := s.published + {n}, publishers := s.publishers[n := Loading])
    case Load(n) => s.(publishers := s.publishers[n := Seen(s.head)])
    case Link(n) =>
      var head := s.publishers[n].head;
      s.(next := s.next[n := head], publishers := s.publishers[n := Linked(head)])
    case Swing(n, spurious) =>
      if s.head == s.publishers[n].head && !spurious then
        s.(head := Some(n), publishers := s.publishers - {n}, stack := [n] + s.stack)
      else s.(publishers := s.publishers[n := Seen(s.head)])
    case Exchange => s.(cursor := s.head, head := None, left := s.stack, stack := [])
    case Advance =>
      var n := s.cursor.value;
      s.(cursor := s.next[n], drained := s.drained + [n], left := if s.left == [] then [] else s.left[1..])
  }

  function Run(steps: seq<Step>): Option<Inbox> {
    if steps == [] then Some(INITIAL) else
    var before, step := Run(steps[..|steps| - 1]), steps[|steps| - 1];
    if before.Some? && Enabled(before.value, step) then Some(Do(before.value, step)) else None
  }

  // ---------------------------------------------------------------- pointers and lists

  /** The pointer leads through exactly these tasks, in this order, to the end. */
  ghost predicate Chain(p: Option<nat>, next: map<nat, Option<nat>>, q: seq<nat>)
    decreases |q|
  {
    if q == [] then p.None?
    else p == Some(q[0]) && q[0] in next && Chain(next[q[0]], next, q[1..])
  }

  lemma {:induction false} ChainUntouched(p: Option<nat>, next: map<nat, Option<nat>>, q: seq<nat>, n: nat,
                                          target: Option<nat>)
    requires Chain(p, next, q) && n !in q
    ensures Chain(p, next[n := target], q)
    decreases |q|
  {
    if q != [] {
      assert q[0] in q && forall m | m in q[1..] :: m in q;
      ChainUntouched(next[q[0]], next, q[1..], n, target);
    }
  }

  ghost predicate LinksSound(s: Inbox) {
    Chain(s.head, s.next, s.stack) && Chain(s.cursor, s.next, s.left)
  }

  /** Nothing is noted twice; a task is still being pushed, waits, is being walked to, or was drained. */
  ghost predicate NotedOnce(s: Inbox) {
    && NoDuplicates(s.drained + s.left + s.stack)
    && (forall n | n in s.publishers :: n in s.published && n !in s.drained && n !in s.left && n !in s.stack)
    && (forall n :: n in s.published <==> n in s.publishers || n in s.drained + s.left + s.stack)
  }

  ghost predicate LinkedSound(s: Inbox) {
    forall n | n in s.publishers && s.publishers[n].Linked? :: n in s.next && s.next[n] == s.publishers[n].head
  }

  ghost predicate Inv(s: Inbox) {
    LinksSound(s) && NotedOnce(s) && LinkedSound(s)
  }

  lemma LinkKeeps(s: Inbox, n: nat)
    requires Inv(s) && Enabled(s, Link(n))
    ensures Inv(Do(s, Link(n)))
  {
    ChainUntouched(s.head, s.next, s.stack, n, s.publishers[n].head);
    ChainUntouched(s.cursor, s.next, s.left, n, s.publishers[n].head);
  }

  lemma InsertedOnce(a: seq<nat>, b: seq<nat>, n: nat)
    requires NoDuplicates(a + b) && n !in a && n !in b
    ensures NoDuplicates(a + ([n] + b))
  {
    var before, after := a + b, a + ([n] + b);
    forall i, j | 0 <= i < j < |after| ensures after[i] != after[j] {
      var i', j' := if i < |a| then i else i - 1, if j < |a| then j else j - 1;
      assert i != |a| ==> after[i] == before[i'];
      assert j != |a| ==> after[j] == before[j'];
      assert i != |a| ==> before[i'] in a || before[i'] in b;
      assert j != |a| ==> before[j'] in a || before[j'] in b;
    }
  }

  lemma SwingKeeps(s: Inbox, n: nat, spurious: bool)
    requires Inv(s) && Enabled(s, Swing(n, spurious))
    ensures Inv(Do(s, Swing(n, spurious)))
  {
    hide NoDuplicates;
    if s.head == s.publishers[n].head && !spurious {
      assert ([n] + s.stack)[1..] == s.stack;
      InsertedOnce(s.drained + s.left, s.stack, n);
    }
  }

  lemma ExchangeKeeps(s: Inbox)
    requires Inv(s) && Enabled(s, Exchange)
    ensures Inv(Do(s, Exchange))
  {
    assert s.left == [];
    assert s.drained + s.left + s.stack == s.drained + s.stack + [];
  }

  lemma AdvanceKeeps(s: Inbox)
    requires Inv(s) && Enabled(s, Advance)
    ensures Inv(Do(s, Advance)) && s.left != [] && s.cursor == Some(s.left[0])
  {
    var r := Do(s, Advance);
    assert r.drained + r.left == s.drained + s.left;
  }

  lemma StepKeeps(s: Inbox, step: Step)
    requires Inv(s) && Enabled(s, step)
    ensures Inv(Do(s, step))
  {
    match step
    case Announce(n) =>
    case Load(n) =>
    case Link(n) => LinkKeeps(s, n);
    case Swing(n, spurious) => SwingKeeps(s, n, spurious);
    case Exchange => ExchangeKeeps(s);
    case Advance => AdvanceKeeps(s);
  }

  lemma InitiallyHolds()
    ensures Inv(INITIAL)
  {
  }

  lemma {:induction false} RunKeeps(steps: seq<Step>)
    requires Run(steps).Some?
    ensures Inv(Run(steps).value)
  {
    hide Inv, Do, Enabled;
    if steps == [] {
      InitiallyHolds();
    } else {
      RunKeeps(steps[..|steps| - 1]);
      StepKeeps(Run(steps[..|steps| - 1]).value, steps[|steps| - 1]);
    }
  }

  // ---------------------------------------------------------------- main results

  /** The pointers are the lists: the walk takes the tasks in the order of the stack and ends when none is left. */
  lemma PointersAreLists(steps: seq<Step>)
    requires Run(steps).Some?
    ensures var s := Run(steps).value;
            && Chain(s.head, s.next, s.stack) && Chain(s.cursor, s.next, s.left)
            && (s.cursor.Some? ==> s.left != [] && s.cursor.value == s.left[0] && Enabled(s, Advance))
            && (s.cursor.None? <==> s.left == [])
  {
    RunKeeps(steps);
  }

  /** Every published task is in the lists exactly once, or its publisher is not through its loop yet. */
  lemma PublishedOnce(steps: seq<Step>, n: nat)
    requires Run(steps).Some?
    ensures var s := Run(steps).value;
            && NoDuplicates(s.drained + s.left + s.stack)
            && (n in s.published && n !in s.publishers <==> n in s.drained + s.left + s.stack)
  {
    RunKeeps(steps);
    var s := Run(steps).value;
    assert n in s.drained + s.left + s.stack <==> n in s.drained || n in s.left || n in s.stack;
  }
}
