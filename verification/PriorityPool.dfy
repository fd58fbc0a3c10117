/**
 The queue of the priority task pool: one heap of waiting tasks by priority and arrival, one heap of the deadlines
 that are still watched. A cancelled or overdue task gets the most urgent priority; like in the FIFO pool, overdue
 tasks are only looked for when the lock is held anyway.
 */
module PriorityPools {
  import opened Options
  import opened IndexedHeaps

  const INT_MIN := -0x8000_0000
  const INT_MAX := 0x7fff_ffff
  type int32 = n: int | INT_MIN <= n <= INT_MAX

  /** A task as it was submitted, with its place in the order of submissions. */
  datatype Job = Job(priority: int32, sequence: nat, deadline: Option<int>)

  /** The rank a waiting task deserves: urgent ones first, then by priority, then first come first served. */
  function Deserved(job: Job, urgent: bool): Rank {
    Rank(if urgent then INT_MIN else job.priority, job.sequence)
  }

  /**
   The waiting tasks, those of them that were cancelled and that were expedited, and what the two heaps hold:
   the rank of every waiting task and the deadlines that are watched.
   */
  datatype Waiting<T> = Waiting(jobs: map<T, Job>, cancelled: set<T>, expedited: set<T>,
                                ready: map<T, Rank>, watched: map<T, Rank>, nextSequence: nat)

  /** Cancelled, or its deadline has passed. */
  ghost predicate Urgent<T>(w: Waiting<T>, t: T, now: int)
    requires t in w.jobs
  {
    t in w.cancelled || (w.jobs[t].deadline.Some? && w.jobs[t].deadline.value <= now)
  }

  ghost predicate Watches<T>(w: Waiting<T>, t: T)
    requires t in w.jobs
  {
    t !in w.expedited && w.jobs[t].deadline.Some?
  }

  /** Both heaps fit the waiting tasks: the deadline heap holds exactly the unexpedited tasks with a deadline. */
  ghost predicate HeapsFit<T>(w: Waiting<T>) {
    && w.ready.Keys == w.jobs.Keys
    && (forall t | t in w.jobs :: w.ready[t] == Deserved(w.jobs[t], t in w.expedited))
    && (forall t | t in w.watched :: t in w.jobs && Watches(w, t))
    && (forall t | t in w.watched :: w.watched[t] == Rank(w.jobs[t].deadline.value, 0))
    && (forall t | t in w.jobs && Watches(w, t) :: t in w.watched)
  }

  ghost predicate SequencesDistinct<T>(w: Waiting<T>) {
    && (forall t | t in w.jobs :: w.jobs[t].sequence < w.nextSequence)
    && (forall t, u | t in w.jobs && u in w.jobs && t != u :: w.jobs[t].sequence != w.jobs[u].sequence)
  }

  /** Everything urgent at time `from` was expedited, and nothing that is not urgent at time `upto`. */
  ghost predicate Current<T>(w: Waiting<T>, from: int, upto: int) {
    && HeapsFit(w) && SequencesDistinct(w)
    && (forall t | t in w.expedited :: t in w.jobs)
    && (forall t | t in w.cancelled :: t in w.jobs)
    && (forall t | t in w.jobs && Urgent(w, t, from) :: t in w.expedited)
    && (forall t | t in w.jobs && t in w.expedited :: Urgent(w, t, upto))
  }

  ghost function Submit<T>(w: Waiting<T>, t: T, job: Job): Waiting<T> {
    w.(jobs := w.jobs[t := job],
       ready := w.ready[t := Deserved(job, false)],
       watched := if job.deadline.Some? then w.watched[t := Rank(job.deadline.value, 0)] else w.watched,
       nextSequence := w.nextSequence + 1)
  }

  ghost function Expedite<T>(w: Waiting<T>, t: T): Waiting<T>
    requires t in w.ready
  {
    w.(expedited := w.expedited + {t}, watched := w.watched - {t},
       ready := w.ready[t := Rank(INT_MIN, w.ready[t].minor)])
  }

  ghost function Take<T>(w: Waiting<T>, t: T): Waiting<T> {
    Waiting(w.jobs - {t}, w.cancelled - {t}, w.expedited - {t}, w.ready - {t}, w.watched - {t}, w.nextSequence)
  }

  lemma SubmitFits<T>(w: Waiting<T>, t: T, job: Job)
    requires HeapsFit(w) && t !in w.jobs && t !in w.expedited
    ensures HeapsFit(Submit(w, t, job)) && t !in w.ready && t !in w.watched
  {
    var r := Submit(w, t, job);
    assert forall u | u in w.jobs :: Watches(r, u) == Watches(w, u);
  }

  lemma SubmitSequences<T>(w: Waiting<T>, t: T, job: Job)
    requires SequencesDistinct(w) && job.sequence == w.nextSequence
    ensures SequencesDistinct(Submit(w, t, job))
  {
  }

  lemma SubmitCurrent<T>(w: Waiting<T>, t: T, job: Job, clock: int)
    requires Current(w, clock, clock) && t !in w.jobs && job.sequence == w.nextSequence
    requires job.deadline.Some? ==> clock < job.deadline.value
    ensures Current(Submit(w, t, job), clock, clock)
    ensures t !in w.ready && t !in w.watched
  {
    hide HeapsFit, SequencesDistinct;
    SubmitFits(w, t, job);
    SubmitSequences(w, t, job);
    var r := Submit(w, t, job);
    assert forall u | u in w.jobs :: Urgent(r, u, clock) == Urgent(w, u, clock);
  }

  lemma ExpediteFits<T>(w: Waiting<T>, t: T)
    requires HeapsFit(w) && t in w.jobs && t !in w.expedited
    ensures HeapsFit(Expedite(w, t))
    ensures w.ready[t] == Deserved(w.jobs[t], false) && !Before(w.ready[t], Rank(INT_MIN, w.ready[t].minor))
  {
    var r := Expedite(w, t);
    assert forall u | u in w.jobs && u != t :: Watches(r, u) == Watches(w, u);
  }

  lemma ExpediteCurrent<T>(w: Waiting<T>, t: T, from: int, upto: int)
    requires Current(w, from, upto) && t in w.jobs && t !in w.expedited && Urgent(w, t, upto)
    ensures t in w.ready && Current(Expedite(w, t), from, upto)
  {
    ExpediteFits(w, t);
    hide HeapsFit;
    var r := Expedite(w, t);
    assert forall u | u in w.jobs ::
        Urgent(r, u, from) == Urgent(w, u, from) && Urgent(r, u, upto) == Urgent(w, u, upto);
  }

  lemma OverdueCurrent<T>(w: Waiting<T>, t: T, from: int, now: int)
    requires Current(w, from, now) && t in w.watched && w.watched[t].major <= now
    ensures w.ready.Keys == w.jobs.Keys && t in w.jobs && t !in w.expedited && w.ready[t] == Deserved(w.jobs[t], false)
    ensures Current(Expedite(w, t), from, now)
  {
    ExpediteCurrent(w, t, from, now);
  }

  lemma TakeCurrent<T>(w: Waiting<T>, t: T, clock: int)
    requires Current(w, clock, clock)
    ensures Current(Take(w, t), clock, clock)
  {
    var r := Take(w, t);
    assert forall u | u in r.jobs :: Watches(r, u) == Watches(w, u) && Urgent(r, u, clock) == Urgent(w, u, clock);
  }

  /** What a cancellation makes of the waiting tasks. */
  ghost function Cancelled<T>(w: Waiting<T>, t: T): Waiting<T>
    requires w.ready.Keys == w.jobs.Keys
  {
    if t !in w.jobs then w
    else if t in w.expedited then w.(cancelled := w.cancelled + {t})
    else Expedite(w, t).(cancelled := w.cancelled + {t})
  }

  lemma CancelFits<T>(w: Waiting<T>, t: T)
    requires HeapsFit(w)
    ensures HeapsFit(Cancelled(w, t))
    ensures t in w.jobs && t !in w.expedited ==> w.ready[t] == Deserved(w.jobs[t], false)
  {
    if t in w.jobs && t !in w.expedited {
      ExpediteFits(w, t);
    }
    var q := if t in w.jobs && t !in w.expedited then Expedite(w, t) else w;
    assert forall u | u in q.jobs :: Watches(Cancelled(w, t), u) == Watches(q, u);
  }

  lemma CancelCurrent<T>(w: Waiting<T>, t: T, clock: int)
    requires Current(w, clock, clock)
    ensures w.ready.Keys == w.jobs.Keys && Current(Cancelled(w, t), clock, clock)
    ensures t in w.jobs && t !in w.expedited ==> w.ready[t] == Deserved(w.jobs[t], false)
  {
    CancelFits(w, t);
    hide HeapsFit;
    var r := Cancelled(w, t);
    assert forall u | u in w.jobs && u != t :: Urgent(r, u, clock) == Urgent(w, u, clock);
  }

  /** Once nothing watched is overdue, the expedited tasks are the urgent ones. */
  lemma NothingOverdue<T>(w: Waiting<T>, from: int, now: int)
    requires Current(w, from, now) && from <= now
    requires forall t | t in w.watched :: now < w.watched[t].major
    ensures Current(w, now, now)
  {
    forall t | t in w.jobs && Urgent(w, t, now)
      ensures t in w.expedited
    {
      assert t in w.cancelled ==> Urgent(w, t, from);
      assert t !in w.expedited && w.jobs[t].deadline.Some? ==> Watches(w, t);
    }
  }

  /** The heap ranks every task by what it deserves right now, and no two tasks deserve the same. */
  lemma EffectiveRanks<T>(w: Waiting<T>, now: int)
    requires Current(w, now, now)
    ensures w.ready.Keys == w.jobs.Keys
    ensures forall t | t in w.jobs :: w.ready[t] == Deserved(w.jobs[t], Urgent(w, t, now))
    ensures forall t, u | t in w.jobs && u in w.jobs && t != u :: w.jobs[t].sequence != w.jobs[u].sequence
  {
  }

  class PriorityPool<T(==)> {
    const ready: IndexedHeap<T>
    const deadlines: IndexedHeap<T>
    var expedited: set<T>
    var nextSequence: nat
    ghost var jobs: map<T, Job>     // the waiting tasks
    ghost var cancelled: set<T>     // those of them that were cancelled
    ghost var clock: int            // when overdue tasks were last looked for

    ghost function View(): Waiting<T>
      reads this, ready, deadlines
    {
      Waiting(jobs, cancelled, expedited, ready.rank, deadlines.rank, nextSequence)
    }

    ghost predicate Heaps()
      reads ready, deadlines
    {
      ready != deadlines && ready.Valid() && deadlines.Valid()
    }

    ghost predicate Valid()
      reads this, ready, deadlines
    {
      Heaps() && Current(View(), clock, clock)
    }

    constructor ()
      ensures Valid() && fresh(ready) && fresh(deadlines)
      ensures jobs == map[] && cancelled == {}
    {
      ready := new IndexedHeap<T>();
      deadlines := new IndexedHeap<T>();
      expedited, nextSequence := {}, 0;
      jobs, cancelled, clock := map[], {}, 0;
    }

    /** The locked part of addTask once the pool is known to accept tasks. */
    method AddTask(t: T, priority: int32, deadline: Option<int>, now: int, stopped: bool) returns (accepted: bool)
      requires Valid() && t !in jobs && clock <= now
      modifies this, ready, deadlines
      ensures Valid() && cancelled == old(cancelled) && clock == old(clock)
      ensures accepted <==> !stopped && (deadline.Some? ==> now < deadline.value)
      ensures if accepted
              then
                && jobs == old(jobs)[t := Job(priority, old(nextSequence), deadline)]
                && nextSequence == old(nextSequence) + 1
              else jobs == old(jobs) && nextSequence == old(nextSequence)
    {
      hide Valid;
      if stopped || (deadline.Some? && deadline.value <= now) {
        return false;
      }
      Insert(t, priority, deadline);
      return true;
    }

    method Insert(t: T, priority: int32, deadline: Option<int>)
      requires Valid() && t !in jobs
      requires deadline.Some? ==> clock < deadline.value
      modifies this, ready, deadlines
      ensures Valid() && cancelled == old(cancelled) && clock == old(clock)
      ensures jobs == old(jobs)[t := Job(priority, old(nextSequence), deadline)]
      ensures nextSequence == old(nextSequence) + 1
    {
      hide IndexedHeap.Valid, Current;
      ghost var job := Job(priority, nextSequence, deadline);
      SubmitCurrent(View(), t, job, clock);
      if deadline.Some? {
        deadlines.Push(t, Rank(deadline.value, 0));
      }
      ready.Push(t, Rank(priority, nextSequence));
      jobs := jobs[t := job];
      nextSequence := nextSequence + 1;
      assert View() == Submit(old(View()), t, job);
    }

    /** Gives a waiting task the most urgent priority, once. */
    method ExpediteLocked(t: T) returns (moved: bool)
      requires Heaps() && ready.rank.Keys == jobs.Keys
      requires t in jobs && t !in expedited ==> ready.rank[t] == Deserved(jobs[t], false)
      modifies this`expedited, ready, deadlines
      ensures Heaps()
      ensures moved <==> t in jobs && t !in old(expedited)
      ensures View() == if moved then Expedite(old(View()), t) else old(View())
    {
      if t !in ready.index || t in expedited {
        return false;
      }
      assert t in jobs;
      hide IndexedHeap.Valid;
      expedited := expedited + {t};
      deadlines.Remove(t);
      ready.Raise(t, Rank(INT_MIN, ready.rank[t].minor));
      return true;
    }

    /** Whether the earliest watched deadline has passed. */
    method Due(now: int) returns (due: bool)
      requires deadlines.Valid()
      ensures due ==> deadlines.slots != [] && deadlines.slots[0] in deadlines.rank
                      && deadlines.rank[deadlines.slots[0]].major <= now
      ensures !due ==> forall t | t in deadlines.rank :: now < deadlines.rank[t].major
    {
      assert forall t | t in deadlines.rank :: t in deadlines.index;
      if deadlines.slots != [] {
        deadlines.LeastAtRoot();
      }
      due := deadlines.slots != [] && deadlines.rank[deadlines.slots[0]].major <= now;
    }

    /** Takes the earliest deadline out of its heap and expedites its task. */
    method PromoteFirst(now: int) returns (moved: bool)
      requires Heaps() && Current(View(), clock, now)
      requires deadlines.slots != [] && deadlines.slots[0] in deadlines.rank
      requires deadlines.rank[deadlines.slots[0]].major <= now
      modifies this`expedited, ready, deadlines
      ensures Heaps() && Current(View(), clock, now) && moved
      ensures |deadlines.rank| < old(|deadlines.rank|)
      ensures exists t :: t !in old(expedited) && expedited == old(expedited) + {t}
    {
      hide IndexedHeap.Valid, Current;
      var task := deadlines.slots[0];
      OverdueCurrent(View(), task, clock, now);
      ghost var before := View();
      deadlines.RemoveAt(0);
      moved := ExpediteLocked(task);
      assert View().watched == Expedite(before, task).watched;
      assert before.watched.Keys == View().watched.Keys + {task};
    }

    /** Expedites every task whose deadline has passed. */
    method PromoteExpired(now: int) returns (promoted: nat)
      requires Valid() && clock <= now
      modifies this`expedited, this`clock, ready, deadlines
      ensures Valid() && clock == now
      ensures expedited >= old(expedited) && promoted == |expedited - old(expedited)|
    {
      hide Current, IndexedHeap.Valid;
      promoted := 0;
      Later(View(), clock, now);
      var due := Due(now);
      while due
        invariant Heaps() && Current(View(), clock, now) && clock == old(clock)
        invariant expedited >= old(expedited) && promoted == |expedited - old(expedited)|
        invariant due ==> deadlines.slots != [] && deadlines.slots[0] in deadlines.rank
                          && deadlines.rank[deadlines.slots[0]].major <= now
        invariant !due ==> forall t | t in deadlines.rank :: now < deadlines.rank[t].major
        decreases |deadlines.rank|
      {
        var moved := PromoteFirst(now);
        if moved {
          promoted := promoted + 1;
        }
        due := Due(now);
      }
      NothingOverdue(View(), clock, now);
      clock := now;
    }

    /** An explicit cancellation: deadlines that passed before it come first. */
    method Cancel(t: T, now: int) returns (notify: bool)
      requires Valid() && clock <= now
      modifies this, ready, deadlines
      ensures Valid() && clock == now && jobs == old(jobs) && nextSequence == old(nextSequence)
      ensures cancelled == if t in jobs then old(cancelled) + {t} else old(cancelled)
      ensures notify <==> expedited != old(expedited)
    {
      hide IndexedHeap.Valid, Current;
      var promoted := PromoteExpired(now);
      ghost var w := View();
      CancelCurrent(w, t, clock);
      var moved := ExpediteLocked(t);
      cancelled := if t in jobs then cancelled + {t} else cancelled;
      assert View() == Cancelled(w, t);
      notify := promoted != 0 || moved;
      assert w.expedited - old(expedited) == {} ==> w.expedited == old(expedited);
    }

    method TakeFirst() returns (task: T)
      requires Valid() && jobs != map[]
      modifies this, ready, deadlines
      ensures Heaps() && clock == old(clock)
      ensures task in old(View()).ready && View() == Take(old(View()), task)
      ensures forall u | u in old(View()).ready :: !Before(old(View()).ready[u], old(View()).ready[task])
    {
      hide IndexedHeap.Valid, Current;
      EffectiveRanks(View(), clock);
      ghost var some :| some in jobs;
      ready.Occupied(some);
      task := ready.Pop();
      deadlines.Remove(task);
      expedited := expedited - {task};
      jobs, cancelled := jobs - {task}, cancelled - {task};
    }

    /** The locked part of an executor's turn: the waiting task that deserves it most is handed out. */
    method Dequeue(now: int) returns (task: T)
      requires Valid() && clock <= now && jobs != map[]
      modifies this, ready, deadlines
      ensures Valid() && clock == now && nextSequence == old(nextSequence)
      ensures task in old(jobs) && jobs == old(jobs) - {task} && cancelled == old(cancelled) - {task}
      ensures forall u | u in old(jobs) && u != task ::
                Before(Deserved(old(jobs)[task], Urgent(old(View()), task, now)),
                       Deserved(old(jobs)[u], Urgent(old(View()), u, now)))
    {
      hide IndexedHeap.Valid, Current;
      var promoted := PromoteExpired(now);
      ghost var w := View();
      EffectiveRanks(w, now);
      task := TakeFirst();
      TakeCurrent(w, task, now);
    }
  }

  lemma Later<T>(w: Waiting<T>, from: int, now: int)
    requires Current(w, from, from) && from <= now
    ensures Current(w, from, now)
  {
  }
}
