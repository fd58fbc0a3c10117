/**
 The queue of the FIFO task pool: the list of waiting tasks and the heap of the deadlines that are still watched.
 Every operation is one section under the pool's mutex; `View` is the queue as `LazyPromotion` sees it.
 */
module TaskQueues {
  import opened Collections
  import opened Options
  import opened IndexedHeaps
  import opened LazyPromotion
  import opened TaskLinks
  import opened TaskLists

  lemma AllButHead<T>(q: seq<T>)
    requires NoDuplicates(q) && q != []
    ensures forall t :: t in q[1..] <==> t in q && t != q[0]
  {
    forall t | t in q && t != q[0] ensures t in q[1..] {
      var i :| 0 <= i < |q| && q[i] == t;
      assert q[1..][i - 1] == t;
    }
  }

  class TaskQueue {
    const list: TaskList
    const deadlineHeap: IndexedHeap<PoolTask>
    ghost var armed: map<PoolTask, int>     // the deadlines that are watched
    ghost var expedited: set<PoolTask>      // the waiting tasks that were moved to the front

    ghost function View(): Pool<PoolTask>
      reads this, list
    {
      Pool(list.queue, armed, expedited)
    }

    /** The heap ranks the watched tasks by their deadlines; they wait and were not moved to the front. */
    ghost predicate HeapSound()
      reads this, list, deadlineHeap
    {
      && deadlineHeap.Valid()
      && deadlineHeap.rank.Keys == armed.Keys
      && (forall t | t in armed :: t.deadline == Some(armed[t]) && deadlineHeap.rank[t] == Rank(armed[t], 0))
      && (forall t | t in armed :: t in list.queue && t !in expedited)
    }

    /** No deadline that should be watched is missing, with the possible exception of one. */
    ghost predicate HeapComplete(except: PoolTask?)
      reads this, list
    {
      forall t | t in list.queue && t != except && t !in expedited && t.deadline.Some? :: t in armed
    }

    ghost predicate FlagsMatch()
      reads this`expedited, list, list.queue`expedited
    {
      && (forall t | t in list.queue :: t.expedited <==> t in expedited)
      && (forall t | t in expedited :: t in list.queue)
    }

    ghost predicate Valid()
      reads this, list, deadlineHeap, list.queue, list.known
    {
      list.Valid() && FlagsMatch() && HeapSound() && HeapComplete(null)
    }

    constructor ()
      ensures Valid() && fresh(list) && fresh(deadlineHeap)
      ensures View() == Pool([], map[], {}) && list.known == {}
    {
      list := new TaskList();
      deadlineHeap := new IndexedHeap<PoolTask>();
      armed, expedited := map[], {};
    }

    /** When no task waits, no deadline is watched. */
    lemma NothingWatchedWhenEmpty()
      requires Valid() && list.queue == []
      ensures deadlineHeap.slots == [] && armed == map[]
    {
      hide IndexedHeap.Valid;
      assert armed.Keys == {};
      if deadlineHeap.slots != [] { deadlineHeap.RootIsRanked(); }
    }

    /** The locked part of addTask once the pool is known to accept tasks. */
    method Add(task: PoolTask, now: int, cancelled: bool) returns (accepted: bool)
      requires Valid()
      requires task !in list.known && task.Unlinked()
      modifies this, list, deadlineHeap, task, list.known
      ensures Valid()
      ensures accepted <==> !cancelled && (task.deadline.Some? ==> now < task.deadline.value)
      ensures list.known == if accepted then old(list.known) + {task} else old(list.known)
      ensures View() == if accepted then Append(old(View()), task, task.deadline) else old(View())
    {
      if cancelled || (task.deadline.Some? && task.deadline.value <= now) {
        return false;
      }
      if task.deadline.Some? {
        deadlineHeap.Push(task, Rank(task.deadline.value, 0));
        armed := armed[task := task.deadline.value];
      }
      list.LinkLast(task);
      return true;
    }

    /** Moves a waiting task to the front; only the first call for a task does anything. */
    method RequeueToFrontLocked(task: PoolTask) returns (moved: bool)
      requires list.Valid() && task in list.known
      requires FlagsMatch() && HeapSound() && HeapComplete(task)
      requires (task in list.queue && task !in expedited) || HeapComplete(null)
      modifies this, list, deadlineHeap, list.known
      ensures Valid() && list.known == old(list.known)
      ensures moved <==> task in old(list.queue) && task !in old(expedited)
      ensures View() == Requeue(old(View()), task)
    {
      if !task.inQueue || task.expedited {
        return false;
      }
      task.expedited := true;
      expedited := expedited + {task};
      deadlineHeap.Remove(task);
      armed := armed - {task};
      list.MoveToFront(task);
      return true;
    }

    method RequeueOnce(task: PoolTask) returns (moved: bool)
      requires Valid() && task in list.known
      modifies this, list, deadlineHeap, list.known
      ensures Valid() && list.known == old(list.known)
      ensures moved <==> task in old(View()).queue && task !in old(View()).expedited
      ensures View() == Requeue(old(View()), task)
    {
      hide TaskList.Valid, Requeue, IndexedHeap.Valid;
      moved := RequeueToFrontLocked(task);
    }

    /** Whether the earliest watched deadline has passed. */
    method Due(now: int) returns (due: bool)
      requires Valid()
      ensures due <==> exists t :: t in View().armed && View().armed[t] <= now
    {
      assert forall t | t in armed :: t in deadlineHeap.index;
      due := deadlineHeap.slots != [] && deadlineHeap.rank[deadlineHeap.slots[0]].major <= now;
      if deadlineHeap.slots != [] {
        deadlineHeap.LeastAtRoot();
        var first := deadlineHeap.slots[0];
        assert first in deadlineHeap.index && first in View().armed;
        assert due ==> View().armed[first] <= now;
      }
    }

    /** The earliest deadline is no longer watched; its task has not been moved yet. */
    method PopFirst() returns (task: PoolTask)
      requires Valid() && armed != map[]
      modifies this`armed, deadlineHeap
      ensures HeapSound() && HeapComplete(task) && task in list.queue && task !in expedited
      ensures task in old(armed) && armed == old(armed) - {task}
      ensures forall t | t in old(armed) :: old(armed)[task] <= old(armed)[t]
    {
      hide TaskList.Valid, FlagsMatch;
      assert deadlineHeap.slots != [] by {
        var t :| t in armed;
        assert t in deadlineHeap.index;
      }
      deadlineHeap.LeastAtRoot();
      task := deadlineHeap.slots[0];
      assert task in deadlineHeap.index;
      deadlineHeap.RemoveAt(0);
      armed := armed - {task};
    }

    lemma Parts()
      requires Valid()
      ensures list.Valid() && FlagsMatch() && HeapComplete(null)
      ensures forall t | t in list.queue :: t in list.known
    {
      hide FlagsMatch, HeapComplete;
    }

    /** The task with the earliest watched deadline goes to the front. */
    method PromoteFirst() returns (task: PoolTask, moved: bool)
      requires Valid() && View().armed != map[]
      modifies this, list, deadlineHeap, list.known
      ensures Valid() && list.known == old(list.known)
      ensures moved && task in old(View()).armed
      ensures forall t | t in old(View()).armed :: old(View()).armed[task] <= old(View()).armed[t]
      ensures View() == Requeue(old(View()), task) && View().armed == old(View()).armed - {task}
    {
      hide TaskQueue.Valid, TaskList.Valid, FlagsMatch, HeapSound, HeapComplete, Requeue;
      Parts();
      task := PopFirst();
      RequeueForgets(old(View()), task);
      moved := RequeueToFrontLocked(task);
    }

    /** Moves every task whose deadline has passed to the front, earliest deadline first. */
    method PromoteExpired(now: int) returns (promoted: nat, ghost order: seq<PoolTask>)
      requires Valid()
      modifies this, list, deadlineHeap, list.known
      ensures Valid() && list.known == old(list.known)
      ensures FiringOrder(old(View()), now, order) && promoted == |order|
      ensures View() == RequeueAll(old(View()), order)
    {
      hide TaskQueue.Valid, TaskQueue.View, FiredSoFar, FiringOrder, RequeueAll, Requeue;
      promoted, order := 0, [];
      NoneFired(View(), now);
      var due := Due(now);
      while due
        invariant Valid() && list.known == old(list.known)
        invariant promoted == |order|
        invariant View() == RequeueAll(old(View()), order)
        invariant FiredSoFar(old(View()).armed, View().armed, now, order)
        invariant due <==> exists t :: t in View().armed && View().armed[t] <= now
        decreases |View().armed|
      {
        ghost var before := View();
        var task, moved := PromoteFirst();
        if moved {
          promoted := promoted + 1;
        }
        RequeueAllAppend(old(View()), order, task);
        FiredNext(old(View()).armed, before.armed, now, order, task);
        order := order + [task];
        due := Due(now);
      }
      FiredAll(old(View()), View().armed, now, order);
    }

    /** An explicit cancellation: deadlines that passed before it come first. */
    method RequeueToFront(task: PoolTask, now: int) returns (notify: bool, ghost order: seq<PoolTask>)
      requires Valid() && task in list.known
      modifies this, list, deadlineHeap, list.known
      ensures Valid() && list.known == old(list.known)
      ensures LazyStep(old(View()), Timed(now, Cancel(task)), order, View(), None)
      ensures notify <==> order != [] || (task in old(View()).queue && task !in old(View()).expedited)
    {
      hide TaskQueue.Valid, TaskQueue.View, FiringOrder, RequeueAll, Requeue;
      var promoted;
      promoted, order := PromoteExpired(now);
      var moved := RequeueOnce(task);
      NoneFired(old(View()), now);
      notify := promoted != 0 || moved;
    }

    /** The locked part of an executor's turn: overdue tasks move up, then the first task is handed out. */
    method Dequeue(now: int) returns (task: PoolTask, ghost order: seq<PoolTask>)
      requires Valid() && View().queue != []
      modifies this, list, deadlineHeap, list.known
      ensures Valid() && list.known == old(list.known)
      ensures LazyStep(old(View()), Timed(now, Event.Dequeue), order, View(), Some(task))
    {
      hide TaskQueue.Valid, TaskQueue.View, FiringOrder, RequeueAll, DropHead;
      var promoted;
      promoted, order := PromoteExpired(now);
      QueueSurvives(old(View()), order);
      task := TakeFirst();
    }

    /** The task has left the list; what is known about the others still holds. */
    ghost predicate HasLeft(task: PoolTask)
      reads this, list, deadlineHeap, list.queue`expedited
    {
      && task !in list.queue
      && (forall t | t in list.queue :: t.expedited <==> t in expedited)
      && (forall t | t in expedited :: t == task || t in list.queue)
      && deadlineHeap.rank.Keys == armed.Keys
      && (forall t | t in armed :: t.deadline == Some(armed[t]) && deadlineHeap.rank[t] == Rank(armed[t], 0))
      && (forall t | t in armed :: t == task || (t in list.queue && t !in expedited))
      && HeapComplete(null)
    }

    method Forget(task: PoolTask)
      requires list.Valid() && deadlineHeap.Valid() && HasLeft(task)
      modifies this`armed, this`expedited, deadlineHeap
      ensures Valid() && armed == old(armed) - {task} && expedited == old(expedited) - {task}
    {
      deadlineHeap.Remove(task);
      armed := armed - {task};
      expedited := expedited - {task};
    }

    method TakeFirst() returns (task: PoolTask)
      requires Valid() && View().queue != []
      modifies this, list, deadlineHeap, list.known
      ensures Valid() && list.known == old(list.known)
      ensures task == old(View()).queue[0] && View() == DropHead(old(View()))
    {
      assert list.queue[0] in list.queue;
      AllButHead(list.queue);
      task := list.UnlinkFirst();
      Forget(task);
    }
  }

  /** The tasks in `order` have been taken from the watched deadlines, earliest first. */
  ghost predicate FiredSoFar<T>(was: map<T, int>, armed: map<T, int>, now: int, order: seq<T>) {
    && NoDuplicates(order)
    && (forall t | t in order :: t in was && t !in armed && was[t] <= now)
    && (forall t | t in armed :: t in was && armed[t] == was[t])
    && (forall t | t in was && t !in armed :: t in order)
    && (forall i, j | 0 <= i < j < |order| :: was[order[i]] <= was[order[j]])
    && (forall t, u | t in order && u in armed :: was[t] <= armed[u])
  }

  lemma QueueSurvives<T>(p: Pool<T>, order: seq<T>)
    requires p.queue != []
    ensures RequeueAll(p, order).queue != []
    decreases |order|
  {
    if order != [] { QueueSurvives(Requeue(p, order[0]), order[1..]); }
  }

  lemma NoneFired<T>(p: Pool<T>, now: int)
    ensures FiredSoFar(p.armed, p.armed, now, [])
    ensures RequeueAll(p, []) == p
  {
  }

  /** Moving a task to the front does not depend on whether its deadline is still watched. */
  lemma RequeueForgets<T>(p: Pool<T>, t: T)
    requires t in p.queue && t !in p.expedited
    ensures Requeue(Pool(p.queue, p.armed - {t}, p.expedited), t) == Requeue(p, t)
    ensures Requeue(p, t).armed == p.armed - {t}
  {
    assert p.armed - {t} - {t} == p.armed - {t};
  }

  lemma FiredNext<T>(was: map<T, int>, armed: map<T, int>, now: int, order: seq<T>, t: T)
    requires FiredSoFar(was, armed, now, order)
    requires t in armed && forall u | u in armed :: armed[t] <= armed[u]
    requires exists u :: u in armed && armed[u] <= now
    ensures FiredSoFar(was, armed - {t}, now, order + [t])
    ensures |armed - {t}| < |armed|
  {
    assert forall i | 0 <= i < |order| :: order[i] in order;
    assert armed.Keys == (armed - {t}).Keys + {t};
  }

  lemma FiredAll<T>(p: Pool<T>, armed: map<T, int>, now: int, order: seq<T>)
    requires FiredSoFar(p.armed, armed, now, order)
    requires forall t | t in armed :: now < armed[t]
    ensures FiringOrder(p, now, order)
  {
  }

  lemma {:induction false} RequeueAllAppend<T>(p: Pool<T>, order: seq<T>, t: T)
    ensures RequeueAll(p, order + [t]) == Requeue(RequeueAll(p, order), t)
    decreases |order|
  {
    if order == [] {
      assert RequeueAll(p, [t]) == RequeueAll(Requeue(p, t), []);
    } else {
      assert (order + [t])[1..] == order[1..] + [t];
      RequeueAllAppend(Requeue(p, order[0]), order[1..], t);
    }
  }
}
