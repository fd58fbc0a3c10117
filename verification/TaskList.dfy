/** What it means for the pointers of linked tasks to spell a sequence. */
module TaskLinks {
  import opened Collections
  import opened Options

  class PoolTask {
    var next: PoolTask?
    var prev: PoolTask?
    var inQueue: bool
    var expedited: bool
    const deadline: Option<int>

    constructor (deadline: Option<int>)
      ensures this.deadline == deadline
      ensures Unlinked()
    {
      next, prev, inQueue, expedited := null, null, false, false;
      this.deadline := deadline;
    }

    ghost predicate Unlinked()
      reads this
    {
      next == null && prev == null && !inQueue && !expedited
    }
  }

  /** The tasks in places i and i + 1 point to each other. */
  ghost predicate Neighbours(q: seq<PoolTask>, i: nat)
    requires i + 1 < |q|
    reads q`next, q`prev
  {
    q[i].next == q[i + 1] && q[i + 1].prev == q[i]
  }

  /** Followed from either end, the pointers of the tasks spell q. */
  ghost predicate Spells(head: PoolTask?, tail: PoolTask?, q: seq<PoolTask>)
    reads q`next, q`prev
  {
    && NoDuplicates(q)
    && (if q == [] then head == null && tail == null
        else head == q[0] && tail == q[|q| - 1] && q[0].prev == null && q[|q| - 1].next == null)
    && (forall i | 0 <= i < |q| - 1 :: Neighbours(q, i))
  }
}

/** The doubly linked list of waiting tasks; a task is linked into it by its own pointers. */
module TaskLists {
  import opened Collections
  import opened TaskLinks
  import opened LazyPromotion

  class TaskList {
    var head: PoolTask?
    var tail: PoolTask?
    var count: int
    ghost var queue: seq<PoolTask>  // the list, front first
    ghost var known: set<PoolTask>  // every task that was ever added

    ghost predicate Valid()
      reads this, known`next, known`prev, known`inQueue, queue`next, queue`prev
    {
      && (forall t | t in queue :: t in known)
      && Spells(head, tail, queue)
      && (forall t | t in known :: t.inQueue <==> t in queue)
      && count == |queue|
    }

    constructor ()
      ensures Valid()
      ensures queue == [] && known == {}
    {
      head, tail, count := null, null, 0;
      queue, known := [], {};
    }

    method LinkLast(task: PoolTask)
      requires Valid()
      requires task !in known && task.Unlinked()
      modifies this, task`next, task`prev, task`inQueue, known`next, known`prev
      ensures Valid()
      ensures queue == old(queue) + [task] && known == old(known) + {task}
    {
      assert forall i | 0 <= i < |queue| :: queue[i] in queue;
      if tail != null {
        tail.next := task;
        task.prev := tail;
        tail := task;
      } else {
        head := task;
        tail := task;
      }
      task.inQueue := true;
      count := count + 1;
      queue := queue + [task];
      known := known + {task};
      forall i | 0 <= i < |queue| - 1
        ensures Neighbours(queue, i)
      {
        assert i < |queue| - 2 ==> old(Neighbours(queue, i));
      }
    }

    method UnlinkFirst() returns (task: PoolTask)
      requires Valid()
      requires queue != []
      modifies this`head, this`tail, this`count, this`queue, known`next, known`prev, known`inQueue
      ensures Valid()
      ensures task == old(queue[0]) && queue == old(queue[1..])
    {
      assert forall i | 0 <= i < |queue| :: queue[i] in queue;
      assert |queue| > 1 ==> Neighbours(queue, 0);
      task := head;
      head := task.next;
      if head != null {
        head.prev := null;
      } else {
        tail := null;
      }
      task.next := null;
      task.inQueue := false;
      count := count - 1;
      queue := queue[1..];
      forall i | 0 <= i < |queue| - 1
        ensures Neighbours(queue, i)
      {
        assert old(Neighbours(queue, i + 1));
      }
    }

    /** Takes the task in place k out of the list; it is not the first one. */
    method Unlink(task: PoolTask, ghost k: nat)
      requires Valid()
      requires 0 < k < |queue| && queue[k] == task
      modifies this`tail, known`next, known`prev
      ensures Spells(head, tail, queue[..k] + queue[k + 1..])
    {
      assert forall i | 0 <= i < |queue| :: queue[i] in queue;
      assert Neighbours(queue, k - 1);
      assert k + 1 < |queue| ==> Neighbours(queue, k);
      if task.next != null {
        task.next.prev := task.prev;
      } else {
        tail := task.prev;
      }
      task.prev.next := task.next;
      ghost var rest := queue[..k] + queue[k + 1..];
      StillDistinct(queue, k);
      forall i | 0 <= i < |rest| - 1
        ensures Neighbours(rest, i)
      {
        if i + 1 < k {
          assert old(Neighbours(queue, i));
        } else if i >= k {
          assert old(Neighbours(queue, i + 1));
        }
      }
    }

    method LinkFirst(task: PoolTask, ghost q: seq<PoolTask>)
      requires Spells(head, tail, q) && q != []
      requires task !in q
      modifies this`head, task`next, task`prev, head`prev
      ensures Spells(head, tail, [task] + q)
    {
      assert forall i | 0 <= i < |q| :: q[i] in q;
      task.next := head;
      task.prev := null;
      head.prev := task;
      head := task;
      forall i | 0 <= i < |[task] + q| - 1
        ensures Neighbours([task] + q, i)
      {
        assert i > 0 ==> old(Neighbours(q, i - 1));
      }
    }

    method MoveFrom(task: PoolTask, ghost k: nat)
      requires Valid()
      requires k < |queue| && queue[k] == task
      modifies this`head, this`tail, this`queue, known`next, known`prev
      ensures Valid()
      ensures queue == [task] + (old(queue)[..k] + old(queue)[k + 1..])
    {
      if head == task {
        return;
      }
      assert queue[k] in queue && queue[0] in queue;
      ghost var rest := queue[..k] + queue[k + 1..];
      OthersStay(queue, k);
      Unlink(task, k);
      LinkFirst(task, rest);
      queue := [task] + rest;
    }

    method MoveToFront(task: PoolTask)
      requires Valid()
      requires task in queue
      modifies this`head, this`tail, this`queue, known`next, known`prev
      ensures Valid()
      ensures queue == [task] + Without(old(queue), task)
      ensures forall t | t in queue :: t in old(queue)
      ensures forall t | t in old(queue) :: t in queue
    {
      ghost var k :| 0 <= k < |queue| && queue[k] == task;
      TakenOut(queue, k, queue[..k] + queue[k + 1..]);
      MoveFrom(task, k);
    }
  }

  lemma StillDistinct<T>(q: seq<T>, k: nat)
    requires k < |q| && NoDuplicates(q)
    ensures NoDuplicates(q[..k] + q[k + 1..])
  {
  }

  lemma OthersStay<T>(q: seq<T>, k: nat)
    requires k < |q| && NoDuplicates(q)
    ensures var rest := q[..k] + q[k + 1..];
            && q[k] !in rest && (forall t | t in rest :: t in q) && (forall t | t in q :: t == q[k] || t in rest)
  {
    assert q == q[..k] + [q[k]] + q[k + 1..];
  }

  lemma TakenOut<T>(q: seq<T>, k: nat, rest: seq<T>)
    requires k < |q| && NoDuplicates(q) && rest == q[..k] + q[k + 1..]
    ensures rest == Without(q, q[k])
    ensures q[k] !in rest
    ensures forall t | t in q :: t == q[k] || t in rest
    ensures forall t | t in rest :: t in q
  {
    WithoutSplits(q, k);
    WithoutKeeps(q, q[k]);
  }

  lemma {:induction false} WithoutSplits<T>(s: seq<T>, k: nat)
    requires k < |s| && NoDuplicates(s)
    ensures Without(s, s[k]) == s[..k] + s[k + 1..]
  {
    if k != 0 {
      assert s[0] != s[k] && s[1..][k - 1] == s[k];
      WithoutSplits(s[1..], k - 1);
    }
  }
}
