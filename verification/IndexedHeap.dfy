/**
 The binary min-heap that both task pools keep over their queued tasks: the deadline heap of either pool and the
 priority heap of the priority pool. Every element knows its slot, so an arbitrary element can be taken out.

 A slot number that the original stores in the task (`deadlineIndex`, `priorityIndex`) is kept here in `index`;
 an element that is not in the heap has no entry there.
 */
module IndexedHeaps {

  /** What elements are compared by: the major part first, the minor part among equal major parts. */
  datatype Rank = Rank(major: int, minor: int)

  predicate Before(a: Rank, b: Rank) {
    a.major < b.major || (a.major == b.major && a.minor < b.minor)
  }

  function Parent(i: nat): nat
    requires 0 < i
  {
    (i - 1) / 2
  }

  /** Slot i does not come before its parent slot. */
  ghost predicate Edge<T>(slots: seq<T>, rank: map<T, Rank>, i: nat)
    requires 0 < i < |slots|
    requires forall t | t in slots :: t in rank
  {
    !Before(rank[slots[i]], rank[slots[Parent(i)]])
  }

  /** The children of slot i do not come before the parent of slot i. */
  ghost predicate Bridged<T>(slots: seq<T>, rank: map<T, Rank>, i: nat)
    requires forall t | t in slots :: t in rank
  {
    forall j {:trigger slots[j]} | 0 < i && i < j < |slots| && Parent(j) == i ::
      !Before(rank[slots[j]], rank[slots[Parent(i)]])
  }

  /** The heap property puts a smallest element into slot 0. */
  lemma {:induction false} RootIsLeast<T>(slots: seq<T>, rank: map<T, Rank>, i: nat)
    requires i < |slots|
    requires forall t | t in slots :: t in rank
    requires forall j | 0 < j < |slots| :: Edge(slots, rank, j)
    ensures !Before(rank[slots[i]], rank[slots[0]])
  {
    if i != 0 {
      assert Edge(slots, rank, i);
      RootIsLeast(slots, rank, Parent(i));
    }
  }

  class IndexedHeap<T(==)> {
    var slots: seq<T>
    var index: map<T, nat>
    var rank: map<T, Rank>

    /** Slots and back-indices are inverse to each other, and exactly the ranked elements are in the heap. */
    ghost predicate Linked()
      reads this
    {
      && rank.Keys == index.Keys
      && (forall i | 0 <= i < |slots| :: slots[i] in index && index[slots[i]] == i)
      && (forall t | t in index :: index[t] < |slots| && slots[index[t]] == t)
    }

    ghost predicate Valid()
      reads this
    {
      && Linked()
      && forall j | 0 < j < |slots| :: Edge(slots, rank, j)
    }

    constructor ()
      ensures Valid()
      ensures rank == map[] && slots == []
    {
      slots, index, rank := [], map[], map[];
    }

    method Swap(i: nat, j: nat)
      requires Linked()
      requires i < |slots| && j < |slots| && i != j
      modifies this`slots, this`index
      ensures Linked()
      ensures slots == old(slots)[i := old(slots[j])][j := old(slots[i])]
    {
      slots := slots[i := slots[j]][j := slots[i]];
      index := index[slots[i] := i][slots[j] := j];
    }

    method SiftUp(start: nat)
      requires Linked()
      requires start < |slots|
      requires forall j | 0 < j < |slots| && j != start :: Edge(slots, rank, j)
      requires Bridged(slots, rank, start)
      modifies this`slots, this`index
      ensures Valid()
      ensures |slots| == old(|slots|)
    {
      var i: nat := start;
      while i != 0
        invariant i < |slots| == old(|slots|)
        invariant Linked()
        invariant forall j | 0 < j < |slots| && j != i :: Edge(slots, rank, j)
        invariant Bridged(slots, rank, i)
      {
        var parent := Parent(i);
        if !Before(rank[slots[i]], rank[slots[parent]]) {
          return;
        }
        ghost var was := slots;
        Swap(i, parent);
        SwapUpKeepsOrder(was, slots, rank, i);
        i := parent;
      }
    }

    method SmallerChild(i: nat) returns (smallest: nat)
      requires Linked()
      requires 2 * i + 1 < |slots|
      ensures i < smallest < |slots| && Parent(smallest) == i
      ensures forall j: nat {:trigger slots[j]} | i < j < |slots| && Parent(j) == i ::
                !Before(rank[slots[j]], rank[slots[smallest]])
    {
      var left := 2 * i + 1;
      var right := left + 1;
      smallest := left;
      if right < |slots| && Before(rank[slots[right]], rank[slots[left]]) {
        smallest := right;
      }
      forall j: nat | i < j < |slots| && Parent(j) == i
        ensures !Before(rank[slots[j]], rank[slots[smallest]])
      {
        assert j == left || j == right;
      }
    }

    /** Sinking ends where no child comes before its parent. */
    lemma SettledAt(i: nat, smallest: nat)
      requires Linked()
      requires i < |slots| && smallest < |slots|
      requires forall j | 0 < j < |slots| && Parent(j) != i :: Edge(slots, rank, j)
      requires forall j: nat {:trigger slots[j]} | i < j < |slots| && Parent(j) == i ::
                 !Before(rank[slots[j]], rank[slots[smallest]])
      requires !Before(rank[slots[smallest]], rank[slots[i]])
      ensures Valid()
    {
      forall j | 0 < j < |slots| && Parent(j) == i
        ensures Edge(slots, rank, j)
      {
        assert !Before(rank[slots[j]], rank[slots[smallest]]);
      }
    }

    method SiftDown(start: nat)
      requires Linked()
      requires start < |slots|
      requires forall j | 0 < j < |slots| && Parent(j) != start :: Edge(slots, rank, j)
      requires Bridged(slots, rank, start)
      modifies this`slots, this`index
      ensures Valid()
      ensures |slots| == old(|slots|)
    {
      var i: nat := start;
      while true
        invariant i < |slots| == old(|slots|)
        invariant Linked()
        invariant forall j | 0 < j < |slots| && Parent(j) != i :: Edge(slots, rank, j)
        invariant Bridged(slots, rank, i)
        decreases |slots| - i
      {
        if 2 * i + 1 >= |slots| {
          return;
        }
        var smallest := SmallerChild(i);
        if !Before(rank[slots[smallest]], rank[slots[i]]) {
          SettledAt(i, smallest);
          return;
        }
        ghost var was := slots;
        Swap(i, smallest);
        SwapDownKeepsOrder(was, slots, rank, i, smallest);
        i := smallest;
      }
    }

    /** Adds an element that is not in the heap. */
    method Push(t: T, r: Rank)
      requires Valid()
      requires t !in rank
      modifies this
      ensures Valid()
      ensures rank == old(rank)[t := r]
    {
      ghost var was := slots;
      slots := slots + [t];
      index := index[t := |slots| - 1];
      rank := rank[t := r];
      forall j | 0 < j < |slots| && j != |slots| - 1
        ensures Edge(slots, rank, j)
      {
        assert slots[j] == was[j] && slots[Parent(j)] == was[Parent(j)];
        assert old(Edge(slots, rank, j));
      }
      SiftUp(|slots| - 1);
    }

    /** Takes out the element in slot i; the last element takes its slot, whatever its rank. */
    method Detach(i: nat)
      requires Linked()
      requires i < |slots|
      modifies this
      ensures Linked()
      ensures rank == old(rank) - {old(slots[i])}
      ensures |slots| == old(|slots|) - 1
      ensures slots == if i < |slots| then old(slots)[..|slots|][i := old(slots)[|slots|]] else old(slots)[..|slots|]
    {
      var removed := slots[i];
      var last := |slots| - 1;
      if i != last {
        Swap(i, last);
      }
      slots := slots[..last];
      index := index - {removed};
      rank := rank - {removed};
    }

    /** Takes out the element in slot i and closes the gap. */
    method RemoveAt(i: nat)
      requires Valid()
      requires i < |slots|
      modifies this
      ensures Valid()
      ensures rank == old(rank) - {old(slots[i])}
    {
      ghost var was := slots;
      Detach(i);
      if i >= |slots| {
        forall j | 0 < j < |slots|
          ensures Edge(slots, rank, j)
        {
          assert slots[j] == was[j] && slots[Parent(j)] == was[Parent(j)];
          assert old(Edge(slots, rank, j));
        }
        return;
      }
      RefillKeepsOrder(was, slots, old(rank), rank, i);
      if i != 0 && Before(rank[slots[i]], rank[slots[Parent(i)]]) {
        SiftUp(i);
      } else {
        SiftDown(i);
      }
    }

    method Remove(t: T)
      requires Valid()
      modifies this
      ensures Valid()
      ensures rank == old(rank) - {t}
    {
      if t in index {
        RemoveAt(index[t]);
      }
    }

    /** The first element gives way to the last one. */
    method TakeRoot() returns (top: T)
      requires Linked() && slots != []
      modifies this
      ensures Linked() && top == old(slots[0]) && rank == old(rank) - {top}
      ensures |slots| == old(|slots|) - 1
      ensures slots == if slots == [] then [] else old(slots)[..|slots|][0 := old(slots)[|slots|]]
    {
      top := slots[0];
      var last := slots[|slots| - 1];
      slots := slots[..|slots| - 1];
      index := index - {top};
      rank := rank - {top};
      if slots != [] {
        slots := slots[0 := last];
        index := index[last := 0];
      }
    }

    /** Takes out a smallest element: the last element moves into slot 0 and sinks. */
    method Pop() returns (top: T)
      requires Valid()
      requires slots != []
      modifies this
      ensures Valid()
      ensures top in old(rank)
      ensures forall t | t in old(rank) :: !Before(old(rank)[t], old(rank)[top])
      ensures rank == old(rank) - {top}
    {
      LeastAtRoot();
      ghost var was := slots;
      top := TakeRoot();
      if slots != [] {
        RefillKeepsOrder(was, slots, old(rank), rank, 0);
        SiftDown(0);
      }
    }

    /** Gives an element a rank that does not come after its old one and restores the order. */
    method Raise(t: T, r: Rank)
      requires Valid()
      requires t in rank && !Before(rank[t], r)
      modifies this
      ensures Valid()
      ensures rank == old(rank)[t := r]
    {
      var i := index[t];
      rank := rank[t := r];
      forall j | 0 < j < |slots| && j != i
        ensures Edge(slots, rank, j)
      {
        assert old(Edge(slots, rank, j));
      }
      forall j | 0 < i && i < j < |slots| && Parent(j) == i
        ensures !Before(rank[slots[j]], rank[slots[Parent(i)]])
      {
        assert old(Edge(slots, rank, j)) && old(Edge(slots, rank, i));
      }
      SiftUp(i);
    }

    lemma Occupied(t: T)
      requires Valid() && t in rank
      ensures slots != []
    {
      assert t in index;
    }

    lemma RootIsRanked()
      requires Valid() && slots != []
      ensures slots[0] in rank
    {
      assert slots[0] in index;
    }

    lemma LeastAtRoot()
      requires Valid()
      requires slots != []
      ensures forall t | t in rank :: !Before(rank[t], rank[slots[0]])
    {
      forall t | t in rank
        ensures !Before(rank[t], rank[slots[0]])
      {
        RootIsLeast(slots, rank, index[t]);
      }
    }
  }

  lemma SwapUpKeepsOrder<T>(was: seq<T>, slots: seq<T>, rank: map<T, Rank>, i: nat)
    requires 0 < i < |was|
    requires forall t | t in was :: t in rank
    requires forall j | 0 < j < |was| && j != i :: Edge(was, rank, j)
    requires Bridged(was, rank, i)
    requires Before(rank[was[i]], rank[was[Parent(i)]])
    requires slots == was[i := was[Parent(i)]][Parent(i) := was[i]]
    ensures forall t | t in slots :: t in rank
    ensures forall j | 0 < j < |slots| && j != Parent(i) :: Edge(slots, rank, j)
    ensures Bridged(slots, rank, Parent(i))
  {
    forall j | 0 < j < |slots| && j != Parent(i)
      ensures Edge(slots, rank, j)
    {
      if j != i {
        assert Edge(was, rank, j);
        if Parent(j) == i {
          assert !Before(rank[was[j]], rank[was[Parent(i)]]);
        }
      }
    }
    forall j | 0 < Parent(i) && Parent(i) < j < |slots| && Parent(j) == Parent(i)
      ensures !Before(rank[slots[j]], rank[slots[Parent(Parent(i))]])
    {
      assert Edge(was, rank, Parent(i));
      if j != i {
        assert Edge(was, rank, j);
      }
    }
  }

  lemma SwapDownKeepsOrder<T>(was: seq<T>, slots: seq<T>, rank: map<T, Rank>, i: nat, child: nat)
    requires i < child < |was| && Parent(child) == i
    requires forall t | t in was :: t in rank
    requires forall j | 0 < j < |was| && Parent(j) != i :: Edge(was, rank, j)
    requires Bridged(was, rank, i)
    requires Before(rank[was[child]], rank[was[i]])
    requires forall j | i < j < |was| && Parent(j) == i :: !Before(rank[was[j]], rank[was[child]])
    requires slots == was[i := was[child]][child := was[i]]
    ensures forall t | t in slots :: t in rank
    ensures forall j | 0 < j < |slots| && Parent(j) != child :: Edge(slots, rank, j)
    ensures Bridged(slots, rank, child)
  {
    forall j | 0 < j < |slots| && Parent(j) != child
      ensures Edge(slots, rank, j)
    {
      if j == i {
        assert !Before(rank[was[child]], rank[was[Parent(i)]]);
      } else if Parent(j) == i {
        assert !Before(rank[was[j]], rank[was[child]]);
      } else {
        assert Edge(was, rank, j);
      }
    }
    forall j | child < j < |slots| && Parent(j) == child
      ensures !Before(rank[slots[j]], rank[slots[Parent(child)]])
    {
      assert Edge(was, rank, j);
    }
  }

  /** After the last element has replaced the one in slot i, only the edges around slot i can be wrong. */
  lemma RefillKeepsOrder<T>(was: seq<T>, slots: seq<T>, wasRank: map<T, Rank>, rank: map<T, Rank>, i: nat)
    requires |slots| == |was| - 1 && i < |slots|
    requires forall t | t in was :: t in wasRank
    requires forall t | t in slots :: t in rank && t in wasRank && rank[t] == wasRank[t]
    requires forall j | 0 < j < |was| :: Edge(was, wasRank, j)
    requires slots == was[..|slots|][i := was[|slots|]]
    ensures forall j | 0 < j < |slots| && j != i && Parent(j) != i :: Edge(slots, rank, j)
    ensures Bridged(slots, rank, i)
    ensures i != 0 && Before(rank[slots[i]], rank[slots[Parent(i)]]) ==>
              forall j | 0 < j < |slots| && j != i :: Edge(slots, rank, j)
  {
    forall j | 0 < j < |slots| && j != i && Parent(j) != i
      ensures Edge(slots, rank, j)
    {
      assert Edge(was, wasRank, j);
      assert slots[j] == was[j] && slots[Parent(j)] == was[Parent(j)];
    }
    forall j | 0 < i && i < j < |slots| && Parent(j) == i
      ensures !Before(rank[slots[j]], rank[slots[Parent(i)]])
    {
      assert Edge(was, wasRank, j) && Edge(was, wasRank, i);
      assert slots[j] == was[j] && slots[Parent(i)] == was[Parent(i)];
    }
  }
}
