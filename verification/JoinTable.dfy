/**
 The table of the hash-map join storage: two generations of a map that together behave as one map.

 `Generations` is the value, with one function per section under the storage's mutex; `JoinTable` is the object that
 the storage updates in place, proved to compute those functions.
 */
module JoinTables {
  import opened Collections
  import opened Options

  const SHRINK_FACTOR: nat := 4

  datatype Generations<K(==), V> = Generations(current: map<K, V>, previous: map<K, V>, count: int, highWaterMark: nat)

  /** The map that the two generations stand for. */
  function Union<K, V>(g: Generations<K, V>): map<K, V> {
    g.previous + g.current
  }

  ghost predicate Sound<K, V>(g: Generations<K, V>) {
    && g.current.Keys !! g.previous.Keys
    && g.count == |g.current| + |g.previous|
  }

  function Empty<K, V>(): Generations<K, V> {
    Generations(map[], map[], 0, 0)
  }

  function Insert<K, V>(g: Generations<K, V>, key: K, item: V): Generations<K, V> {
    g.(current := g.current[key := item], count := g.count + 1)
  }

  /** A renewed item moves to the current generation. */
  function Renew<K, V(==)>(g: Generations<K, V>, key: K, item: V): Generations<K, V> {
    if key in g.previous && g.previous[key] == item then
      g.(previous := g.previous - {key}, current := g.current[key := item])
    else g
  }

  function RemoveIfSame<K, V(==)>(g: Generations<K, V>, key: K, item: V): Generations<K, V> {
    if key in g.current && g.current[key] == item then
      g.(current := g.current - {key}, count := g.count - 1)
    else if key in g.previous && g.previous[key] == item then
      g.(previous := g.previous - {key}, count := g.count - 1)
    else g
  }

  predicate ShouldRotate<K, V>(g: Generations<K, V>) {
    g.highWaterMark == 0
    || |g.current| + |g.previous| < (g.highWaterMark + SHRINK_FACTOR - 1) / SHRINK_FACTOR
  }

  function Rotate<K, V>(g: Generations<K, V>): Generations<K, V> {
    var total := |g.current| + |g.previous|;
    if ShouldRotate(g) then Generations(map[], Union(g), g.count, total)
    else g.(highWaterMark := if total > g.highWaterMark then total else g.highWaterMark)
  }

  // ---------------------------------------------------------------- one map

  lemma DisjointSize<K, V>(a: map<K, V>, b: map<K, V>)
    requires a.Keys !! b.Keys
    ensures |a + b| == |a| + |b|
  {
    assert (a + b).Keys == a.Keys + b.Keys;
    assert |a| == |a.Keys| && |b| == |b.Keys| && |a + b| == |(a + b).Keys|;
  }

  lemma PutRight<K, V>(a: map<K, V>, b: map<K, V>, key: K, item: V)
    ensures a + b[key := item] == (a + b)[key := item]
  {
  }

  lemma CutLeft<K, V>(a: map<K, V>, b: map<K, V>, key: K)
    requires key !in b
    ensures (a - {key}) + b == (a + b) - {key}
  {
  }

  lemma CutRight<K, V>(a: map<K, V>, b: map<K, V>, key: K)
    requires key !in a
    ensures a + (b - {key}) == (a + b) - {key}
  {
  }

  lemma Shift<K, V>(a: map<K, V>, b: map<K, V>, key: K)
    requires key in a && key !in b
    ensures (a - {key}) + b[key := a[key]] == a + b
  {
  }

  lemma NothingLeft<K, V>(m: map<K, V>)
    ensures map[] + m == m
  {
  }

  /** The counter is the size of the map. */
  lemma CountIsSize<K, V>(g: Generations<K, V>)
    requires Sound(g)
    ensures g.count == |Union(g)|
  {
    DisjointSize(g.previous, g.current);
  }

  lemma InsertIsInsert<K, V>(g: Generations<K, V>, key: K, item: V)
    requires Sound(g) && key !in Union(g)
    ensures Sound(Insert(g, key, item)) && Union(Insert(g, key, item)) == Union(g)[key := item]
  {
    SizeWith(g.current, key, item);
    PutRight(g.previous, g.current, key, item);
  }

  lemma RenewIsInvisible<K, V>(g: Generations<K, V>, key: K, item: V)
    requires Sound(g)
    ensures Sound(Renew(g, key, item)) && Union(Renew(g, key, item)) == Union(g)
    ensures key in Union(g) && Union(g)[key] == item ==> key in Renew(g, key, item).current
  {
    if key in g.previous && g.previous[key] == item {
      SizeWith(g.current, key, item);
      SizeWithout(g.previous, key);
      Shift(g.previous, g.current, key);
    }
  }

  predicate Holds<K, V(==)>(g: Generations<K, V>, key: K, item: V) {
    (key in g.current && g.current[key] == item) || (key in g.previous && g.previous[key] == item)
  }

  lemma RemoveIsRemove<K, V>(g: Generations<K, V>, key: K, item: V)
    requires Sound(g)
    ensures Sound(RemoveIfSame(g, key, item))
    ensures Holds(g, key, item) <==> key in Union(g) && Union(g)[key] == item
    ensures Union(RemoveIfSame(g, key, item)) == if Holds(g, key, item) then Union(g) - {key} else Union(g)
  {
    if key in g.current && g.current[key] == item {
      SizeWithout(g.current, key);
      CutRight(g.previous, g.current, key);
    } else if key in g.previous && g.previous[key] == item {
      SizeWithout(g.previous, key);
      CutLeft(g.previous, g.current, key);
    }
  }

  lemma RotateIsInvisible<K, V>(g: Generations<K, V>)
    requires Sound(g)
    ensures Sound(Rotate(g)) && Union(Rotate(g)) == Union(g)
    ensures ShouldRotate(g) ==> Rotate(g).current == map[]
  {
    CountIsSize(g);
    assert Union(g) + map[] == Union(g);
    hide Sound;
  }

  // ---------------------------------------------------------------- the object

  class JoinTable<K(==), V(==)> {
    var current: map<K, V>
    var previous: map<K, V>
    var count: int
    var highWaterMark: nat

    function View(): Generations<K, V>
      reads this
    {
      Generations(current, previous, count, highWaterMark)
    }

    ghost predicate Valid()
      reads this
    {
      Sound(View())
    }

    constructor ()
      ensures Valid() && Union(View()) == map[] && count == 0
    {
      current, previous, count, highWaterMark := map[], map[], 0, 0;
    }

    method FindItem(key: K) returns (item: Option<V>, inPrevious: bool)
      requires Valid()
      ensures item == if key in Union(View()) then Some(Union(View())[key]) else None
      ensures inPrevious <==> key in previous
    {
      if key in current { return Some(current[key]), false; }
      if key in previous { return Some(previous[key]), true; }
      return None, false;
    }

    method InsertIfAbsent(key: K, candidate: V) returns (item: V, newlyInserted: bool)
      requires Valid()
      modifies this
      ensures Valid()
      ensures newlyInserted <==> key !in old(Union(View()))
      ensures key in Union(View()) && Union(View())[key] == item
      ensures newlyInserted ==> item == candidate && Union(View()) == old(Union(View()))[key := candidate]
      ensures !newlyInserted ==> View() == old(View())
      ensures count == |Union(View())|
    {
      ghost var before := View();
      CountIsSize(before);
      var found, _ := FindItem(key);
      if found.Some? { return found.value, false; }
      current := current[key := candidate];
      count := count + 1;
      InsertIsInsert(before, key, candidate);
      CountIsSize(View());
      return candidate, true;
    }

    method MoveToCurrent(key: K, item: V)
      requires Valid()
      modifies this
      ensures View() == Renew(old(View()), key, item) && Valid() && Union(View()) == old(Union(View()))
    {
      RenewIsInvisible(View(), key, item);
      if key in previous && previous[key] == item {
        previous := previous - {key};
        current := current[key := item];
      }
    }

    method Remove(key: K, item: V) returns (removed: bool)
      requires Valid()
      modifies this
      ensures View() == RemoveIfSame(old(View()), key, item) && Valid()
      ensures removed <==> Holds(old(View()), key, item)
    {
      hide Union, Sound;
      ghost var before := View();
      removed := true;
      if key in current && current[key] == item {
        current := current - {key};
      } else if key in previous && previous[key] == item {
        previous := previous - {key};
      } else {
        removed := false;
      }
      if removed { count := count - 1; }
      assert View() == RemoveIfSame(before, key, item);
      RemoveIsRemove(before, key, item);
    }

    /** try_emplace of every entry of the previous generation; none of them collides. */
    method Rescue() returns (rescued: nat)
      requires current.Keys !! previous.Keys
      modifies this`current
      ensures current == previous + old(current) && rescued == |previous|
    {
      rescued := 0;
      ghost var whole := previous + current;
      var rest := previous;
      while rest != map[]
        invariant rest.Keys !! current.Keys && rest + current == whole
        invariant rescued + |rest| == |previous|
        decreases |rest|
      {
        var key :| key in rest;
        SizeWithout(rest, key);
        Shift(rest, current, key);
        if key !in current {
          current := current[key := rest[key]];
          rescued := rescued + 1;
        }
        rest := rest - {key};
      }
      NothingLeft(current);
    }

    /** Both generations become the previous one. */
    method Merge(total: nat) returns (evicted: int)
      requires current.Keys !! previous.Keys
      modifies this
      ensures current == map[] && previous == old(previous) + old(current)
      ensures count == old(count) && highWaterMark == total && evicted == 0
    {
      highWaterMark := total;
      var rescued := Rescue();
      evicted := |previous| - rescued;
      previous := current;
      current := map[];
      count := count - evicted;
    }

    method RotateLocked() returns (evicted: int)
      requires Valid()
      modifies this
      ensures View() == Rotate(old(View())) && Valid()
      ensures Union(View()) == old(Union(View())) && evicted == 0
    {
      RotateIsInvisible(View());
      var total := |current| + |previous|;
      var shouldRotate := highWaterMark == 0 || total < (highWaterMark + SHRINK_FACTOR - 1) / SHRINK_FACTOR;
      if total > highWaterMark { highWaterMark := total; }
      evicted := 0;
      if shouldRotate { evicted := Merge(total); }
    }

    method Clear()
      modifies this
      ensures Valid() && Union(View()) == map[] && highWaterMark == old(highWaterMark)
    {
      current, previous, count := map[], map[], 0;
    }
  }
}
