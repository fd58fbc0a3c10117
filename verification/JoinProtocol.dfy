/**
 The join storage as a protocol between joinValue calls, expiry tasks, rotation and stop().

 One step is one section under the storage's mutex or under an item's mutex, or one callback outside both. When an
 item expires is left open here: any expiry task may come for any item and generation at any time, and any joinValue
 call may find an item past its deadline; `JoinExpiry` says when they do.
 */
module JoinProtocol {
  import opened Options
  import opened JoinTables

  type Key = string

  /** What an item keeps: one column of values per join input. */
  type Columns = seq<seq<int>>

  datatype Call = Call(key: Key, index: nat, value: int)

  /** A value taken over by an item, with the joinValue call that brought it. */
  datatype Arrival = Arrival(call: nat, index: nat, value: int)

  /** Who has marked an item processed and still has to run its final callback. */
  datatype Claim = Nobody | ByJoin(call: nat) | ByTask(task: nat)

  datatype Item = Item(
    key: Key, values: Columns, processed: bool, generation: nat,
    owner: Option<nat>,           // the joinValue call that holds the item's mutex
    accepted: seq<Arrival>,       // history: the values accepted, in order
    finals: seq<Columns>,         // history: what each final callback was given
    claim: Claim)

  /** Where a joinValue call is; `saved` is the generation that a failed renewal restores. */
  datatype Pc =
    | Finding
    | Absent
    | Found(item: nat)
    | Arming(item: nat, saved: Option<nat>)
    | Holding(item: nat)
    | Calling(item: nat)
    | Removing(item: nat, again: bool)

  /** Where an expiry task is that has claimed its item. */
  datatype Chore = Reporting(item: nat) | Dropping(item: nat)

  datatype Phase = Created | Running | Failed | Stopping | Stopped

  datatype Store = Store(
    phase: Phase,
    table: Generations<Key, nat>,
    items: seq<Item>,
    calls: seq<Call>,             // every joinValue call that was admitted
    joins: map<nat, Pc>,          // those that have not returned
    chores: map<nat, Chore>, tasks: nat,
    placed: map<nat, nat>,        // history: the item that took over a call's value
    failed: set<nat>)             // history: the calls that ended with an exception

  const INITIAL := Store(Created, Empty(), [], [], map[], map[], 0, map[], {})

  datatype JoinStep =
    | Find
    | Create(timed: bool)
    | Look(lapsed: bool, renew: bool)
    | ArmFails
    | ArmDone
    | Accept(done: bool)
    | CallBack
    | Remove

  datatype StoreStep =
    | Start(ok: bool)
    | Enter(call: Call)
    | Expire(item: nat, generation: nat)
    | Report(task: nat)
    | Drop(task: nat)
    | RotateTable
    | BeginStop
    | StopReturns

  datatype Step = ByCall(call: nat, act: JoinStep) | ByStore(deed: StoreStep)

  function Resized(values: Columns, size: nat): Columns {
    if |values| < size then values + seq(size - |values|, _ => []) else values
  }

  /** The value is appended to its column. */
  function Placed(values: Columns, index: nat, value: int): Columns {
    var wide := Resized(values, index + 1);
    wide[index := wide[index] + [value]]
  }

  predicate JoinCan(s: Store, c: nat, act: JoinStep) {
    c in s.joins && c < |s.calls| &&
    var pc := s.joins[c];
    match act
    case Find => pc.Finding?
    case Create(_) => pc.Absent?
    case Look(_, _) => pc.Found? && pc.item < |s.items| && s.items[pc.item].owner.None?
    case ArmFails => pc.Arming? && pc.item < |s.items|
    case ArmDone => pc.Arming? && pc.item < |s.items|
    case Accept(_) => pc.Holding? && pc.item < |s.items|
    case CallBack => pc.Calling? && pc.item < |s.items|
    case Remove => pc.Removing? && pc.item < |s.items|
  }

  /** findItem, and findItemLocked followed by the insertion of a candidate. */
  function DoFind(s: Store, c: nat): Store
    requires JoinCan(s, c, Find)
  {
    var key, table := s.calls[c].key, Union(s.table);
    s.(joins := s.joins[c := if key in table then Found(table[key]) else Absent])
  }

  function NewItem(call: Call, c: nat, timed: bool): Item {
    Item(call.key, Resized([], call.index + 1), false, if timed then 1 else 0, Some(c), [], [], Nobody)
  }

  function DoCreate(s: Store, c: nat, timed: bool): Store
    requires JoinCan(s, c, Create(timed))
  {
    var key, table, i := s.calls[c].key, Union(s.table), |s.items|;
    if key in table then s.(joins := s.joins[c := Found(table[key])])
    else s.(table := Insert(s.table, key, i),
            items := s.items + [NewItem(s.calls[c], c, timed)],
            joins := s.joins[c := if timed then Arming(i, None) else Holding(i)])
  }

  /** The item's mutex is taken: the item is finished, past its deadline, to be renewed, or ready for the value. */
  function DoLook(s: Store, c: nat, lapsed: bool, renew: bool): Store
    requires JoinCan(s, c, Look(lapsed, renew))
  {
    var i := s.joins[c].item;
    var it := s.items[i];
    if it.processed then s.(joins := s.joins[c := Removing(i, true)])
    else if lapsed then
      s.(items := s.items[i := it.(processed := true, generation := it.generation + 1, claim := ByJoin(c))],
         joins := s.joins[c := Calling(i)])
    else if renew then
      s.(items := s.items[i := it.(generation := it.generation + 1, owner := Some(c))],
         joins := s.joins[c := Arming(i, Some(it.generation))])
    else s.(items := s.items[i := it.(owner := Some(c))], joins := s.joins[c := Holding(i)])
  }

  /** The expiry could not be scheduled: a new item is given up, a renewed one gets its old generation back. */
  function DoArmFails(s: Store, c: nat): Store
    requires JoinCan(s, c, ArmFails)
  {
    var i, saved := s.joins[c].item, s.joins[c].saved;
    var it := s.items[i];
    if saved.Some? then
      s.(items := s.items[i := it.(generation := saved.value, owner := None)], joins := s.joins - {c},
         failed := s.failed + {c})
    else
      s.(items := s.items[i := it.(processed := true, owner := None)], joins := s.joins[c := Removing(i, false)],
         failed := s.failed + {c})
  }

  function DoArmDone(s: Store, c: nat): Store
    requires JoinCan(s, c, ArmDone)
  {
    var i := s.joins[c].item;
    s.(joins := s.joins[c := Holding(i)],
       table := if s.joins[c].saved.Some? then Renew(s.table, s.calls[c].key, i) else s.table)
  }

  /** The value is stored and the callback of the call decides whether the item is complete. */
  function Accepting(it: Item, c: nat, call: Call, done: bool): Item {
    var values := Placed(it.values, call.index, call.value);
    Item(it.key, values, done, if done then it.generation + 1 else it.generation, None,
         it.accepted + [Arrival(c, call.index, call.value)], if done then it.finals + [values] else it.finals, it.claim)
  }

  function DoAccept(s: Store, c: nat, done: bool): Store
    requires JoinCan(s, c, Accept(done))
  {
    var i := s.joins[c].item;
    s.(items := s.items[i := Accepting(s.items[i], c, s.calls[c], done)],
       joins := if done then s.joins[c := Removing(i, false)] else s.joins - {c},
       placed := s.placed[c := i])
  }

  function DoCallBack(s: Store, c: nat): Store
    requires JoinCan(s, c, CallBack)
  {
    var i := s.joins[c].item;
    var it := s.items[i];
    s.(items := s.items[i := it.(finals := it.finals + [it.values], claim := Nobody)],
       joins := s.joins[c := Removing(i, true)])
  }

  function DoRemove(s: Store, c: nat): Store
    requires JoinCan(s, c, Remove)
  {
    s.(table := RemoveIfSame(s.table, s.calls[c].key, s.joins[c].item),
       joins := if s.joins[c].again then s.joins[c := Finding] else s.joins - {c})
  }

  function JoinDoes(s: Store, c: nat, act: JoinStep): Store
    requires JoinCan(s, c, act)
  {
    match act
    case Find => DoFind(s, c)
    case Create(timed) => DoCreate(s, c, timed)
    case Look(lapsed, renew) => DoLook(s, c, lapsed, renew)
    case ArmFails => DoArmFails(s, c)
    case ArmDone => DoArmDone(s, c)
    case Accept(done) => DoAccept(s, c, done)
    case CallBack => DoCallBack(s, c)
    case Remove => DoRemove(s, c)
  }

  predicate StoreCan(s: Store, step: StoreStep) {
    match step
    case Start(_) => s.phase == Created
    case Enter(_) => s.phase == Running
    case Expire(i, _) =>
      (s.phase == Running || s.phase == Stopping) && i < |s.items| && s.items[i].owner.None?
    case Report(t) => t in s.chores && s.chores[t].Reporting? && s.chores[t].item < |s.items|
    case Drop(t) => t in s.chores && s.chores[t].Dropping? && s.chores[t].item < |s.items|
    case RotateTable => s.phase == Running
    case BeginStop => s.phase != Stopping && s.phase != Stopped
    case StopReturns => s.phase == Stopping && s.joins == map[] && s.chores == map[]
  }

  /** expire(): an item of that generation that is not processed is claimed, in one section under its mutex. */
  function DoExpire(s: Store, i: nat, generation: nat): Store
    requires StoreCan(s, Expire(i, generation))
  {
    var it := s.items[i];
    if it.processed || it.generation != generation then s
    else s.(items := s.items[i := it.(processed := true, claim := ByTask(s.tasks))],
            chores := s.chores[s.tasks := Reporting(i)], tasks := s.tasks + 1)
  }

  function DoReport(s: Store, t: nat): Store
    requires StoreCan(s, Report(t))
  {
    var i := s.chores[t].item;
    var it := s.items[i];
    s.(items := s.items[i := it.(finals := it.finals + [it.values], claim := Nobody)],
       chores := s.chores[t := Dropping(i)])
  }

  function DoDrop(s: Store, t: nat): Store
    requires StoreCan(s, Drop(t))
  {
    var i := s.chores[t].item;
    s.(table := RemoveIfSame(s.table, s.items[i].key, i), chores := s.chores - {t})
  }

  function StoreDoes(s: Store, step: StoreStep): Store
    requires StoreCan(s, step)
  {
    match step
    case Start(ok) => s.(phase := if ok then Running else Failed)
    case Enter(call) => s.(calls := s.calls + [call], joins := s.joins[|s.calls| := Finding])
    case Expire(i, generation) => DoExpire(s, i, generation)
    case Report(t) => DoReport(s, t)
    case Drop(t) => DoDrop(s, t)
    case RotateTable => s.(table := Rotate(s.table))
    case BeginStop => s.(phase := Stopping)
    case StopReturns => s.(phase := Stopped, table := s.table.(current := map[], previous := map[], count := 0))
  }

  predicate Enabled(s: Store, step: Step) {
    match step
    case ByCall(c, act) => JoinCan(s, c, act)
    case ByStore(deed) => StoreCan(s, deed)
  }

  function Do(s: Store, step: Step): Store
    requires Enabled(s, step)
  {
    match step
    case ByCall(c, act) => JoinDoes(s, c, act)
    case ByStore(deed) => StoreDoes(s, deed)
  }

  /** The state after the steps, if each of them was possible. */
  function Run(steps: seq<Step>): Option<Store> {
    if steps == [] then Some(INITIAL) else
    var before, step := Run(steps[..|steps| - 1]), steps[|steps| - 1];
    if before.Some? && Enabled(before.value, step) then Some(Do(before.value, step)) else None
  }

  // ---------------------------------------------------------------- what an item has gathered

  /** The values that arrived for one column, in order. */
  function Column(accepted: seq<Arrival>, c: nat): seq<int> {
    if accepted == [] then [] else
    var rest, last := Column(accepted[..|accepted| - 1], c), accepted[|accepted| - 1];
    if last.index == c then rest + [last.value] else rest
  }

  function At(values: Columns, c: nat): seq<int> {
    if c < |values| then values[c] else []
  }

  /** Each column holds exactly the values accepted for it, in the order of acceptance. */
  ghost predicate Gathers(values: Columns, accepted: seq<Arrival>) {
    forall c: nat :: At(values, c) == Column(accepted, c)
  }

  lemma PlacedGathers(values: Columns, accepted: seq<Arrival>, a: Arrival)
    requires Gathers(values, accepted)
    ensures Gathers(Placed(values, a.index, a.value), accepted + [a])
  {
    var more := accepted + [a];
    assert more[..|accepted|] == accepted;
    forall c: nat ensures At(Placed(values, a.index, a.value), c) == Column(more, c) {
      assert At(values, c) == Column(accepted, c);
    }
  }

  lemma NothingGathered(size: nat)
    ensures Gathers(Resized([], size), [])
  {
  }

  // ---------------------------------------------------------------- what every step keeps

  predicate Locks(pc: Pc, i: nat) {
    (pc.Arming? || pc.Holding?) && pc.item == i
  }

  ghost predicate Sequential(accepted: seq<Arrival>) {
    forall a, b | 0 <= a < b < |accepted| :: accepted[a].call != accepted[b].call
  }

  /** An item by itself: a final callback runs at most once, on exactly what was accepted. */
  ghost predicate ItemSound(it: Item) {
    && Gathers(it.values, it.accepted)
    && Sequential(it.accepted)
    && (it.owner.Some? || it.claim != Nobody ==> it.finals == [])
    && (it.owner.Some? ==> !it.processed)
    && (!it.processed ==> it.finals == [] && it.claim == Nobody)
    && (it.finals == [] || it.finals == [it.values])
    && (it.processed && it.finals == [] && it.claim == Nobody ==> it.accepted == [])
  }

  ghost predicate ItemsSound(items: seq<Item>) {
    forall i | 0 <= i < |items| :: ItemSound(items[i])
  }

  /** An item that is not processed is in the table, under its key. */
  ghost predicate Listed(table: map<Key, nat>, i: nat, it: Item) {
    it.processed || (it.key in table && table[it.key] == i)
  }

  ghost predicate TableComplete(table: map<Key, nat>, items: seq<Item>) {
    forall i | 0 <= i < |items| :: Listed(table, i, items[i])
  }

  ghost predicate TableSound(table: map<Key, nat>, items: seq<Item>) {
    forall k | k in table :: table[k] < |items| && items[table[k]].key == k
  }

  ghost predicate Tabled(s: Store) {
    && Sound(s.table)
    && (s.phase != Stopped ==> TableComplete(Union(s.table), s.items))
    && TableSound(Union(s.table), s.items)
  }

  /** What the position of a call says about its item. */
  ghost predicate PcSound(items: seq<Item>, calls: seq<Call>, c: nat, pc: Pc) {
    && c < |calls|
    && (!pc.Finding? && !pc.Absent? ==>
          pc.item < |items| && items[pc.item].key == calls[c].key &&
          var it := items[pc.item];
          && (Locks(pc, pc.item) ==> it.owner == Some(c))
          && (pc.Arming? && pc.saved.None? ==> it.accepted == [])
          && (pc.Calling? ==> it.claim == ByJoin(c))
          && (pc.Removing? ==> it.processed))
  }

  ghost predicate JoinsSound(s: Store) {
    forall c | c in s.joins :: PcSound(s.items, s.calls, c, s.joins[c])
  }

  ghost predicate ChoreSound(items: seq<Item>, t: nat, chore: Chore) {
    && chore.item < |items|
    && (chore.Reporting? ==> items[chore.item].claim == ByTask(t))
    && (chore.Dropping? ==> items[chore.item].processed)
  }

  ghost predicate ChoresSound(s: Store) {
    forall t | t in s.chores :: t < s.tasks && ChoreSound(s.items, t, s.chores[t])
  }

  /** The holder of an item's mutex and whoever owes its callback are where they should be. */
  ghost predicate Attended(s: Store, i: nat, it: Item) {
    && (it.owner.Some? ==> it.owner.value in s.joins && Locks(s.joins[it.owner.value], i))
    && (it.claim.ByJoin? ==> it.claim.call in s.joins && s.joins[it.claim.call] == Calling(i))
    && (it.claim.ByTask? ==> it.claim.task in s.chores && s.chores[it.claim.task] == Reporting(i))
  }

  ghost predicate ItemsAttended(s: Store) {
    forall i | 0 <= i < |s.items| :: Attended(s, i, s.items[i])
  }

  /** The part of the invariant about items, calls and tasks. */
  ghost predicate Orderly(s: Store) {
    ItemsSound(s.items) && JoinsSound(s) && ChoresSound(s) && ItemsAttended(s)
  }

  ghost predicate Brought(it: Item, c: nat, call: Call) {
    it.key == call.key && Arrival(c, call.index, call.value) in it.accepted
  }

  /** Every arrival is recorded for its call. */
  ghost predicate ArrivalsRecorded(s: Store) {
    forall i, a | 0 <= i < |s.items| && a in s.items[i].accepted :: a.call in s.placed && s.placed[a.call] == i
  }

  /** The call has placed its value or failed, and only tidies up. */
  predicate Late(pc: Pc) {
    pc.Removing? && !pc.again
  }

  /** A value that was placed is in its item. */
  ghost predicate ValuesBrought(s: Store) {
    forall c | c in s.placed :: c < |s.calls| && s.placed[c] < |s.items| && Brought(s.items[s.placed[c]], c, s.calls[c])
  }

  /** Every call is under way, has placed its value, once, or has failed. */
  ghost predicate CallsSettled(s: Store) {
    && (forall c | c in s.failed :: c < |s.calls| && c !in s.placed)
    && (forall c | 0 <= c < |s.calls| :: c in s.joins || c in s.placed || c in s.failed)
    && (forall c | c in s.joins :: Late(s.joins[c]) <==> c in s.placed || c in s.failed)
  }

  ghost predicate Accounted(s: Store) {
    ArrivalsRecorded(s) && ValuesBrought(s) && CallsSettled(s)
  }

  /** No two items of one key are open. */
  ghost predicate OneOpenPerKey(items: seq<Item>) {
    forall i, j | 0 <= i < j < |items| && !items[i].processed && !items[j].processed :: items[i].key != items[j].key
  }

  /** The phases: no call before start(), none left after stop(). */
  ghost predicate Phased(s: Store) {
    && (s.phase == Created || s.phase == Failed ==> s.calls == [])
    && (s.phase == Stopped ==> s.joins == map[] && s.chores == map[] && Union(s.table) == map[])
  }

  ghost predicate Inv(s: Store) {
    Tabled(s) && OneOpenPerKey(s.items) && Orderly(s) && Accounted(s) && Phased(s)
  }

  /** What a step by `who` may do to an item that others are concerned with. */
  ghost predicate Mild(a: Item, b: Item, who: Claim) {
    && b.key == a.key
    && (a.processed ==> b.processed)
    && (a.owner.Some? && ByJoin(a.owner.value) != who ==> b.owner == a.owner && b.accepted == a.accepted)
    && (a.claim != Nobody && a.claim != who ==> b.claim == a.claim)
  }

  /** A step by `who` that touches no other item than `i`, and no other call or task than its own. */
  ghost predicate Untouched(s: Store, r: Store, i: nat, who: Claim) {
    && r.calls == s.calls && s.tasks <= r.tasks
    && |s.items| <= |r.items|
    && (|s.items| < |r.items| ==> i == |s.items| && |r.items| == i + 1)
    && (forall j | 0 <= j < |s.items| && j != i :: r.items[j] == s.items[j])
    && (i < |s.items| ==> Mild(s.items[i], r.items[i], who))
    && (forall d | d in s.joins && ByJoin(d) != who :: d in r.joins && r.joins[d] == s.joins[d])
    && (forall d | d in r.joins && ByJoin(d) != who :: d in s.joins)
    && (forall t | t in s.chores && ByTask(t) != who :: t in r.chores && r.chores[t] == s.chores[t])
    && (forall t | t in r.chores && ByTask(t) != who :: t in s.chores)
  }

  lemma JoinsKept(s: Store, r: Store, i: nat, who: Claim)
    requires JoinsSound(s) && Untouched(s, r, i, who)
    requires who.ByJoin? && who.call in r.joins ==> PcSound(r.items, r.calls, who.call, r.joins[who.call])
    ensures JoinsSound(r)
  {
    forall c | c in r.joins ensures PcSound(r.items, r.calls, c, r.joins[c]) {
      if ByJoin(c) != who {
        assert PcSound(s.items, s.calls, c, s.joins[c]);
      }
    }
  }

  lemma ChoresKept(s: Store, r: Store, i: nat, who: Claim)
    requires ChoresSound(s) && Untouched(s, r, i, who)
    requires who.ByTask? && who.task in r.chores ==>
               who.task < r.tasks && ChoreSound(r.items, who.task, r.chores[who.task])
    ensures ChoresSound(r)
  {
    forall t | t in r.chores ensures t < r.tasks && ChoreSound(r.items, t, r.chores[t]) {
      if ByTask(t) != who {
        assert ChoreSound(s.items, t, s.chores[t]);
      }
    }
  }

  /** The actor holds or owes nothing but what concerns item `i`. */
  ghost predicate ConcernedWith(s: Store, i: nat, who: Claim) {
    && (who.ByJoin? && who.call in s.joins
        && (s.joins[who.call].Arming? || s.joins[who.call].Holding? || s.joins[who.call].Calling?) ==>
          s.joins[who.call].item == i)
    && (who.ByTask? && who.task in s.chores && s.chores[who.task].Reporting? ==> s.chores[who.task].item == i)
  }

  lemma AttendedKept(s: Store, r: Store, i: nat, who: Claim)
    requires ItemsAttended(s) && Untouched(s, r, i, who) && ConcernedWith(s, i, who)
    requires i < |r.items| ==> Attended(r, i, r.items[i])
    ensures ItemsAttended(r)
  {
    forall j | 0 <= j < |r.items| ensures Attended(r, j, r.items[j]) {
      if j != i {
        assert Attended(s, j, s.items[j]);
      }
    }
  }

  lemma ItemsKept(s: Store, r: Store, i: nat, who: Claim)
    requires ItemsSound(s.items) && Untouched(s, r, i, who)
    requires i < |r.items| ==> ItemSound(r.items[i])
    ensures ItemsSound(r.items)
  {
    forall j | 0 <= j < |r.items| ensures ItemSound(r.items[j]) {
      if j != i {
        assert ItemSound(s.items[j]);
      }
    }
  }

  lemma OrderlyKept(s: Store, r: Store, i: nat, who: Claim)
    requires Orderly(s) && Untouched(s, r, i, who) && ConcernedWith(s, i, who)
    requires who.ByJoin? && who.call in r.joins ==> PcSound(r.items, r.calls, who.call, r.joins[who.call])
    requires who.ByTask? && who.task in r.chores ==>
               who.task < r.tasks && ChoreSound(r.items, who.task, r.chores[who.task])
    requires i < |r.items| ==> ItemSound(r.items[i]) && Attended(r, i, r.items[i])
    ensures Orderly(r)
  {
    ItemsKept(s, r, i, who);
    JoinsKept(s, r, i, who);
    ChoresKept(s, r, i, who);
    AttendedKept(s, r, i, who);
    hide *;
  }

  /** A call that has changed one item and its own position has touched nothing else. */
  lemma JoinTouches(s: Store, r: Store, c: nat, i: nat)
    requires r.calls == s.calls && r.tasks == s.tasks && r.chores == s.chores
    requires i < |s.items| == |r.items| && r.items == s.items[i := r.items[i]]
    requires Mild(s.items[i], r.items[i], ByJoin(c))
    requires r.joins == s.joins - {c} || (c in r.joins && r.joins == s.joins[c := r.joins[c]])
    ensures Untouched(s, r, i, ByJoin(c))
  {
    hide Mild;
  }

  /** An expiry task, in the same way. */
  lemma TaskTouches(s: Store, r: Store, t: nat, i: nat)
    requires r.calls == s.calls && s.tasks <= r.tasks && r.joins == s.joins
    requires i < |s.items| == |r.items| && r.items == s.items[i := r.items[i]]
    requires Mild(s.items[i], r.items[i], ByTask(t))
    requires r.chores == s.chores - {t} || (t in r.chores && r.chores == s.chores[t := r.chores[t]])
    ensures Untouched(s, r, i, ByTask(t))
  {
    hide Mild;
  }

  /** What is known of a call and of the item it is concerned with. */
  lemma CallAndItem(s: Store, c: nat)
    requires Orderly(s) && c in s.joins && !s.joins[c].Finding? && !s.joins[c].Absent?
    ensures PcSound(s.items, s.calls, c, s.joins[c]) && s.joins[c].item < |s.items|
    ensures var i := s.joins[c].item; ItemSound(s.items[i]) && Attended(s, i, s.items[i])
  {
    hide ItemSound, Attended;
    assert PcSound(s.items, s.calls, c, s.joins[c]);
  }

  /** The call only goes somewhere else. */
  lemma FoundOrderly(s: Store, c: nat, r: Store)
    requires Orderly(s) && c in s.joins && !s.joins[c].Arming? && !s.joins[c].Holding? && !s.joins[c].Calling?
    requires c in r.joins && r == s.(joins := s.joins[c := r.joins[c]]) && PcSound(r.items, r.calls, c, r.joins[c])
    ensures Orderly(r)
  {
    hide Orderly, PcSound;
    OrderlyKept(s, r, |s.items|, ByJoin(c));
  }

  lemma FindOrderly(s: Store, c: nat)
    requires Orderly(s) && TableSound(Union(s.table), s.items) && JoinCan(s, c, Find)
    ensures Orderly(DoFind(s, c))
  {
    hide Union, Orderly;
    FoundOrderly(s, c, DoFind(s, c));
  }

  lemma NewItemSound(call: Call, c: nat, timed: bool)
    ensures ItemSound(NewItem(call, c, timed))
  {
    NothingGathered(call.index + 1);
    hide Gathers, Resized;
  }

  /** A call that has added an item has touched no other. */
  lemma CreateTouches(s: Store, c: nat, timed: bool)
    requires JoinCan(s, c, Create(timed)) && s.calls[c].key !in Union(s.table)
    ensures var i, r := |s.items|, DoCreate(s, c, timed);
            && Untouched(s, r, i, ByJoin(c)) && Attended(r, i, r.items[i])
            && PcSound(r.items, r.calls, c, r.joins[c])
  {
    hide Union, Insert, Resized;
  }

  lemma CreateOrderly(s: Store, c: nat, timed: bool)
    requires Orderly(s) && TableSound(Union(s.table), s.items) && JoinCan(s, c, Create(timed))
    ensures Orderly(DoCreate(s, c, timed))
  {
    hide Union, Insert, Orderly, Untouched, Attended, ItemSound, NewItem;
    var r := DoCreate(s, c, timed);
    if s.calls[c].key in Union(s.table) {
      assert PcSound(r.items, r.calls, c, r.joins[c]);
      FoundOrderly(s, c, r);
    } else {
      CreateTouches(s, c, timed);
      NewItemSound(s.calls[c], c, timed);
      hide PcSound;
      OrderlyKept(s, r, |s.items|, ByJoin(c));
    }
  }

  lemma LookMild(s: Store, c: nat, lapsed: bool, renew: bool)
    requires JoinCan(s, c, Look(lapsed, renew)) && ItemSound(s.items[s.joins[c].item])
    ensures var i, r := s.joins[c].item, DoLook(s, c, lapsed, renew);
            && |r.items| == |s.items| && r.items == s.items[i := r.items[i]]
            && Mild(s.items[i], r.items[i], ByJoin(c)) && ItemSound(r.items[i])
  {
    hide Gathers, Sequential;
    assert s.items[s.joins[c].item := s.items[s.joins[c].item]] == s.items;
  }

  /** Where the call goes on. */
  lemma LookSound(s: Store, c: nat, lapsed: bool, renew: bool)
    requires JoinCan(s, c, Look(lapsed, renew)) && PcSound(s.items, s.calls, c, s.joins[c])
    requires var i := s.joins[c].item;
             Attended(s, i, s.items[i]) && (!s.items[i].processed ==> s.items[i].claim == Nobody)
    ensures var i, r := s.joins[c].item, DoLook(s, c, lapsed, renew);
            && PcSound(r.items, r.calls, c, r.joins[c]) && Attended(r, i, r.items[i])
            && r.calls == s.calls && r.tasks == s.tasks && r.chores == s.chores
            && r.joins == s.joins[c := r.joins[c]]
  {
  }

  lemma LookOrderly(s: Store, c: nat, lapsed: bool, renew: bool)
    requires Orderly(s) && JoinCan(s, c, Look(lapsed, renew))
    ensures Orderly(DoLook(s, c, lapsed, renew))
  {
    var i, r := s.joins[c].item, DoLook(s, c, lapsed, renew);
    CallAndItem(s, c);
    hide Orderly, Mild, Untouched;
    LookMild(s, c, lapsed, renew);
    LookSound(s, c, lapsed, renew);
    assert ConcernedWith(s, i, ByJoin(c));
    hide ItemSound, DoLook, PcSound, Attended;
    JoinTouches(s, r, c, i);
    OrderlyKept(s, r, i, ByJoin(c));
  }

  lemma ArmFailsOrderly(s: Store, c: nat)
    requires Orderly(s) && JoinCan(s, c, ArmFails)
    ensures Orderly(DoArmFails(s, c))
  {
    var i, r := s.joins[c].item, DoArmFails(s, c);
    CallAndItem(s, c);
    hide Orderly, Untouched, Gathers, Sequential;
    JoinTouches(s, r, c, i);
    OrderlyKept(s, r, i, ByJoin(c));
  }

  lemma ArmDoneOrderly(s: Store, c: nat)
    requires Orderly(s) && JoinCan(s, c, ArmDone)
    ensures Orderly(DoArmDone(s, c))
  {
    var i, r := s.joins[c].item, DoArmDone(s, c);
    CallAndItem(s, c);
    hide Orderly, Untouched, ItemSound;
    assert s.items[i := s.items[i]] == s.items;
    JoinTouches(s, r, c, i);
    OrderlyKept(s, r, i, ByJoin(c));
  }

  lemma AcceptingSound(it: Item, c: nat, call: Call, done: bool)
    requires ItemSound(it) && !it.processed && forall a | a in it.accepted :: a.call != c
    ensures ItemSound(Accepting(it, c, call, done))
  {
    PlacedGathers(it.values, it.accepted, Arrival(c, call.index, call.value));
    hide Gathers, Placed;
  }

  /** A call that has not placed its value is not among an item's arrivals. */
  lemma NotYetArrived(s: Store, c: nat)
    requires Accounted(s) && c in s.joins && s.joins[c].Holding? && s.joins[c].item < |s.items|
    ensures forall a | a in s.items[s.joins[c].item].accepted :: a.call != c
  {
  }

  /** The item and the call after the value was taken over. */
  lemma AcceptSound(s: Store, c: nat, done: bool)
    requires JoinCan(s, c, Accept(done)) && PcSound(s.items, s.calls, c, s.joins[c])
    requires var it := s.items[s.joins[c].item]; !it.processed && it.claim == Nobody && it.owner == Some(c)
    ensures var i, r := s.joins[c].item, DoAccept(s, c, done);
            && Mild(s.items[i], r.items[i], ByJoin(c)) && Attended(r, i, r.items[i])
            && (c in r.joins ==> PcSound(r.items, r.calls, c, r.joins[c]))
  {
    hide Placed;
  }

  lemma AcceptOrderly(s: Store, c: nat, done: bool)
    requires Orderly(s) && JoinCan(s, c, Accept(done))
    requires forall a | a in s.items[s.joins[c].item].accepted :: a.call != c
    ensures Orderly(DoAccept(s, c, done))
  {
    var i, r := s.joins[c].item, DoAccept(s, c, done);
    CallAndItem(s, c);
    assert !s.items[i].processed && s.items[i].claim == Nobody && s.items[i].owner == Some(c);
    hide Orderly, Untouched, ItemSound, Mild, Attended, PcSound, Accepting;
    AcceptingSound(s.items[i], c, s.calls[c], done);
    AcceptSound(s, c, done);
    JoinTouches(s, r, c, i);
    OrderlyKept(s, r, i, ByJoin(c));
  }

  lemma CallBackOrderly(s: Store, c: nat)
    requires Orderly(s) && JoinCan(s, c, CallBack)
    ensures Orderly(DoCallBack(s, c))
  {
    var i, r := s.joins[c].item, DoCallBack(s, c);
    CallAndItem(s, c);
    hide Orderly, Untouched, Gathers, Sequential;
    assert ItemSound(r.items[i]) && Mild(s.items[i], r.items[i], ByJoin(c));
    assert PcSound(r.items, r.calls, c, r.joins[c]) && Attended(r, i, r.items[i]);
    hide ItemSound, Mild, PcSound, Attended;
    JoinTouches(s, r, c, i);
    OrderlyKept(s, r, i, ByJoin(c));
  }

  lemma RemoveOrderly(s: Store, c: nat)
    requires Orderly(s) && JoinCan(s, c, Remove)
    ensures Orderly(DoRemove(s, c))
  {
    var i, r := s.joins[c].item, DoRemove(s, c);
    CallAndItem(s, c);
    hide Orderly, Untouched, ItemSound, RemoveIfSame;
    assert s.items[i := s.items[i]] == s.items;
    JoinTouches(s, r, c, i);
    OrderlyKept(s, r, i, ByJoin(c));
  }

  lemma ExpireOrderly(s: Store, i: nat, generation: nat)
    requires Orderly(s) && StoreCan(s, Expire(i, generation))
    ensures Orderly(DoExpire(s, i, generation))
  {
    var r := DoExpire(s, i, generation);
    assert ItemSound(s.items[i]) && Attended(s, i, s.items[i]);
    assert s.tasks !in s.chores;
    hide Orderly, Untouched, Gathers, Sequential;
    if r != s {
      TaskTouches(s, r, s.tasks, i);
      OrderlyKept(s, r, i, ByTask(s.tasks));
    }
  }

  lemma ReportOrderly(s: Store, t: nat)
    requires Orderly(s) && StoreCan(s, Report(t))
    ensures Orderly(DoReport(s, t))
  {
    var i, r := s.chores[t].item, DoReport(s, t);
    assert t < s.tasks && ChoreSound(s.items, t, s.chores[t]);
    assert ItemSound(s.items[i]) && Attended(s, i, s.items[i]);
    hide Orderly, Untouched, Gathers, Sequential;
    TaskTouches(s, r, t, i);
    OrderlyKept(s, r, i, ByTask(t));
  }

  lemma DropOrderly(s: Store, t: nat)
    requires Orderly(s) && StoreCan(s, Drop(t))
    ensures Orderly(DoDrop(s, t))
  {
    var i, r := s.chores[t].item, DoDrop(s, t);
    assert ItemSound(s.items[i]) && Attended(s, i, s.items[i]);
    hide Orderly, Untouched, ItemSound, RemoveIfSame;
    assert s.items[i := s.items[i]] == s.items;
    TaskTouches(s, r, t, i);
    OrderlyKept(s, r, i, ByTask(t));
  }

  lemma EnterOrderly(s: Store, call: Call)
    requires Orderly(s) && StoreCan(s, Enter(call))
    ensures Orderly(StoreDoes(s, Enter(call)))
  {
    var r := StoreDoes(s, Enter(call));
    forall c | c in r.joins ensures PcSound(r.items, r.calls, c, r.joins[c]) {
      if c in s.joins { assert PcSound(s.items, s.calls, c, s.joins[c]); }
    }
    forall i | 0 <= i < |r.items| ensures Attended(r, i, r.items[i]) {
      assert Attended(s, i, s.items[i]);
    }
  }

  /** The new state has the same items, calls and tasks. */
  lemma SameOrder(s: Store, r: Store)
    requires Orderly(s) && r.items == s.items && r.calls == s.calls && r.joins == s.joins && r.chores == s.chores
    requires r.tasks == s.tasks
    ensures Orderly(r)
  {
    OrderlyKept(s, r, |s.items|, Nobody);
  }

  lemma StoreOrderly(s: Store, step: StoreStep)
    requires Orderly(s) && StoreCan(s, step)
    ensures Orderly(StoreDoes(s, step))
  {
    hide Orderly, DoExpire, DoReport, DoDrop, Rotate;
    match step
    case Enter(call) => EnterOrderly(s, call);
    case Expire(i, generation) => ExpireOrderly(s, i, generation);
    case Report(t) => ReportOrderly(s, t);
    case Drop(t) => DropOrderly(s, t);
    case Start(_) => SameOrder(s, StoreDoes(s, step));
    case RotateTable => SameOrder(s, StoreDoes(s, step));
    case BeginStop => SameOrder(s, StoreDoes(s, step));
    case StopReturns => SameOrder(s, StoreDoes(s, step));
  }

  lemma JoinOrderly(s: Store, c: nat, act: JoinStep)
    requires Inv(s) && JoinCan(s, c, act)
    ensures Orderly(JoinDoes(s, c, act))
  {
    hide Orderly, Accounted, TableSound, TableComplete;
    hide DoFind, DoCreate, DoLook, DoArmFails, DoArmDone, DoAccept, DoCallBack, DoRemove;
    match act
    case Find => FindOrderly(s, c);
    case Create(timed) => CreateOrderly(s, c, timed);
    case Look(lapsed, renew) => LookOrderly(s, c, lapsed, renew);
    case ArmFails => ArmFailsOrderly(s, c);
    case ArmDone => ArmDoneOrderly(s, c);
    case Accept(done) => NotYetArrived(s, c); AcceptOrderly(s, c, done);
    case CallBack => CallBackOrderly(s, c);
    case Remove => RemoveOrderly(s, c);
  }

  // ---------------------------------------------------------------- the table

  ghost predicate Indexes(table: map<Key, nat>, items: seq<Item>) {
    TableComplete(table, items) && TableSound(table, items)
  }

  lemma IndexesNew(table: map<Key, nat>, items: seq<Item>, it: Item, n: nat)
    requires Indexes(table, items) && it.key !in table && n == |items|
    ensures Indexes(table[it.key := n], items + [it])
  {
    forall j | 0 <= j < |items| ensures Listed(table[it.key := n], j, items[j]) {
      assert Listed(table, j, items[j]);
    }
  }

  lemma IndexesWithout(table: map<Key, nat>, items: seq<Item>, key: Key, i: nat)
    requires Indexes(table, items) && i < |items| && items[i].processed && key in table && table[key] == i
    ensures Indexes(table - {key}, items)
  {
    forall j | 0 <= j < |items| ensures Listed(table - {key}, j, items[j]) {
      assert Listed(table, j, items[j]);
    }
  }

  /** The keys of the items stay; items may become processed. */
  lemma IndexesStill(table: map<Key, nat>, items: seq<Item>, more: seq<Item>)
    requires |more| == |items|
    requires forall i | 0 <= i < |items| ::
               more[i].key == items[i].key && (items[i].processed ==> more[i].processed)
    ensures TableSound(table, items) ==> TableSound(table, more)
    ensures TableComplete(table, items) ==> TableComplete(table, more)
  {
    if TableComplete(table, items) {
      forall i | 0 <= i < |more| ensures Listed(table, i, more[i]) {
        assert Listed(table, i, items[i]);
      }
    }
  }

  lemma SameTable(s: Store, r: Store)
    requires Tabled(s) && r.table == s.table && (s.phase == Stopped ==> r.phase == Stopped) && |r.items| == |s.items|
    requires forall i | 0 <= i < |s.items| ::
               r.items[i].key == s.items[i].key && (s.items[i].processed ==> r.items[i].processed)
    ensures Tabled(r)
  {
    hide Union, Sound, TableSound, TableComplete;
    IndexesStill(Union(s.table), s.items, r.items);
  }

  lemma CreateTabled(s: Store, c: nat, timed: bool)
    requires Tabled(s) && JoinCan(s, c, Create(timed)) && s.phase != Stopped
    ensures Tabled(DoCreate(s, c, timed))
  {
    hide Sound, TableSound, TableComplete, Resized, Insert, Union;
    if s.calls[c].key !in Union(s.table) {
      InsertIsInsert(s.table, s.calls[c].key, |s.items|);
      IndexesNew(Union(s.table), s.items, NewItem(s.calls[c], c, timed), |s.items|);
    }
  }

  lemma ArmDoneTabled(s: Store, c: nat)
    requires Tabled(s) && JoinCan(s, c, ArmDone)
    ensures Tabled(DoArmDone(s, c))
  {
    hide Union, Sound, Renew;
    RenewIsInvisible(s.table, s.calls[c].key, s.joins[c].item);
  }

  /** Removing a processed item from the table. */
  lemma RemovalTabled(s: Store, r: Store, key: Key, i: nat)
    requires Tabled(s) && i < |s.items| && s.items[i].processed && r.items == s.items && r.phase == s.phase
    requires r.table == RemoveIfSame(s.table, key, i) && s.phase != Stopped
    ensures Tabled(r)
  {
    hide Union, Sound, RemoveIfSame, TableComplete, TableSound;
    RemoveIsRemove(s.table, key, i);
    if Holds(s.table, key, i) {
      IndexesWithout(Union(s.table), s.items, key, i);
    }
  }

  lemma RotateTabled(s: Store)
    requires Tabled(s) && s.phase == Running
    ensures Tabled(s.(table := Rotate(s.table)))
  {
    hide Union, Sound, Rotate;
    RotateIsInvisible(s.table);
  }

  lemma StopTabled(s: Store)
    requires StoreCan(s, StopReturns)
    ensures Tabled(StoreDoes(s, StopReturns))
  {
  }

  lemma LookTabled(s: Store, c: nat, lapsed: bool, renew: bool)
    requires Tabled(s) && JoinCan(s, c, Look(lapsed, renew))
    ensures Tabled(DoLook(s, c, lapsed, renew))
  {
    hide Tabled;
    SameTable(s, DoLook(s, c, lapsed, renew));
  }

  lemma ArmFailsTabled(s: Store, c: nat)
    requires Tabled(s) && JoinCan(s, c, ArmFails)
    ensures Tabled(DoArmFails(s, c))
  {
    hide Tabled;
    SameTable(s, DoArmFails(s, c));
  }

  lemma AcceptTabled(s: Store, c: nat, done: bool)
    requires Tabled(s) && JoinCan(s, c, Accept(done)) && !s.items[s.joins[c].item].processed
    ensures Tabled(DoAccept(s, c, done))
  {
    hide Tabled, Placed;
    SameTable(s, DoAccept(s, c, done));
  }

  lemma CallBackTabled(s: Store, c: nat)
    requires Tabled(s) && JoinCan(s, c, CallBack)
    ensures Tabled(DoCallBack(s, c))
  {
    hide Tabled;
    SameTable(s, DoCallBack(s, c));
  }

  lemma RemoveTabled(s: Store, c: nat)
    requires Tabled(s) && JoinCan(s, c, Remove) && s.phase != Stopped && s.items[s.joins[c].item].processed
    ensures Tabled(DoRemove(s, c))
  {
    hide Tabled;
    RemovalTabled(s, DoRemove(s, c), s.calls[c].key, s.joins[c].item);
  }

  lemma JoinTabled(s: Store, c: nat, act: JoinStep)
    requires Tabled(s) && Orderly(s) && JoinCan(s, c, act) && s.phase != Stopped
    ensures Tabled(JoinDoes(s, c, act))
  {
    assert PcSound(s.items, s.calls, c, s.joins[c]);
    assert act.Accept? ==> ItemSound(s.items[s.joins[c].item]);
    hide Tabled, JoinsSound, ItemsSound, ItemsAttended, ChoresSound, Gathers, Sequential;
    hide DoFind, DoCreate, DoLook, DoArmFails, DoArmDone, DoAccept, DoCallBack, DoRemove;
    match act
    case Find => FindTabled(s, c);
    case Create(timed) => CreateTabled(s, c, timed);
    case Look(lapsed, renew) => LookTabled(s, c, lapsed, renew);
    case ArmFails => ArmFailsTabled(s, c);
    case ArmDone => ArmDoneTabled(s, c);
    case Accept(done) => AcceptTabled(s, c, done);
    case CallBack => CallBackTabled(s, c);
    case Remove => RemoveTabled(s, c);
  }

  lemma FindTabled(s: Store, c: nat)
    requires Tabled(s) && JoinCan(s, c, Find)
    ensures Tabled(DoFind(s, c))
  {
    hide Tabled;
    SameTable(s, DoFind(s, c));
  }

  lemma StoreTabled(s: Store, step: StoreStep)
    requires Tabled(s) && ChoresSound(s) && StoreCan(s, step) && (s.phase == Stopped ==> s.chores == map[])
    ensures Tabled(StoreDoes(s, step))
  {
    hide Tabled;
    var r := StoreDoes(s, step);
    match step
    case Drop(t) =>
      assert ChoreSound(s.items, t, s.chores[t]);
      RemovalTabled(s, r, s.items[s.chores[t].item].key, s.chores[t].item);
    case RotateTable => RotateTabled(s);
    case StopReturns => StopTabled(s);
    case Start(_) => SameTable(s, r);
    case Enter(_) => SameTable(s, r);
    case Expire(_, _) => SameTable(s, r);
    case Report(_) => SameTable(s, r);
    case BeginStop => SameTable(s, r);
  }

  // ---------------------------------------------------------------- the account of the calls

  /** Nothing is placed and no call fails; calls may go on, or end once they are late. */
  lemma SameAccount(s: Store, r: Store)
    requires Accounted(s) && r.calls == s.calls && r.placed == s.placed && r.failed == s.failed
    requires |s.items| <= |r.items|
    requires forall i | 0 <= i < |s.items| ::
               r.items[i].key == s.items[i].key && r.items[i].accepted == s.items[i].accepted
    requires forall i | |s.items| <= i < |r.items| :: r.items[i].accepted == []
    requires forall c | c in s.joins :: if c in r.joins then Late(r.joins[c]) == Late(s.joins[c]) else Late(s.joins[c])
    requires forall c | c in r.joins :: c in s.joins
    ensures Accounted(r)
  {
  }

  lemma AcceptRecorded(s: Store, c: nat, done: bool)
    requires Accounted(s) && JoinCan(s, c, Accept(done))
    ensures ArrivalsRecorded(DoAccept(s, c, done))
  {
    hide Placed;
    var i, r := s.joins[c].item, DoAccept(s, c, done);
    assert c !in s.placed;
    hide ValuesBrought, CallsSettled;
    forall j, a | 0 <= j < |r.items| && a in r.items[j].accepted
      ensures a.call in r.placed && r.placed[a.call] == j
    {
      assert (a.call == c && j == i) || a in s.items[j].accepted;
    }
  }

  lemma AcceptBrings(s: Store, c: nat, done: bool)
    requires ValuesBrought(s) && JoinsSound(s) && JoinCan(s, c, Accept(done))
    ensures ValuesBrought(DoAccept(s, c, done))
  {
    assert PcSound(s.items, s.calls, c, s.joins[c]);
    hide JoinsSound, Placed;
    var i, call, r := s.joins[c].item, s.calls[c], DoAccept(s, c, done);
    assert r.items[i].accepted == s.items[i].accepted + [Arrival(c, call.index, call.value)];
    forall d | d in r.placed
      ensures d < |r.calls| && r.placed[d] < |r.items| && Brought(r.items[r.placed[d]], d, r.calls[d])
    {
      assert d == c || Brought(s.items[s.placed[d]], d, s.calls[d]);
    }
  }

  lemma AcceptSettles(s: Store, c: nat, done: bool)
    requires CallsSettled(s) && JoinCan(s, c, Accept(done))
    ensures CallsSettled(DoAccept(s, c, done))
  {
    hide Accepting;
  }

  lemma ArmFailsAccounted(s: Store, c: nat)
    requires Accounted(s) && JoinCan(s, c, ArmFails)
    ensures Accounted(DoArmFails(s, c))
  {
    var r := DoArmFails(s, c);
    assert CallsSettled(r);
    hide CallsSettled;
    assert forall d | d in s.placed :: Brought(r.items[s.placed[d]], d, s.calls[d]);
  }

  lemma EnterAccounted(s: Store, call: Call)
    requires Accounted(s) && StoreCan(s, Enter(call))
    ensures Accounted(StoreDoes(s, Enter(call)))
  {
  }

  lemma CreateAccounted(s: Store, c: nat, timed: bool)
    requires Accounted(s) && JoinCan(s, c, Create(timed))
    ensures Accounted(DoCreate(s, c, timed))
  {
    hide Accounted, Union, Insert;
    SameAccount(s, DoCreate(s, c, timed));
  }

  lemma LookAccounted(s: Store, c: nat, lapsed: bool, renew: bool)
    requires Accounted(s) && JoinCan(s, c, Look(lapsed, renew))
    ensures Accounted(DoLook(s, c, lapsed, renew))
  {
    hide Accounted;
    SameAccount(s, DoLook(s, c, lapsed, renew));
  }

  lemma QuietAccounted(s: Store, c: nat, act: JoinStep)
    requires Accounted(s) && JoinCan(s, c, act) && (act.Find? || act.ArmDone? || act.CallBack? || act.Remove?)
    ensures Accounted(JoinDoes(s, c, act))
  {
    hide Accounted, Union, RemoveIfSame, Renew;
    SameAccount(s, JoinDoes(s, c, act));
  }

  lemma JoinAccounted(s: Store, c: nat, act: JoinStep)
    requires Accounted(s) && Orderly(s) && JoinCan(s, c, act)
    ensures Accounted(JoinDoes(s, c, act))
  {
    hide ItemsSound, ChoresSound, ItemsAttended, JoinsSound, DoAccept, DoArmFails, DoCreate, DoLook;
    match act
    case Accept(done) =>
      AcceptRecorded(s, c, done);
      AcceptBrings(s, c, done);
      AcceptSettles(s, c, done);
    case ArmFails => ArmFailsAccounted(s, c);
    case Create(timed) => CreateAccounted(s, c, timed);
    case Look(lapsed, renew) => LookAccounted(s, c, lapsed, renew);
    case _ => QuietAccounted(s, c, act);
  }

  lemma StoreAccounted(s: Store, step: StoreStep)
    requires Accounted(s) && StoreCan(s, step)
    ensures Accounted(StoreDoes(s, step))
  {
    hide Accounted;
    if step.Enter? {
      EnterAccounted(s, step.call);
    } else {
      hide RemoveIfSame, Rotate;
      SameAccount(s, StoreDoes(s, step));
    }
  }

  // ---------------------------------------------------------------- every run

  lemma ListedOnce(table: map<Key, nat>, items: seq<Item>)
    requires TableComplete(table, items)
    ensures OneOpenPerKey(items)
  {
    assert forall i | 0 <= i < |items| :: Listed(table, i, items[i]);
  }

  lemma SamePhase(s: Store, c: nat, act: JoinStep)
    requires Phased(s) && JoinCan(s, c, act)
    ensures JoinDoes(s, c, act).phase == s.phase && (s.phase == Running || s.phase == Stopping)
  {
    hide Union, Insert, Renew, RemoveIfSame, Accepting;
  }

  lemma JoinKeeps(s: Store, c: nat, act: JoinStep)
    requires Inv(s) && JoinCan(s, c, act)
    ensures Inv(JoinDoes(s, c, act))
  {
    hide JoinDoes, JoinCan, Union, Sound, Orderly, Accounted, OneOpenPerKey, TableComplete, TableSound;
    SamePhase(s, c, act);
    JoinTabled(s, c, act);
    JoinOrderly(s, c, act);
    JoinAccounted(s, c, act);
    ListedOnce(Union(JoinDoes(s, c, act).table), JoinDoes(s, c, act).items);
  }

  lemma StorePhased(s: Store, step: StoreStep)
    requires Phased(s) && StoreCan(s, step)
    ensures Phased(StoreDoes(s, step))
    ensures StoreDoes(s, step).phase == Stopped ==> StoreDoes(s, step).items == s.items
  {
    hide Rotate, RemoveIfSame;
  }

  lemma StoreKeeps(s: Store, step: StoreStep)
    requires Inv(s) && StoreCan(s, step)
    ensures Inv(StoreDoes(s, step))
  {
    hide StoreDoes, StoreCan, Union, Sound, Accounted, OneOpenPerKey, TableComplete, TableSound;
    hide ItemsSound, JoinsSound, ChoresSound, ItemsAttended;
    var r := StoreDoes(s, step);
    StorePhased(s, step);
    StoreTabled(s, step);
    StoreOrderly(s, step);
    StoreAccounted(s, step);
    if r.phase != Stopped { ListedOnce(Union(r.table), r.items); }
  }

  lemma StepKeeps(s: Store, step: Step)
    requires Inv(s) && Enabled(s, step)
    ensures Inv(Do(s, step))
  {
    hide Inv, JoinCan, JoinDoes, StoreCan, StoreDoes;
    match step
    case ByCall(c, act) => JoinKeeps(s, c, act);
    case ByStore(deed) => StoreKeeps(s, deed);
  }

  lemma InitiallyHolds()
    ensures Inv(INITIAL)
  {
  }

  lemma {:induction false} RunKeeps(steps: seq<Step>)
    requires Run(steps).Some?
    ensures Inv(Run(steps).value)
  {
    hide Inv, Do, Enabled;
    if steps == [] {
      InitiallyHolds();
    } else {
      RunKeeps(steps[..|steps| - 1]);
      StepKeeps(Run(steps[..|steps| - 1]).value, steps[|steps| - 1]);
    }
  }

  // ---------------------------------------------------------------- main results

  /** In every reachable state, at most one item of a key is unprocessed. */
  lemma AtMostOneOpenItem(steps: seq<Step>, i: nat, j: nat)
    requires Run(steps).Some? && i < j < |Run(steps).value.items|
    requires !Run(steps).value.items[i].processed && !Run(steps).value.items[j].processed
    ensures Run(steps).value.items[i].key != Run(steps).value.items[j].key
  {
    hide Tabled, Orderly, Accounted;
    RunKeeps(steps);
  }

  /** Where the value of a call went. */
  ghost predicate InExactlyOneItem(s: Store, c: nat)
    requires c < |s.calls|
  {
    exists i :: 0 <= i < |s.items| && Brought(s.items[i], c, s.calls[c]) && OnlyIn(s.items, c, i)
  }

  /** The call has no other arrival than one, in item `i`. */
  ghost predicate OnlyIn(items: seq<Item>, c: nat, i: nat) {
    && (forall j, a | 0 <= j < |items| && a in items[j].accepted && a.call == c :: j == i)
    && (i < |items| ==> Sequential(items[i].accepted))
  }

  /**
   A joinValue call that has returned has failed or put its value into exactly one item, once; one that failed, into
   none.
   */
  lemma EveryValueInOneItem(steps: seq<Step>, c: nat)
    requires Run(steps).Some? && c < |Run(steps).value.calls| && c !in Run(steps).value.joins
    ensures var s := Run(steps).value;
            && (c in s.failed <==> !InExactlyOneItem(s, c))
            && (c in s.failed ==> forall i, a | 0 <= i < |s.items| && a in s.items[i].accepted :: a.call != c)
  {
    RunKeeps(steps);
    var s := Run(steps).value;
    hide Tabled, Run, JoinsSound, ItemsAttended, ChoresSound;
    if c !in s.failed {
      var i := s.placed[c];
      assert ItemSound(s.items[i]);
      assert Brought(s.items[i], c, s.calls[c]) && OnlyIn(s.items, c, i);
    }
  }

  /** A final callback runs at most once per item, on exactly the accepted values in order, and is not forgotten. */
  lemma FinalCallbackOnce(steps: seq<Step>, i: nat)
    requires Run(steps).Some? && i < |Run(steps).value.items|
    ensures var s := Run(steps).value;
            var it := s.items[i];
            && |it.finals| <= 1
            && (it.finals != [] ==> it.processed && Gathers(it.finals[0], it.accepted))
            && (it.processed && it.finals == [] && it.accepted != [] ==>
                  (exists c :: c in s.joins && s.joins[c] == Calling(i))
                  || (exists t :: t in s.chores && s.chores[t] == Reporting(i)))
  {
    RunKeeps(steps);
    var s := Run(steps).value;
    assert ItemSound(s.items[i]) && Attended(s, i, s.items[i]);
  }

  /** Once processed, an item stays as it is; values are accepted by open items only. */
  ghost predicate FrozenOnceProcessed(a: Item, b: Item) {
    && (a.processed ==> b.processed && b.values == a.values && b.accepted == a.accepted)
    && (b.accepted != a.accepted ==> !a.processed && a.finals == [])
    && a.finals <= b.finals
  }

  lemma JoinFreezes(s: Store, c: nat, act: JoinStep, i: nat)
    requires Orderly(s) && JoinCan(s, c, act) && i < |s.items|
    ensures i < |JoinDoes(s, c, act).items| && FrozenOnceProcessed(s.items[i], JoinDoes(s, c, act).items[i])
  {
    assert PcSound(s.items, s.calls, c, s.joins[c]) && ItemSound(s.items[i]);
    hide Orderly, Union, Gathers, Sequential, Placed, Renew, RemoveIfSame, Insert;
  }

  lemma StoreFreezes(s: Store, step: StoreStep, i: nat)
    requires Orderly(s) && StoreCan(s, step) && i < |s.items|
    ensures i < |StoreDoes(s, step).items| && FrozenOnceProcessed(s.items[i], StoreDoes(s, step).items[i])
  {
    hide Orderly, Rotate, RemoveIfSame;
  }

  lemma AcceptedOnlyWhileOpen(steps: seq<Step>, step: Step, i: nat)
    requires Run(steps).Some? && Enabled(Run(steps).value, step) && i < |Run(steps).value.items|
    ensures var s, r := Run(steps).value, Do(Run(steps).value, step);
            i < |r.items| && FrozenOnceProcessed(s.items[i], r.items[i])
  {
    RunKeeps(steps);
    hide Tabled, Orderly, Accounted, Run, FrozenOnceProcessed, JoinCan, StoreCan, JoinDoes, StoreDoes;
    match step
    case ByCall(c, act) => JoinFreezes(Run(steps).value, c, act, i);
    case ByStore(deed) => StoreFreezes(Run(steps).value, deed, i);
  }

  /** stop() returns after every admitted call and every expiry task, with an empty table. */
  lemma {:induction false} StoppedIsQuiet(steps: seq<Step>)
    requires Run(steps).Some? && Run(steps).value.phase == Stopped
    ensures var s := Run(steps).value;
            s.joins == map[] && s.chores == map[] && Union(s.table) == map[] && s.table.count == 0
  {
    RunKeeps(steps);
    CountIsSize(Run(steps).value.table);
  }
}
