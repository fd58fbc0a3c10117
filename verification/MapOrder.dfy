/**
 The order in which maps are iterated while they are written shows in the bytes, and in nothing else: values that are
 equal up to the order of maps, at every depth, have encodings of the same length, meet the same limits, and are read
 back as values that are equal up to the order of maps.
 */
module MapOrder {
  import opened BigEndian
  import opened Serdes

  function Drop<T>(s: seq<T>, i: nat): seq<T>
    requires i < |s|
  {
    s[..i] + s[i + 1..]
  }

  // ---------------------------------------------------------------- equal up to the order of maps

  /** The values are equal, except for the order in which maps inside them are iterated. */
  ghost predicate Same(s: Serde, a: Data, b: Data)
    decreases s, 2, 0
  {
    match s
    case Array(e, _) =>
      a.Items? && b.Items? && |a.items| == |b.items| && forall i | 0 <= i < |a.items| :: Same(e, a.items[i], b.items[i])
    case Dictionary(_, _, _) => a.Mapping? && b.Mapping? && SameEntries(s, a.entries, b.entries)
    case Pair(k, v, _) => a.Both? && b.Both? && Same(k, a.first, b.first) && Same(v, a.second, b.second)
    case _ => a == b
  }

  /** The serde is for vectors, and these are elements of them. */
  ghost predicate SameElement(s: Serde, x: Data, y: Data)
    decreases s, 0, 0
  {
    if s.Array? then Same(s.element, x, y) else x == y
  }

  ghost predicate SameEntry(s: Serde, e: Entry, f: Entry)
    requires s.Dictionary?
    decreases s, 0, 0
  {
    SameElement(s.keys, e.key, f.key) && SameElement(s.values, e.value, f.value)
  }

  /** One entry after the other finds its partner. */
  ghost predicate SameEntries(s: Serde, one: seq<Entry>, other: seq<Entry>)
    requires s.Dictionary?
    decreases s, 1, |one|
  {
    if one == [] then other == []
    else exists i | 0 <= i < |other| ::
        SameEntry(s, one[|one| - 1], other[i]) && SameEntries(s, one[..|one| - 1], Drop(other, i))
  }

  /** The same for elements. */
  ghost predicate Matched(s: Serde, xs: seq<Data>, ys: seq<Data>)
    decreases |xs|
  {
    if xs == [] then ys == []
    else exists i | 0 <= i < |ys| ::
        SameElement(s, xs[|xs| - 1], ys[i]) && Matched(s, xs[..|xs| - 1], Drop(ys, i))
  }

  lemma OneMoreMatched(s: Serde, xs: seq<Data>, ys: seq<Data>, i: nat)
    requires xs != [] && i < |ys| && SameElement(s, xs[|xs| - 1], ys[i])
    requires Matched(s, xs[..|xs| - 1], Drop(ys, i))
    ensures Matched(s, xs, ys)
  {
    hide SameElement;
  }

  lemma SidesWithout(entries: seq<Entry>, i: nat)
    requires i < |entries|
    ensures Keys(Drop(entries, i)) == Drop(Keys(entries), i) && Values(Drop(entries, i)) == Drop(Values(entries), i)
  {
  }

  lemma {:induction false} EntriesMatched(s: Serde, one: seq<Entry>, other: seq<Entry>)
    requires s.Dictionary? && SameEntries(s, one, other)
    ensures Matched(s.keys, Keys(one), Keys(other)) && Matched(s.values, Values(one), Values(other))
    decreases |one|
  {
    hide SameElement;
    if one != [] {
      var n := |one| - 1;
      var i :| 0 <= i < |other| && SameEntry(s, one[n], other[i]) && SameEntries(s, one[..n], Drop(other, i));
      EntriesMatched(s, one[..n], Drop(other, i));
      LastMatched(s, one, other, i);
    }
  }

  lemma LastMatched(s: Serde, one: seq<Entry>, other: seq<Entry>, i: nat)
    requires s.Dictionary? && one != [] && i < |other| && SameEntry(s, one[|one| - 1], other[i])
    requires Matched(s.keys, Keys(one[..|one| - 1]), Keys(Drop(other, i)))
    requires Matched(s.values, Values(one[..|one| - 1]), Values(Drop(other, i)))
    ensures Matched(s.keys, Keys(one), Keys(other)) && Matched(s.values, Values(one), Values(other))
  {
    hide SameElement, Matched;
    var n := |one| - 1;
    assert Keys(one)[..n] == Keys(one[..n]) && Values(one)[..n] == Values(one[..n]);
    SidesWithout(other, i);
    OneMoreMatched(s.keys, Keys(one), Keys(other), i);
    OneMoreMatched(s.values, Values(one), Values(other), i);
  }

  lemma {:induction false} ItemsMatched(s: Serde, xs: seq<Data>, ys: seq<Data>)
    requires |xs| == |ys| && forall i | 0 <= i < |xs| :: SameElement(s, xs[i], ys[i])
    ensures Matched(s, xs, ys)
    decreases |xs|
  {
    hide SameElement;
    if xs != [] {
      var n := |xs| - 1;
      ItemsMatched(s, xs[..n], ys[..n]);
      assert Drop(ys, n) == ys[..n];
    }
  }

  /** Every element has a partner on the other side. */
  ghost predicate Partners(s: Serde, xs: seq<Data>, ys: seq<Data>) {
    && |xs| == |ys|
    && (forall x | x in xs :: exists y | y in ys :: SameElement(s, x, y))
    && (forall y | y in ys :: exists x | x in xs :: SameElement(s, x, y))
  }

  lemma {:induction false} MatchedPartners(s: Serde, xs: seq<Data>, ys: seq<Data>)
    requires Matched(s, xs, ys)
    ensures Partners(s, xs, ys)
    decreases |xs|
  {
    hide SameElement;
    if xs != [] {
      var n := |xs| - 1;
      var i :| 0 <= i < |ys| && SameElement(s, xs[n], ys[i]) && Matched(s, xs[..n], Drop(ys, i));
      MatchedPartners(s, xs[..n], Drop(ys, i));
      OneMorePartner(s, xs, ys, i);
    }
  }

  lemma OneMorePartner(s: Serde, xs: seq<Data>, ys: seq<Data>, i: nat)
    requires xs != [] && i < |ys| && SameElement(s, xs[|xs| - 1], ys[i])
    requires Partners(s, xs[..|xs| - 1], Drop(ys, i))
    ensures Partners(s, xs, ys)
  {
    hide SameElement;
    var most, last, less := xs[..|xs| - 1], xs[|xs| - 1], Drop(ys, i);
    forall x | x in xs ensures exists y | y in ys :: SameElement(s, x, y) {
      if x in most {
        var y :| y in less && SameElement(s, x, y);
        assert y in ys;
      } else {
        assert x == last && ys[i] in ys;
      }
    }
    forall y | y in ys ensures exists x | x in xs :: SameElement(s, x, y) {
      if y in less {
        var x :| x in most && SameElement(s, x, y);
        assert x in xs;
      } else {
        assert y == ys[i] && last in xs;
      }
    }
  }

  // ---------------------------------------------------------------- lengths

  /** What an element adds to the encoding of a vector, beyond its fixed width. */
  ghost function ItemSize(s: Serde, d: Data): nat {
    if s.TextArray? && d.Chars? then |Framed(d.bytes)|
    else if s.Array? && Typed(s.element, d) then |Framed(Written(s.element, d))|
    else 0
  }

  ghost function TotalSize(s: Serde, items: seq<Data>): nat {
    if items == [] then 0 else TotalSize(s, items[..|items| - 1]) + ItemSize(s, items[|items| - 1])
  }

  lemma {:induction false} TextsTotal(s: Serde, items: seq<Data>)
    requires s.TextArray? && AllChars(items)
    ensures |EncodeTexts(items)| == TotalSize(s, items)
  {
    hide Framed;
    if items != [] { TextsTotal(s, items[..|items| - 1]); }
  }

  lemma {:induction false} ItemsTotal(s: Serde, items: seq<Data>)
    requires s.Array? && AllTyped(s.element, items)
    ensures |WrittenItems(s.element, items)| == TotalSize(s, items)
  {
    hide Framed, Written, Typed;
    if items != [] { ItemsTotal(s, items[..|items| - 1]); }
  }

  function FixedWidth(s: Serde): nat {
    if s.Bytes? then 1 else if s.FixedArray? then Width(s.prim) else 0
  }

  lemma {:induction false} NothingBeyondWidth(s: Serde, items: seq<Data>)
    requires !s.TextArray? && !s.Array?
    ensures TotalSize(s, items) == 0
  {
    if items != [] { NothingBeyondWidth(s, items[..|items| - 1]); }
  }

  lemma FixedVectorLength(s: Serde, items: seq<Data>)
    requires (s.Bytes? || s.FixedArray?) && Typed(s, Items(items))
    ensures |Written(s, Items(items))| == 8 + |items| * FixedWidth(s)
  {
    FixedLength(if s.Bytes? then Int(1, false) else s.prim, items);
  }

  lemma VectorLength(s: Serde, items: seq<Data>)
    requires ForVectors(s) && Typed(s, Items(items))
    ensures |Written(s, Items(items))| == 8 + |items| * FixedWidth(s) + TotalSize(s, items)
  {
    hide Typed, Written, Writable, TotalSize;
    if s.TextArray? {
      TextArrayWrites(s, Items(items));
      TextsTotal(s, items);
    } else if s.Array? {
      ArrayWrites(s, Items(items));
      ItemsTotal(s, items);
    } else {
      FixedVectorLength(s, items);
      NothingBeyondWidth(s, items);
    }
  }

  lemma {:induction false} TotalWithout(s: Serde, items: seq<Data>, i: nat)
    requires i < |items|
    ensures TotalSize(s, items) == TotalSize(s, Drop(items, i)) + ItemSize(s, items[i])
    decreases |items|
  {
    hide ItemSize;
    var n := |items| - 1;
    if i == n {
      assert Drop(items, i) == items[..n];
    } else {
      TotalWithout(s, items[..n], i);
      assert Drop(items, i)[..n - 1] == Drop(items[..n], i);
    }
  }

  /** What is checked of an element while writing, and while reading. */
  ghost predicate ElementWritable(s: Serde, d: Data) {
    && (s.TextArray? && d.Chars? ==> |d.bytes| <= s.limits.maxStringBytes)
    && (s.Array? && Typed(s.element, d) ==> Writable(s.element, d))
  }

  ghost predicate ElementReadable(s: Serde, d: Data) {
    s.Array? && Typed(s.element, d) ==> Readable(s.element, d, 0)
  }

  /** Partners add the same to the encoding, and meet the same limits. */
  ghost predicate Alike(s: Serde, x: Data, y: Data) {
    && ItemSize(s, x) == ItemSize(s, y)
    && (ElementWritable(s, x) <==> ElementWritable(s, y))
    && (ElementReadable(s, x) <==> ElementReadable(s, y))
  }

  ghost predicate AllAlike(s: Serde, xs: seq<Data>, ys: seq<Data>) {
    forall x, y | x in xs && y in ys && SameElement(s, x, y) :: Alike(s, x, y)
  }

  lemma {:induction false} SameTotal(s: Serde, xs: seq<Data>, ys: seq<Data>)
    requires Matched(s, xs, ys) && AllAlike(s, xs, ys)
    ensures TotalSize(s, xs) == TotalSize(s, ys)
    decreases |xs|
  {
    hide SameElement, Alike, AllAlike;
    if xs != [] {
      var n := |xs| - 1;
      var i :| 0 <= i < |ys| && SameElement(s, xs[n], ys[i]) && Matched(s, xs[..n], Drop(ys, i));
      FewerAlike(s, xs, ys, i);
      SameTotal(s, xs[..n], Drop(ys, i));
      LastTotal(s, xs, ys, i);
    }
  }

  lemma FewerAlike(s: Serde, xs: seq<Data>, ys: seq<Data>, i: nat)
    requires xs != [] && i < |ys| && AllAlike(s, xs, ys)
    ensures AllAlike(s, xs[..|xs| - 1], Drop(ys, i))
    ensures SameElement(s, xs[|xs| - 1], ys[i]) ==> Alike(s, xs[|xs| - 1], ys[i])
  {
    hide SameElement, Alike;
    assert forall y | y in Drop(ys, i) :: y in ys;
  }

  lemma LastTotal(s: Serde, xs: seq<Data>, ys: seq<Data>, i: nat)
    requires xs != [] && i < |ys| && Alike(s, xs[|xs| - 1], ys[i])
    requires TotalSize(s, xs[..|xs| - 1]) == TotalSize(s, Drop(ys, i))
    ensures TotalSize(s, xs) == TotalSize(s, ys)
  {
    hide ItemSize, ElementWritable, ElementReadable;
    TotalWithout(s, ys, i);
  }

  function MaxCount(s: Serde): nat {
    if s.Fixed? then 0 else if s.Bytes? then s.limits.maxBytes else s.limits.maxElements
  }

  lemma VectorWritable(s: Serde, xs: seq<Data>)
    requires ForVectors(s) && Typed(s, Items(xs))
    ensures Writable(s, Items(xs)) <==> |xs| <= MaxCount(s) && forall x | x in xs :: ElementWritable(s, x)
  {
    assert forall i | 0 <= i < |xs| :: xs[i] in xs;
  }

  lemma VectorReadable(s: Serde, xs: seq<Data>, extra: nat)
    requires ForVectors(s) && Typed(s, Items(xs))
    ensures Readable(s, Items(xs), extra) <==>
            && |Written(s, Items(xs))| + extra <= s.limits.maxTotalBytes
            && forall x | x in xs :: ElementReadable(s, x)
  {
    hide Written;
    assert forall i | 0 <= i < |xs| :: xs[i] in xs;
  }

  lemma PartnersAgree(s: Serde, xs: seq<Data>, ys: seq<Data>)
    requires Partners(s, xs, ys) && AllAlike(s, xs, ys)
    ensures (forall x | x in xs :: ElementWritable(s, x)) <==> (forall y | y in ys :: ElementWritable(s, y))
    ensures (forall x | x in xs :: ElementReadable(s, x)) <==> (forall y | y in ys :: ElementReadable(s, y))
  {
    hide SameElement, ElementWritable, ElementReadable, ItemSize;
  }

  // ---------------------------------------------------------------- every depth

  /** The encodings are equally long, and what is checked while writing and reading has the same outcome. */
  ghost predicate AlikeIn(s: Serde, a: Data, b: Data, extra: nat)
    requires Typed(s, a) && Typed(s, b)
  {
    && |Written(s, a)| == |Written(s, b)|
    && (Writable(s, a) <==> Writable(s, b))
    && (Readable(s, a, extra) <==> Readable(s, b, extra))
  }

  lemma SameLength(s: Serde, xs: seq<Data>, ys: seq<Data>)
    requires ForVectors(s) && Typed(s, Items(xs)) && Typed(s, Items(ys)) && Matched(s, xs, ys) && AllAlike(s, xs, ys)
    requires |xs| == |ys|
    ensures |Written(s, Items(xs))| == |Written(s, Items(ys))|
  {
    hide Typed, Written, Matched, AllAlike, TotalSize;
    SameTotal(s, xs, ys);
    VectorLength(s, xs);
    VectorLength(s, ys);
  }

  lemma SameWritable(s: Serde, xs: seq<Data>, ys: seq<Data>)
    requires ForVectors(s) && Typed(s, Items(xs)) && Typed(s, Items(ys)) && Partners(s, xs, ys) && AllAlike(s, xs, ys)
    ensures Writable(s, Items(xs)) <==> Writable(s, Items(ys))
  {
    hide Typed, Writable, AllAlike, ElementWritable, ElementReadable, SameElement;
    PartnersAgree(s, xs, ys);
    VectorWritable(s, xs);
    VectorWritable(s, ys);
  }

  lemma SameReadable(s: Serde, xs: seq<Data>, ys: seq<Data>, extra: nat)
    requires ForVectors(s) && Typed(s, Items(xs)) && Typed(s, Items(ys)) && Partners(s, xs, ys) && AllAlike(s, xs, ys)
    requires |Written(s, Items(xs))| == |Written(s, Items(ys))|
    ensures Readable(s, Items(xs), extra) <==> Readable(s, Items(ys), extra)
  {
    hide Typed, Readable, Written, AllAlike, ElementWritable, ElementReadable, SameElement;
    PartnersAgree(s, xs, ys);
    VectorReadable(s, xs, extra);
    VectorReadable(s, ys, extra);
  }

  /** A vector whose elements have partners in another. */
  lemma VectorAlike(s: Serde, xs: seq<Data>, ys: seq<Data>, extra: nat)
    requires ForVectors(s) && Typed(s, Items(xs)) && Typed(s, Items(ys)) && Matched(s, xs, ys)
    ensures |xs| == |ys| && AlikeIn(s, Items(xs), Items(ys), extra)
    decreases s, 1
  {
    hide Typed, Written, Writable, Readable, Matched, AllAlike, SameElement;
    ElementsAlike(s, xs, ys);
    MatchedPartners(s, xs, ys);
    SameLength(s, xs, ys);
    SameWritable(s, xs, ys);
    SameReadable(s, xs, ys, extra);
  }

  lemma ElementsAlike(s: Serde, xs: seq<Data>, ys: seq<Data>)
    requires ForVectors(s) && Typed(s, Items(xs)) && Typed(s, Items(ys))
    ensures AllAlike(s, xs, ys)
    decreases s, 0
  {
    if s.Array? {
      hide Written, Writable, Readable;
      forall x, y | x in xs && y in ys && SameElement(s, x, y) ensures Alike(s, x, y) {
        assert Typed(s.element, x) && Typed(s.element, y);
        SameLimits(s.element, x, y, 0);
      }
    }
  }

  lemma DictionaryReads(s: Serde, d: Data, extra: nat)
    requires s.Dictionary? && Typed(s, d)
    ensures d.Mapping? && ForVectors(s.keys) && ForVectors(s.values)
    ensures Typed(s.keys, Items(Keys(d.entries))) && Typed(s.values, Items(Values(d.entries)))
    ensures Readable(s, d, extra) <==>
            && |Written(s, d)| + extra <= s.limits.maxTotalBytes
            && Readable(s.keys, Items(Keys(d.entries)), 0) && Readable(s.values, Items(Values(d.entries)), 0)
  {
    hide Written;
  }

  lemma DictionaryAlike(s: Serde, a: Data, b: Data, extra: nat)
    requires s.Dictionary? && Typed(s, a) && Typed(s, b) && Same(s, a, b)
    ensures AlikeIn(s, a, b, extra)
    decreases s, 2
  {
    hide Typed, Written, Writable, Readable, SameEntries, Matched;
    DictionaryWrites(s, a);
    DictionaryWrites(s, b);
    DictionaryReads(s, a, extra);
    DictionaryReads(s, b, extra);
    EntriesMatched(s, a.entries, b.entries);
    VectorAlike(s.keys, Keys(a.entries), Keys(b.entries), 0);
    VectorAlike(s.values, Values(a.entries), Values(b.entries), 0);
  }

  lemma PairReads(s: Serde, d: Data, extra: nat)
    requires s.Pair? && Typed(s, d)
    ensures d.Both? && Typed(s.key, d.first) && Typed(s.value, d.second)
    ensures Readable(s, d, extra) <==>
            && |Written(s, d)| + extra <= s.limits.maxTotalBytes
            && Readable(s.key, d.first, 0) && Readable(s.value, d.second, 0)
  {
    hide Written;
  }

  lemma PairAlike(s: Serde, a: Data, b: Data, extra: nat)
    requires s.Pair? && Typed(s, a) && Typed(s, b) && Same(s, a, b)
    ensures AlikeIn(s, a, b, extra)
    decreases s, 2
  {
    hide Typed, Written, Writable, Readable;
    PairWrites(s, a);
    PairWrites(s, b);
    PairReads(s, a, extra);
    PairReads(s, b, extra);
    SameLimits(s.key, a.first, b.first, 0);
    SameLimits(s.value, a.second, b.second, 0);
  }

  /** Values that are equal up to the order of maps, at every depth, are equally long and meet the same limits. */
  lemma {:induction false} SameLimits(s: Serde, a: Data, b: Data, extra: nat)
    requires Typed(s, a) && Typed(s, b) && Same(s, a, b)
    ensures AlikeIn(s, a, b, extra)
    decreases s, 3
  {
    hide Written, Writable, Readable;
    match s
    case Array(_, _) =>
      ItemsMatched(s, a.items, b.items);
      VectorAlike(s, a.items, b.items, extra);
    case Dictionary(_, _, _) => DictionaryAlike(s, a, b, extra);
    case Pair(_, _, _) => PairAlike(s, a, b, extra);
    case _ =>
  }

  /** What is written for one is read back as that one, for the other as the other, or both are refused. */
  lemma OrderDoesNotMatter(s: Serde, a: Data, b: Data, rest: seq<byte>)
    requires Typed(s, a) && Typed(s, b) && Same(s, a, b) && Writable(s, a) && |Written(s, a)| < MAX_SIZE
    ensures Writable(s, b)
    ensures var x, y := Read(s, Written(s, a) + rest), Read(s, Written(s, b) + rest);
            if Readable(s, a, |rest|) then x.Ok? && y.Ok? && Same(s, x.value, y.value) else x == Err && y == Err
  {
    hide Typed, Written, Writable, Readable, Read, Same;
    SameLimits(s, a, b, |rest|);
    RoundTrip(s, a, rest);
    RoundTrip(s, b, rest);
  }

  // ---------------------------------------------------------------- two orders of one map

  function AsMap(entries: seq<Entry>): map<Data, Data> {
    if entries == [] then map[]
    else AsMap(entries[..|entries| - 1])[entries[|entries| - 1].key := entries[|entries| - 1].value]
  }

  lemma {:induction false} MapHasEntries(entries: seq<Entry>)
    requires DistinctKeys(entries)
    ensures forall e | e in entries :: e.key in AsMap(entries) && AsMap(entries)[e.key] == e.value
    ensures forall k | k in AsMap(entries) :: Entry(k, AsMap(entries)[k]) in entries
  {
    if entries != [] {
      var most, last := entries[..|entries| - 1], entries[|entries| - 1];
      MapHasEntries(most);
      assert entries == most + [last];
    }
  }

  ghost predicate EqualEntries(one: seq<Entry>, other: seq<Entry>) {
    && DistinctKeys(one) && DistinctKeys(other)
    && (forall e | e in one :: e in other)
    && (forall e | e in other :: e in one)
  }

  lemma OneMapEqualEntries(one: seq<Entry>, other: seq<Entry>)
    requires DistinctKeys(one) && DistinctKeys(other) && AsMap(one) == AsMap(other)
    ensures EqualEntries(one, other)
  {
    MapHasEntries(one);
    MapHasEntries(other);
    forall e | e in one ensures e in other { assert Entry(e.key, AsMap(other)[e.key]) in other; }
    forall e | e in other ensures e in one { assert Entry(e.key, AsMap(one)[e.key]) in one; }
  }

  lemma DropEqual(one: seq<Entry>, other: seq<Entry>, i: nat)
    requires EqualEntries(one, other) && one != [] && i < |other| && other[i] == one[|one| - 1]
    ensures EqualEntries(one[..|one| - 1], Drop(other, i))
  {
    var most, last, less := one[..|one| - 1], one[|one| - 1], Drop(other, i);
    assert one == most + [last] && other == other[..i] + [last] + other[i + 1..];
    forall e | e in most ensures e in less {
      assert e in one && e.key != last.key;
    }
    forall e | e in less ensures e in most {
      assert e in other && e.key != last.key;
    }
  }

  lemma BothEmpty(one: seq<Entry>, other: seq<Entry>)
    requires EqualEntries(one, other)
    ensures one == [] <==> other == []
  {
    if one != [] { assert one[0] in other; }
    if other != [] { assert other[0] in one; }
  }

  lemma {:induction false} EqualIsSame(s: Serde, one: seq<Entry>, other: seq<Entry>)
    requires s.Dictionary? && EqualEntries(one, other)
    requires forall e | e in one :: SameEntry(s, e, e)
    ensures SameEntries(s, one, other)
    decreases |one|
  {
    BothEmpty(one, other);
    if one != [] {
      var n := |one| - 1;
      assert one[n] in other;
      var i :| 0 <= i < |other| && other[i] == one[n];
      DropEqual(one, other, i);
      assert forall e | e in one[..n] :: e in one;
      EqualIsSame(s, one[..n], Drop(other, i));
    }
  }

  /** Every value is equal to itself. */
  lemma {:induction false} SameSelf(s: Serde, d: Data)
    requires Typed(s, d)
    ensures Same(s, d, d)
    decreases s, 2
  {
    match s
    case Array(e, _) =>
      forall i | 0 <= i < |d.items| ensures Same(e, d.items[i], d.items[i]) { SameSelf(e, d.items[i]); }
    case Dictionary(_, _, _) =>
      EntriesSameSelf(s, d.entries);
      EqualIsSame(s, d.entries, d.entries);
    case Pair(k, v, _) => SameSelf(k, d.first); SameSelf(v, d.second);
    case _ =>
  }

  lemma EntriesSameSelf(s: Serde, entries: seq<Entry>)
    requires s.Dictionary? && Typed(s, Mapping(entries))
    ensures forall e | e in entries :: SameEntry(s, e, e)
    decreases s, 1
  {
    ElementsSameSelf(s.keys, Keys(entries));
    ElementsSameSelf(s.values, Values(entries));
    forall e | e in entries ensures SameEntry(s, e, e) {
      var i :| 0 <= i < |entries| && entries[i] == e;
      assert Keys(entries)[i] == e.key && Values(entries)[i] == e.value;
    }
  }

  lemma ElementsSameSelf(s: Serde, xs: seq<Data>)
    requires ForVectors(s) && Typed(s, Items(xs))
    ensures forall i | 0 <= i < |xs| :: SameElement(s, xs[i], xs[i])
    decreases s, 0
  {
    if s.Array? {
      forall i | 0 <= i < |xs| ensures Same(s.element, xs[i], xs[i]) { SameSelf(s.element, xs[i]); }
    }
  }

  lemma TypedToo(s: Serde, xs: seq<Data>, ys: seq<Data>)
    requires ForVectors(s) && Typed(s, Items(xs)) && forall i | 0 <= i < |ys| :: ys[i] in xs
    ensures Typed(s, Items(ys))
  {
  }

  /** Two iteration orders of one map are equal up to the order of maps. */
  lemma OrdersOfOneMap(s: Serde, one: seq<Entry>, other: seq<Entry>)
    requires s.Dictionary? && Typed(s, Mapping(one)) && DistinctKeys(other) && AsMap(one) == AsMap(other)
    ensures Typed(s, Mapping(other)) && Same(s, Mapping(one), Mapping(other))
  {
    OneMapEqualEntries(one, other);
    forall i | 0 <= i < |other| ensures Keys(other)[i] in Keys(one) && Values(other)[i] in Values(one) {
      assert other[i] in one;
      var j :| 0 <= j < |one| && one[j] == other[i];
      assert Keys(one)[j] == Keys(other)[i] && Values(one)[j] == Values(other)[i];
    }
    TypedToo(s.keys, Keys(one), Keys(other));
    TypedToo(s.values, Values(one), Values(other));
    EntriesSameSelf(s, one);
    EqualIsSame(s, one, other);
  }
}
