/**
 The serdes as they work: an output that grows and whose length headers are filled in afterwards, and a reader that
 moves through its input. Both are proved to compute the functions of `Serdes`.
 */
module SerdeBuffers {
  import opened BigEndian
  import opened Serdes

  lemma Regrouped<T>(a: seq<T>, b: seq<T>, c: seq<T>)
    ensures a + (b + c) == a + b + c
  {
  }

  class Output {
    var data: seq<byte>

    constructor ()
      ensures data == []
    {
      data := [];
    }

    /** One byte after the other, the most significant first. */
    method PutBigEndian(width: nat, n: nat)
      modifies this
      ensures data == old(data) + Encode(width, n)
    {
      var index := width;
      while index > 0
        invariant 0 <= index <= width
        invariant data == old(data) + Encode(width, n)[..width - index]
      {
        index := index - 1;
        EncodeByteAt(width, n, width - 1 - index);
        data := data + [ByteAt(n, index)];
      }
    }

    /** Overwrites eight bytes in the middle of the output. */
    method SetSize(offset: nat, n: nat) returns (ok: bool)
      modifies this
      ensures ok <==> offset + 8 <= |old(data)|
      ensures ok ==> data == old(data)[..offset] + Size(n) + old(data)[offset + 8..]
      ensures !ok ==> data == old(data)
    {
      if offset > |data| || |data| - offset < 8 { return false; }
      var k := 0;
      while k < 8
        invariant 0 <= k <= 8 && |data| == |old(data)|
        invariant data == old(data)[..offset] + Size(n)[..k] + old(data)[offset + k..]
      {
        EncodeByteAt(8, n, k);
        data := data[offset + k := ByteAt(n, 7 - k)];
        k := k + 1;
      }
      return true;
    }

    method PutFixed(p: Prim, items: seq<Data>)
      requires PrimSound(p) && AllInRange(p, items)
      modifies this
      ensures data == old(data) + EncodeFixed(p, items)
    {
      hide InRange, PrimSound, EncodePrim, EncodeFixed;
      NothingWritten(p, Fixed(p));
      assert items[..0] == [];
      var i := 0;
      while i < |items|
        invariant 0 <= i <= |items|
        invariant data == old(data) + EncodeFixed(p, items[..i])
      {
        PutPrim(p, items[i]);
        FixedGrow(p, items, i);
        i := i + 1;
      }
      assert items[..i] == items;
    }

    method PutPrim(p: Prim, d: Data)
      requires PrimSound(p) && InRange(p, d)
      modifies this
      ensures data == old(data) + EncodePrim(p, d)
    {
      PutBigEndian(Width(p), Raw(p, d));
    }

    method PutText(bytes: seq<byte>, maxStringBytes: nat) returns (ok: bool)
      modifies this
      ensures ok <==> |bytes| <= maxStringBytes
      ensures data == if ok then old(data) + Framed(bytes) else old(data)
    {
      if |bytes| > maxStringBytes { return false; }
      PutBigEndian(8, |bytes|);
      data := data + bytes;
      return true;
    }

    method PutTexts(items: seq<Data>, maxStringBytes: nat) returns (ok: bool)
      requires AllChars(items)
      modifies this
      ensures ok <==> forall i | 0 <= i < |items| :: |items[i].bytes| <= maxStringBytes
      ensures ok ==> data == old(data) + EncodeTexts(items)
      ensures old(data) <= data
    {
      hide Framed;
      var i := 0;
      while i < |items|
        invariant 0 <= i <= |items|
        invariant data == old(data) + EncodeTexts(items[..i])
        invariant forall j | 0 <= j < i :: |items[j].bytes| <= maxStringBytes
      {
        ok := PutText(items[i].bytes, maxStringBytes);
        if !ok { return; }
        TextsGrow(items, i);
        Regrouped(old(data), EncodeTexts(items[..i]), Framed(items[i].bytes));
        i := i + 1;
      }
      assert items[..i] == items;
      return true;
    }

    /** An empty header, the value, and then the length of the value into the header. */
    method PutFrame(s: Serde, d: Data) returns (ok: bool)
      requires Typed(s, d)
      modifies this
      ensures ok <==> Writable(s, d)
      ensures ok ==> data == old(data) + Framed(Written(s, d))
      ensures old(data) <= data
      decreases s, 1, 0
    {
      hide Typed, Writable, Written;
      var headerOffset := |data|;
      PutBigEndian(8, 0);
      var valueOffset := |data|;
      ok := SerializeTo(s, d);
      if !ok { return; }
      ghost var w := Written(s, d);
      assert data == old(data) + Encode(8, 0) + w;
      var _ := SetSize(headerOffset, |data| - valueOffset);
      assert data == old(data) + Size(|w|) + w;
    }

    method PutItems(s: Serde, items: seq<Data>) returns (ok: bool)
      requires AllTyped(s, items)
      modifies this
      ensures ok <==> AllWritable(s, items)
      ensures ok ==> data == old(data) + WrittenItems(s, items)
      ensures old(data) <= data
      decreases s, 2, 0
    {
      hide Typed, Writable, Written, Framed, WrittenItems;
      NothingWritten(Bool, s);
      assert items[..0] == [];
      var i := 0;
      while i < |items|
        invariant 0 <= i <= |items|
        invariant data == old(data) + WrittenItems(s, items[..i])
        invariant forall j | 0 <= j < i :: Writable(s, items[j])
      {
        ok := PutFrame(s, items[i]);
        if !ok { return; }
        ItemsGrow(s, items, i);
        i := i + 1;
      }
      assert items[..i] == items;
      return true;
    }

    /** A count and that many values of fixed size. */
    method PutVector(p: Prim, items: seq<Data>, maximum: nat) returns (ok: bool)
      requires PrimSound(p) && AllInRange(p, items)
      modifies this
      ensures ok <==> |items| <= maximum
      ensures data == if ok then old(data) + (Size(|items|) + EncodeFixed(p, items)) else old(data)
    {
      if |items| > maximum { return false; }
      PutBigEndian(8, |items|);
      PutFixed(p, items);
      return true;
    }

    method SerializeTextArray(s: Serde, d: Data) returns (ok: bool)
      requires s.TextArray? && Typed(s, d)
      modifies this
      ensures ok <==> Writable(s, d)
      ensures ok ==> data == old(data) + Written(s, d)
      ensures old(data) <= data
    {
      hide Typed, Written, Writable, EncodeTexts;
      TextArrayWrites(s, d);
      if |d.items| > s.limits.maxElements { return false; }
      PutBigEndian(8, |d.items|);
      ok := PutTexts(d.items, s.limits.maxStringBytes);
    }

    method SerializeArray(s: Serde, d: Data) returns (ok: bool)
      requires s.Array? && Typed(s, d)
      modifies this
      ensures ok <==> Writable(s, d)
      ensures ok ==> data == old(data) + Written(s, d)
      ensures old(data) <= data
      decreases s, 0, 0
    {
      hide Typed, Writable, Written, WrittenItems, AllWritable;
      ArrayWrites(s, d);
      if |d.items| > s.limits.maxElements { return false; }
      PutBigEndian(8, |d.items|);
      ok := PutItems(s.element, d.items);
    }

    /** Appends exactly the encoding, or stops at the first limit that is exceeded; what was there stays in front. */
    method SerializeTo(s: Serde, d: Data) returns (ok: bool)
      requires Typed(s, d)
      modifies this
      ensures ok <==> Writable(s, d)
      ensures ok ==> data == old(data) + Written(s, d)
      ensures old(data) <= data
      decreases s, 0, 1
    {
      match s
      case Fixed(p) =>
        PutPrim(p, d);
        return true;
      case Text(l) => ok := PutText(d.bytes, l.maxStringBytes);
      case Bytes(l) => ok := PutVector(Int(1, false), d.items, l.maxBytes);
      case FixedArray(p, l) => ok := PutVector(p, d.items, l.maxElements);
      case TextArray(_) => ok := SerializeTextArray(s, d);
      case Array(_, _) => ok := SerializeArray(s, d);
      case Dictionary(_, _, _) => ok := SerializeDictionary(s, d);
      case Pair(_, _, _) => ok := SerializePair(s, d);
    }

    method SerializeDictionary(s: Serde, d: Data) returns (ok: bool)
      requires s.Dictionary? && Typed(s, d)
      modifies this
      ensures ok <==> Writable(s, d)
      ensures ok ==> data == old(data) + Written(s, d)
      ensures old(data) <= data
      decreases s, 0, 0
    {
      hide Typed, Writable, Written, Framed;
      DictionaryWrites(s, d);
      if |d.entries| > s.limits.maxElements { return false; }
      var keys, values := SplitEntries(d.entries);
      ok := PutFrame(s.keys, Items(keys));
      if !ok { return; }
      ok := PutFrame(s.values, Items(values));
    }

    method SerializePair(s: Serde, d: Data) returns (ok: bool)
      requires s.Pair? && Typed(s, d)
      modifies this
      ensures ok <==> Writable(s, d)
      ensures ok ==> data == old(data) + Written(s, d)
      ensures old(data) <= data
      decreases s, 0, 0
    {
      hide Typed, Writable, Written, Framed;
      PairWrites(s, d);
      ok := PutFrame(s.key, d.first);
      if !ok { return; }
      ok := PutFrame(s.value, d.second);
    }
  }

  /** The keys and the values of a map, in the order of iteration. */
  method SplitEntries(entries: seq<Entry>) returns (keys: seq<Data>, values: seq<Data>)
    ensures keys == Keys(entries) && values == Values(entries)
  {
    keys, values := [], [];
    var i := 0;
    while i < |entries|
      invariant 0 <= i <= |entries| && |keys| == |values| == i
      invariant forall j | 0 <= j < i :: keys[j] == entries[j].key && values[j] == entries[j].value
    {
      keys, values := keys + [entries[i].key], values + [entries[i].value];
      i := i + 1;
    }
  }

  class Input {
    const data: seq<byte>
    var offset: nat

    ghost predicate Valid()
      reads this
    {
      offset <= |data|
    }

    function Rest(): seq<byte>
      requires Valid()
      reads this
    {
      data[offset..]
    }

    constructor (bytes: seq<byte>)
      ensures Valid() && Rest() == bytes && fresh(this)
    {
      data, offset := bytes, 0;
    }

    method Take(size: nat) returns (r: Result<seq<byte>>)
      requires Valid()
      modifies this
      ensures Valid()
      ensures r == if size > |old(Rest())| then Err else Ok(old(Rest())[..size])
      ensures Rest() == if r.Ok? then old(Rest())[size..] else old(Rest())
    {
      if size > |data| - offset { return Err; }
      ghost var rest := Rest();
      assert data[offset..offset + size] == rest[..size] && data[offset + size..] == rest[size..];
      r := Ok(data[offset..offset + size]);
      offset := offset + size;
    }

    /** read_u64_be and the check against the maximum. */
    method TakeSize(maximum: nat) returns (r: Result<nat>)
      requires Valid()
      modifies this
      ensures Valid()
      ensures r == ReadSize(old(Rest()), maximum)
      ensures r.Ok? ==> Rest() == old(Rest())[8..]
    {
      var bytes := Take(8);
      if bytes.Err? { return Err; }
      var n: nat, k := 0, 0;
      while k < 8
        invariant 0 <= k <= 8 && n == Value(bytes.value[..k])
      {
        assert bytes.value[..k + 1][..k] == bytes.value[..k];
        n := 256 * n + bytes.value[k];
        k := k + 1;
      }
      assert bytes.value[..8] == bytes.value;
      if n > maximum { return Err; }
      return Ok(n);
    }

    method TakeFrame(maximum: nat) returns (r: Result<seq<byte>>)
      requires Valid()
      modifies this
      ensures Valid()
      ensures var frame := ReadFrame(old(Rest()), maximum);
              r == (if frame.Err? then Err else Ok(frame.value.0)) && (frame.Ok? ==> Rest() == frame.value.1)
    {
      ghost var rest := Rest();
      var size := TakeSize(maximum);
      if size.Err? { return Err; }
      r := Take(size.value);
      if r.Ok? {
        var n := size.value;
        assert rest[8..][..n] == rest[8..8 + n] && rest[8..][n..] == rest[8 + n..];
      }
    }
  }

  /** The values that are left, `n` of them. */
  method TakeFixed(input: Input, p: Prim, n: nat) returns (items: seq<Data>)
    requires input.Valid() && n * Width(p) <= |input.Rest()|
    modifies input
    ensures items == ReadFixed(p, old(input.Rest()), n)
  {
    hide Width, FromRaw, Value;
    items := [];
    var i, w := 0, Width(p);
    while i < n
      invariant 0 <= i <= n && input.Valid() && (n - i) * w <= |input.Rest()|
      invariant ReadFixed(p, old(input.Rest()), n) == items + ReadFixed(p, input.Rest(), n - i)
    {
      OneMore(n - i - 1, w);
      ghost var before := input.Rest();
      var bytes := input.Take(w);
      assert before == bytes.value + input.Rest();
      NextFixed(p, bytes.value, input.Rest(), n - i);
      Regrouped(items, [FromRaw(p, Value(bytes.value))], ReadFixed(p, input.Rest(), n - i - 1));
      items := items + [FromRaw(p, Value(bytes.value))];
      i := i + 1;
    }
  }

  method ReadVector(input: Input, p: Prim, maximum: nat) returns (r: Result<Data>)
    requires input.Valid()
    modifies input
    ensures r == ReadArray(p, old(input.Rest()), maximum)
  {
    hide Width, ReadSize, ReadFixed;
    ghost var all := input.Rest();
    var count := input.TakeSize(maximum);
    if count.Err? { return Err; }
    ReadSizeLength(all, maximum);
    if count.value * Width(p) > |input.data| - input.offset { return Err; }
    var items := TakeFixed(input, p, count.value);
    return Ok(Items(items));
  }

  lemma ReadSizeLength(bytes: seq<byte>, maximum: nat)
    ensures ReadSize(bytes, maximum).Ok? ==> |bytes| >= 8
  {
  }

  method TakeTexts(input: Input, n: nat, maximum: nat) returns (r: Result<seq<Data>>)
    requires input.Valid()
    modifies input
    ensures r == ReadTexts(old(input.Rest()), n, maximum)
  {
    hide Joined, ReadFrame;
    ghost var all := ReadTexts(input.Rest(), n, maximum);
    JoinedNothing(all);
    var items: seq<Data>, i := [], 0;
    while i < n
      invariant 0 <= i <= n && input.Valid()
      invariant all == Joined(items, ReadTexts(input.Rest(), n - i, maximum))
    {
      var text := input.TakeFrame(maximum);
      if text.Err? { NothingJoined(items); return Err; }
      JoinedOne(items, Chars(text.value), ReadTexts(input.Rest(), n - i - 1, maximum));
      items := items + [Chars(text.value)];
      i := i + 1;
    }
    AllJoined(items);
    return Ok(items);
  }

  lemma NothingJoined(items: seq<Data>)
    ensures Joined(items, Err) == Err
  {
  }

  lemma AllJoined(items: seq<Data>)
    ensures Joined(items, Ok([])) == Ok(items)
  {
    assert items + [] == items;
  }

  method TakeItems(input: Input, s: Serde, n: nat, maximum: nat) returns (r: Result<seq<Data>>)
    requires input.Valid()
    modifies input
    ensures r == ReadItems(s, old(input.Rest()), n, maximum)
    decreases s, 3
  {
    hide Joined, ReadFrame, Read;
    ghost var all := ReadItems(s, input.Rest(), n, maximum);
    JoinedNothing(all);
    var items: seq<Data>, i := [], 0;
    while i < n
      invariant 0 <= i <= n && input.Valid()
      invariant all == Joined(items, ReadItems(s, input.Rest(), n - i, maximum))
    {
      var payload := input.TakeFrame(maximum);
      if payload.Err? { NothingJoined(items); return Err; }
      var item := Deserialize(s, payload.value);
      if item.Err? { NothingJoined(items); return Err; }
      JoinedOne(items, item.value, ReadItems(s, input.Rest(), n - i - 1, maximum));
      items := items + [item.value];
      i := i + 1;
    }
    AllJoined(items);
    return Ok(items);
  }

  /** insert_or_assign of every pair, in order. */
  method CollectEntries(keys: seq<Data>, values: seq<Data>) returns (entries: seq<Entry>)
    requires |keys| == |values|
    ensures entries == Collect(keys, values)
  {
    entries := [];
    var i := 0;
    while i < |keys|
      invariant 0 <= i <= |keys| && entries == Collect(keys[..i], values[..i])
    {
      assert keys[..i + 1][..i] == keys[..i] && values[..i + 1][..i] == values[..i];
      entries := Assign(entries, keys[i], values[i]);
      i := i + 1;
    }
    assert keys[..i] == keys && values[..i] == values;
  }

  /** Two frames, each read by its serde. */
  method TakeTwo(input: Input, k: Serde, v: Serde, maximum: nat, ghost s: Serde)
    returns (a: Result<Data>, b: Result<Data>)
    requires input.Valid() && k < s && v < s
    modifies input
    ensures var first := ReadFrame(old(input.Rest()), maximum);
            a == if first.Err? then Err else Read(k, first.value.0)
    ensures var first := ReadFrame(old(input.Rest()), maximum);
            a.Ok? ==> var second := ReadFrame(first.value.1, maximum);
                      b == if second.Err? then Err else Read(v, second.value.0)
    decreases s, 0
  {
    hide ReadFrame, Read;
    b := Err;
    var first := input.TakeFrame(maximum);
    if first.Err? { return Err, Err; }
    a := Deserialize(k, first.value);
    if a.Err? { return; }
    var second := input.TakeFrame(maximum);
    if second.Err? { return; }
    b := Deserialize(v, second.value);
  }

  /** Reads exactly what `Read` says. */
  method Deserialize(s: Serde, bytes: seq<byte>) returns (r: Result<Data>)
    ensures r == Read(s, bytes)
    decreases s, 2
  {
    if !s.Fixed? && |bytes| > s.limits.maxTotalBytes { return Err; }
    var input := new Input(bytes);
    match s
    case Fixed(p) =>
      var raw := input.Take(Width(p));
      return if raw.Err? then Err else Ok(FromRaw(p, Value(raw.value)));
    case Text(l) =>
      var text := input.TakeFrame(l.maxStringBytes);
      return if text.Err? then Err else Ok(Chars(text.value));
    case Bytes(l) => r := ReadVector(input, Int(1, false), l.maxBytes);
    case FixedArray(p, l) => r := ReadVector(input, p, l.maxElements);
    case TextArray(l) =>
      var count := input.TakeSize(l.maxElements);
      if count.Err? { return Err; }
      var items := TakeTexts(input, count.value, l.maxStringBytes);
      return if items.Err? then Err else Ok(Items(items.value));
    case Array(e, l) =>
      var count := input.TakeSize(l.maxElements);
      if count.Err? { return Err; }
      var items := TakeItems(input, e, count.value, l.maxTotalBytes);
      return if items.Err? then Err else Ok(Items(items.value));
    case Dictionary(k, v, l) =>
      var keys, values := TakeTwo(input, k, v, l.maxTotalBytes, s);
      if keys.Err? || values.Err? { return Err; }
      if !keys.value.Items? || !values.value.Items? { return Err; }
      if |keys.value.items| != |values.value.items| || |keys.value.items| > l.maxElements { return Err; }
      var entries := CollectEntries(keys.value.items, values.value.items);
      return Ok(Mapping(entries));
    case Pair(k, v, l) =>
      var first, second := TakeTwo(input, k, v, l.maxTotalBytes, s);
      return if first.Err? || second.Err? then Err else Ok(Both(first.value, second.value));
  }
}
