/**
 The binary serdes as pure functions: what a serde writes for a value, and what it reads from a byte string.

 Values are typed by their serde. A vector is a sequence of values, a map is the sequence of its entries in the order in
 which it is iterated; floating-point numbers and runes are the unsigned numbers of their bits.
 */
module Serdes {
  import opened BigEndian

  datatype Result<+T> = Ok(value: T) | Err

  datatype Limits = Limits(maxStringBytes: nat, maxBytes: nat, maxElements: nat, maxTotalBytes: nat)

  /** The fixed-size serdes; `width` is 1, 2, 4 or 8. */
  datatype Prim = Bool | Int(width: nat, signed: bool)

  datatype Serde =
    | Fixed(prim: Prim)
    | Text(limits: Limits)
    | Bytes(limits: Limits)
    | FixedArray(prim: Prim, limits: Limits)
    | TextArray(limits: Limits)
    | Array(element: Serde, limits: Limits)
    | Dictionary(keys: Serde, values: Serde, limits: Limits)
    | Pair(key: Serde, value: Serde, limits: Limits)

  datatype Entry = Entry(key: Data, value: Data)

  datatype Data =
    | Flag(on: bool)
    | Number(n: int)
    | Chars(bytes: seq<byte>)
    | Items(items: seq<Data>)
    | Mapping(entries: seq<Entry>)
    | Both(first: Data, second: Data)

  const SIZE_BYTES: nat := 8

  // ---------------------------------------------------------------- fixed-size values

  predicate PrimSound(p: Prim) {
    p.Bool? || p.width == 1 || p.width == 2 || p.width == 4 || p.width == 8
  }

  function Width(p: Prim): nat {
    if p.Bool? then 1 else p.width
  }

  /** Half the range of the type: the weight of its top bit. */
  function Half(p: Prim): int {
    if Width(p) == 0 then 0 else 128 * Pow256(Width(p) - 1)
  }

  predicate InRange(p: Prim, d: Data) {
    if p.Bool? then d.Flag?
    else d.Number? && if p.signed then -Half(p) <= d.n < Half(p) else 0 <= d.n < 2 * Half(p)
  }

  /** bit_cast to the unsigned type of the same width. */
  function Unsigned(p: Prim, n: int): int {
    if n < 0 then n + 2 * Half(p) else n
  }

  function Signed(p: Prim, n: int): int {
    if n >= Half(p) then n - 2 * Half(p) else n
  }

  /** Exclusive or with the top bit. */
  function FlipTop(p: Prim, n: int): int {
    if n >= Half(p) then n - Half(p) else n + Half(p)
  }

  /** The number that is written; the top bit is flipped for signed types of more than one byte. */
  function Raw(p: Prim, d: Data): nat
    requires PrimSound(p) && InRange(p, d)
  {
    if p.Bool? then (if d.on then 1 else 0)
    else if !p.signed then d.n
    else if p.width == 1 then Unsigned(p, d.n)
    else FlipTop(p, Unsigned(p, d.n))
  }

  function FromRaw(p: Prim, raw: nat): Data {
    if p.Bool? then Flag(raw != 0)
    else if !p.signed then Number(raw)
    else if p.width == 1 then Number(Signed(p, raw))
    else Number(Signed(p, FlipTop(p, raw)))
  }

  function EncodePrim(p: Prim, d: Data): (bytes: seq<byte>)
    requires PrimSound(p) && InRange(p, d)
    ensures |bytes| == Width(p)
  {
    Encode(Width(p), Raw(p, d))
  }

  lemma HalfIsHalf(p: Prim)
    requires PrimSound(p)
    ensures 2 * Half(p) == Pow256(Width(p)) && Half(p) > 0
  {
    Pow256Positive(Width(p) - 1);
  }

  lemma PrimRoundTrip(p: Prim, d: Data)
    requires PrimSound(p) && InRange(p, d)
    ensures Raw(p, d) < Pow256(Width(p)) && FromRaw(p, Raw(p, d)) == d
    ensures FromRaw(p, Value(EncodePrim(p, d))) == d
  {
    HalfIsHalf(p);
    hide Pow256;
    ValueOfEncode(Width(p), Raw(p, d));
  }

  /** For integers of more than one byte, and for unsigned ones, bytes compare as the numbers do. */
  lemma OrderPreserved(p: Prim, a: Data, b: Data)
    requires PrimSound(p) && p.Int? && (p.width > 1 || !p.signed) && InRange(p, a) && InRange(p, b)
    ensures Before(EncodePrim(p, a), EncodePrim(p, b)) <==> a.n < b.n
  {
    PrimRoundTrip(p, a);
    PrimRoundTrip(p, b);
    ValueOfEncode(Width(p), Raw(p, a));
    ValueOfEncode(Width(p), Raw(p, b));
    BeforeIsLess(EncodePrim(p, a), EncodePrim(p, b));
  }

  /** For one signed byte they do exactly when the signs agree. */
  lemma OrderOfSignedBytes(a: Data, b: Data)
    requires var p := Int(1, true); InRange(p, a) && InRange(p, b) && a != b
    ensures var p := Int(1, true);
            (Before(EncodePrim(p, a), EncodePrim(p, b)) <==> a.n < b.n) <==> (a.n < 0 <==> b.n < 0)
  {
    var p := Int(1, true);
    PrimRoundTrip(p, a);
    PrimRoundTrip(p, b);
    ValueOfEncode(1, Raw(p, a));
    ValueOfEncode(1, Raw(p, b));
    BeforeIsLess(EncodePrim(p, a), EncodePrim(p, b));
  }

  // ---------------------------------------------------------------- what is written

  function Size(n: nat): (bytes: seq<byte>)
    ensures |bytes| == 8
  {
    Encode(8, n)
  }

  predicate AllInRange(p: Prim, items: seq<Data>) {
    forall i | 0 <= i < |items| :: InRange(p, items[i])
  }

  predicate AllChars(items: seq<Data>) {
    forall i | 0 <= i < |items| :: items[i].Chars?
  }

  function Keys(entries: seq<Entry>): (keys: seq<Data>)
    ensures |keys| == |entries| && forall i | 0 <= i < |keys| :: keys[i] == entries[i].key
  {
    seq(|entries|, i requires 0 <= i < |entries| => entries[i].key)
  }

  function Values(entries: seq<Entry>): (values: seq<Data>)
    ensures |values| == |entries| && forall i | 0 <= i < |values| :: values[i] == entries[i].value
  {
    seq(|entries|, i requires 0 <= i < |entries| => entries[i].value)
  }

  predicate DistinctKeys(entries: seq<Entry>) {
    forall i, j | 0 <= i < j < |entries| :: entries[i].key != entries[j].key
  }

  /** The serde is for vectors. */
  predicate ForVectors(s: Serde) {
    s.Bytes? || s.FixedArray? || s.TextArray? || s.Array?
  }

  /** The value has the type of the serde. */
  predicate Typed(s: Serde, d: Data)
    decreases s, 0
  {
    match s
    case Fixed(p) => PrimSound(p) && InRange(p, d)
    case Text(_) => d.Chars?
    case Bytes(_) => d.Items? && AllInRange(Int(1, false), d.items)
    case FixedArray(p, _) => PrimSound(p) && d.Items? && AllInRange(p, d.items)
    case TextArray(_) => d.Items? && AllChars(d.items)
    case Array(e, _) => d.Items? && AllTyped(e, d.items)
    case Dictionary(k, v, _) =>
      && d.Mapping? && DistinctKeys(d.entries) && ForVectors(k) && ForVectors(v)
      && Typed(k, Items(Keys(d.entries))) && Typed(v, Items(Values(d.entries)))
    case Pair(k, v, _) => d.Both? && Typed(k, d.first) && Typed(v, d.second)
  }

  predicate AllTyped(s: Serde, items: seq<Data>)
    decreases s, 1
  {
    forall i | 0 <= i < |items| :: Typed(s, items[i])
  }

  function EncodeFixed(p: Prim, items: seq<Data>): seq<byte>
    requires PrimSound(p) && AllInRange(p, items)
  {
    if items == [] then [] else EncodeFixed(p, items[..|items| - 1]) + EncodePrim(p, items[|items| - 1])
  }

  function EncodeTexts(items: seq<Data>): seq<byte>
    requires AllChars(items)
  {
    if items == [] then []
    else EncodeTexts(items[..|items| - 1]) + Framed(items[|items| - 1].bytes)
  }

  /** Bytes with their length in front. */
  function Framed(bytes: seq<byte>): seq<byte> {
    Size(|bytes|) + bytes
  }

  /** What SerializeTo appends. */
  function Written(s: Serde, d: Data): seq<byte>
    requires Typed(s, d)
    decreases s, 0, 0
  {
    match s
    case Fixed(p) => EncodePrim(p, d)
    case Text(_) => Framed(d.bytes)
    case Bytes(_) => Size(|d.items|) + EncodeFixed(Int(1, false), d.items)
    case FixedArray(p, _) => Size(|d.items|) + EncodeFixed(p, d.items)
    case TextArray(_) => Size(|d.items|) + EncodeTexts(d.items)
    case Array(e, _) => Size(|d.items|) + WrittenItems(e, d.items)
    case Dictionary(k, v, _) =>
      Framed(Written(k, Items(Keys(d.entries)))) + Framed(Written(v, Items(Values(d.entries))))
    case Pair(k, v, _) => Framed(Written(k, d.first)) + Framed(Written(v, d.second))
  }

  function WrittenItems(s: Serde, items: seq<Data>): seq<byte>
    requires AllTyped(s, items)
    decreases s, 1, |items|
  {
    if items == [] then []
    else WrittenItems(s, items[..|items| - 1]) + Framed(Written(s, items[|items| - 1]))
  }

  /** The limits that are checked while writing. */
  predicate Writable(s: Serde, d: Data)
    requires Typed(s, d)
    decreases s, 0
  {
    match s
    case Fixed(_) => true
    case Text(l) => |d.bytes| <= l.maxStringBytes
    case Bytes(l) => |d.items| <= l.maxBytes
    case FixedArray(_, l) => |d.items| <= l.maxElements
    case TextArray(l) =>
      |d.items| <= l.maxElements && forall i | 0 <= i < |d.items| :: |d.items[i].bytes| <= l.maxStringBytes
    case Array(e, l) => |d.items| <= l.maxElements && AllWritable(e, d.items)
    case Dictionary(k, v, l) =>
      && |d.entries| <= l.maxElements
      && Writable(k, Items(Keys(d.entries))) && Writable(v, Items(Values(d.entries)))
    case Pair(k, v, _) => Writable(k, d.first) && Writable(v, d.second)
  }

  predicate AllWritable(s: Serde, items: seq<Data>)
    requires AllTyped(s, items)
    decreases s, 1
  {
    forall i | 0 <= i < |items| :: Writable(s, items[i])
  }

  lemma FixedGrow(p: Prim, items: seq<Data>, i: nat)
    requires PrimSound(p) && AllInRange(p, items) && i < |items|
    ensures EncodeFixed(p, items[..i + 1]) == EncodeFixed(p, items[..i]) + EncodePrim(p, items[i])
  {
    assert items[..i + 1][..i] == items[..i];
  }

  lemma TextsGrow(items: seq<Data>, i: nat)
    requires AllChars(items) && i < |items|
    ensures EncodeTexts(items[..i + 1]) == EncodeTexts(items[..i]) + Framed(items[i].bytes)
  {
    assert items[..i + 1][..i] == items[..i];
  }

  lemma ItemsGrow(s: Serde, items: seq<Data>, i: nat)
    requires AllTyped(s, items) && i < |items|
    ensures WrittenItems(s, items[..i + 1]) == WrittenItems(s, items[..i]) + Framed(Written(s, items[i]))
  {
    hide Written, Framed;
    assert items[..i + 1][..i] == items[..i];
  }

  /** Nothing is written for no elements. */
  lemma NothingWritten(p: Prim, s: Serde)
    requires PrimSound(p)
    ensures EncodeFixed(p, []) == [] && EncodeTexts([]) == [] && WrittenItems(s, []) == []
  {
  }

  // ---------------------------------------------------------------- what is read

  /** A length in front of `bytes`, which may not exceed the maximum. */
  function ReadSize(bytes: seq<byte>, maximum: nat): Result<nat> {
    if |bytes| < SIZE_BYTES || Value(bytes[..8]) > maximum then Err else Ok(Value(bytes[..8]))
  }

  /** A length, a payload of that length, and what follows. */
  function ReadFrame(bytes: seq<byte>, maximum: nat): (r: Result<(seq<byte>, seq<byte>)>)
    ensures r.Ok? ==> |r.value.0| + |r.value.1| + SIZE_BYTES == |bytes|
  {
    var size := ReadSize(bytes, maximum);
    if size.Err? || size.value > |bytes| - SIZE_BYTES then Err
    else Ok((bytes[8..8 + size.value], bytes[8 + size.value..]))
  }

  function ReadFixed(p: Prim, bytes: seq<byte>, count: nat): seq<Data>
    requires count * Width(p) <= |bytes|
  {
    if count == 0 then []
    else
      OneMore(count - 1, Width(p));
      [FromRaw(p, Value(bytes[..Width(p)]))] + ReadFixed(p, bytes[Width(p)..], count - 1)
  }

  /** The elements so far, and the rest if it could be read. */
  function Joined(items: seq<Data>, rest: Result<seq<Data>>): Result<seq<Data>> {
    if rest.Err? then Err else Ok(items + rest.value)
  }

  lemma JoinedNothing(rest: Result<seq<Data>>)
    ensures Joined([], rest) == rest
  {
    assert rest.Ok? ==> [] + rest.value == rest.value;
  }

  lemma JoinedOne(items: seq<Data>, item: Data, rest: Result<seq<Data>>)
    ensures Joined(items, Joined([item], rest)) == Joined(items + [item], rest)
  {
    assert rest.Ok? ==> items + ([item] + rest.value) == items + [item] + rest.value;
  }

  function ReadTexts(bytes: seq<byte>, count: nat, maxStringBytes: nat): Result<seq<Data>> {
    if count == 0 then Ok([])
    else
      var frame := ReadFrame(bytes, maxStringBytes);
      if frame.Err? then Err
      else
        Joined([Chars(frame.value.0)], ReadTexts(frame.value.1, count - 1, maxStringBytes))
  }

  function ReadItems(s: Serde, bytes: seq<byte>, count: nat, maxTotalBytes: nat): Result<seq<Data>>
    decreases s, 1, count
  {
    if count == 0 then Ok([])
    else
      var frame := ReadFrame(bytes, maxTotalBytes);
      if frame.Err? then Err
      else
        var item := Read(s, frame.value.0);
        if item.Err? then Err
        else Joined([item.value], ReadItems(s, frame.value.1, count - 1, maxTotalBytes))
  }

  /** insert_or_assign, one entry after the other. */
  function Assign(entries: seq<Entry>, key: Data, value: Data): seq<Entry> {
    if entries == [] then [Entry(key, value)]
    else if entries[0].key == key then [Entry(key, value)] + entries[1..]
    else [entries[0]] + Assign(entries[1..], key, value)
  }

  function Collect(keys: seq<Data>, values: seq<Data>): seq<Entry>
    requires |keys| == |values|
  {
    if keys == [] then []
    else
      var n := |keys| - 1;
      Assign(Collect(keys[..n], values[..n]), keys[n], values[n])
  }

  /** Deserialize; bytes that follow the value are ignored. */
  function Read(s: Serde, bytes: seq<byte>): Result<Data>
    decreases s, 0, 0
  {
    if !s.Fixed? && |bytes| > s.limits.maxTotalBytes then Err
    else
      match s
      case Fixed(p) => if |bytes| < Width(p) then Err else Ok(FromRaw(p, Value(bytes[..Width(p)])))
      case Text(l) =>
        var frame := ReadFrame(bytes, l.maxStringBytes);
        if frame.Err? then Err else Ok(Chars(frame.value.0))
      case Bytes(l) => ReadArray(Int(1, false), bytes, l.maxBytes)
      case FixedArray(p, l) => ReadArray(p, bytes, l.maxElements)
      case TextArray(l) =>
        var count := ReadSize(bytes, l.maxElements);
        if count.Err? then Err
        else
          var items := ReadTexts(bytes[8..], count.value, l.maxStringBytes);
          if items.Err? then Err else Ok(Items(items.value))
      case Array(e, l) =>
        var count := ReadSize(bytes, l.maxElements);
        if count.Err? then Err
        else
          var items := ReadItems(e, bytes[8..], count.value, l.maxTotalBytes);
          if items.Err? then Err else Ok(Items(items.value))
      case Dictionary(ks, vs, l) =>
        var first := ReadFrame(bytes, l.maxTotalBytes);
        if first.Err? then Err
        else
          var keys := Read(ks, first.value.0);
          if keys.Err? then Err
          else
            var second := ReadFrame(first.value.1, l.maxTotalBytes);
            if second.Err? then Err
            else
              var values := Read(vs, second.value.0);
              if values.Err? || !keys.value.Items? || !values.value.Items? || |keys.value.items| != |values.value.items|
                 || |keys.value.items| > l.maxElements then Err
              else Ok(Mapping(Collect(keys.value.items, values.value.items)))
      case Pair(ks, vs, l) =>
        var first := ReadFrame(bytes, l.maxTotalBytes);
        if first.Err? then Err
        else
          var key := Read(ks, first.value.0);
          if key.Err? then Err
          else
            var second := ReadFrame(first.value.1, l.maxTotalBytes);
            if second.Err? then Err
            else
              var value := Read(vs, second.value.0);
              if value.Err? then Err else Ok(Both(key.value, value.value))
  }

  /** A count, which has to fit into what is left, and that many values of fixed size. */
  function ReadArray(p: Prim, bytes: seq<byte>, maximum: nat): Result<Data> {
    var count := ReadSize(bytes, maximum);
    if count.Err? || count.value * Width(p) > |bytes| - SIZE_BYTES then Err
    else Ok(Items(ReadFixed(p, bytes[8..], count.value)))
  }

  // ---------------------------------------------------------------- frames

  const MAX_SIZE: nat := 0x1_0000_0000_0000_0000

  lemma EightBytes()
    ensures Pow256(8) == MAX_SIZE
  {
    assert Pow256(4) == 0x1_0000_0000;
  }

  lemma ReadSizeOf(n: nat, rest: seq<byte>, maximum: nat)
    requires n < MAX_SIZE
    ensures ReadSize(Size(n) + rest, maximum) == if n <= maximum then Ok(n) else Err
    ensures (Size(n) + rest)[8..] == rest
  {
    EightBytes();
    ValueOfEncode(8, n);
    assert (Size(n) + rest)[..8] == Size(n);
  }

  lemma ReadFrameOf(payload: seq<byte>, rest: seq<byte>, maximum: nat)
    requires |payload| < MAX_SIZE
    ensures ReadFrame(Framed(payload) + rest, maximum) == if |payload| <= maximum then Ok((payload, rest)) else Err
  {
    assert Framed(payload) + rest == Size(|payload|) + (payload + rest);
    ReadSizeOf(|payload|, payload + rest, maximum);
    var all := Size(|payload|) + (payload + rest);
    assert all[8..8 + |payload|] == payload && all[8 + |payload|..] == rest;
  }

  /** A frame that is cut off cannot be read. */
  lemma CutFrame(payload: seq<byte>, rest: seq<byte>, k: nat, maximum: nat)
    requires |payload| < MAX_SIZE && k < |Framed(payload)|
    ensures ReadFrame((Framed(payload) + rest)[..k], maximum) == Err
  {
    if k >= 8 {
      var cut := (Framed(payload) + rest)[..k];
      assert cut == Size(|payload|) + cut[8..];
      ReadSizeOf(|payload|, cut[8..], maximum);
    }
  }

  // ---------------------------------------------------------------- vectors of fixed-size values and of strings

  lemma OneMore(n: int, w: int)
    ensures (n + 1) * w == n * w + w
  {
  }

  lemma {:induction false} FixedLength(p: Prim, items: seq<Data>)
    requires PrimSound(p) && AllInRange(p, items)
    ensures |EncodeFixed(p, items)| == |items| * Width(p)
  {
    hide EncodePrim, Width, InRange, PrimSound;
    if items != [] {
      FixedLength(p, items[..|items| - 1]);
      OneMore(|items| - 1, Width(p));
    }
  }

  lemma {:induction false} FixedFromFront(p: Prim, items: seq<Data>)
    requires PrimSound(p) && AllInRange(p, items) && items != []
    ensures EncodeFixed(p, items) == EncodePrim(p, items[0]) + EncodeFixed(p, items[1..])
  {
    hide EncodePrim, InRange, PrimSound;
    var n := |items| - 1;
    if n > 0 {
      FixedFromFront(p, items[..n]);
      assert items[..n][1..] == items[1..][..n - 1];
      assert EncodeFixed(p, items[1..]) == EncodeFixed(p, items[1..][..n - 1]) + EncodePrim(p, items[n]);
    }
  }

  lemma {:induction false} ReadFixedOf(p: Prim, items: seq<Data>, rest: seq<byte>)
    requires PrimSound(p) && AllInRange(p, items)
    ensures |items| * Width(p) <= |EncodeFixed(p, items) + rest|
    ensures ReadFixed(p, EncodeFixed(p, items) + rest, |items|) == items
  {
    hide EncodePrim, Width, InRange, PrimSound, Value, FromRaw, EncodeFixed, ReadFixed;
    FixedLength(p, items);
    if items == [] {
      NoFixed(p, rest);
    } else {
      FixedFromFront(p, items);
      var first, tail := EncodePrim(p, items[0]), EncodeFixed(p, items[1..]);
      PrimRoundTrip(p, items[0]);
      ReadFixedOf(p, items[1..], rest);
      assert EncodeFixed(p, items) + rest == first + (tail + rest);
      NextFixed(p, first, tail + rest, |items|);
      assert items == [items[0]] + items[1..];
    }
  }

  lemma NoFixed(p: Prim, rest: seq<byte>)
    requires PrimSound(p)
    ensures ReadFixed(p, EncodeFixed(p, []) + rest, 0) == []
  {
  }

  lemma NextFixed(p: Prim, first: seq<byte>, rest: seq<byte>, count: nat)
    requires count > 0 && |first| == Width(p) && count * Width(p) <= |first + rest|
    ensures (count - 1) * Width(p) <= |rest|
    ensures ReadFixed(p, first + rest, count) == [FromRaw(p, Value(first))] + ReadFixed(p, rest, count - 1)
  {
    hide Value, FromRaw, Width;
    OneMore(count - 1, Width(p));
    assert (first + rest)[..|first|] == first && (first + rest)[|first|..] == rest;
  }

  lemma {:induction false} TextsFromFront(items: seq<Data>)
    requires AllChars(items) && items != []
    ensures EncodeTexts(items) == Framed(items[0].bytes) + EncodeTexts(items[1..])
  {
    hide Framed;
    var n := |items| - 1;
    if n > 0 {
      TextsFromFront(items[..n]);
      assert items[..n][1..] == items[1..][..n - 1];
      assert EncodeTexts(items[1..]) == EncodeTexts(items[1..][..n - 1]) + Framed(items[n].bytes);
    }
  }

  /** One string after the other. */
  lemma NextText(bytes: seq<byte>, count: nat, maximum: nat, first: seq<byte>, tail: seq<byte>)
    requires count > 0 && ReadFrame(bytes, maximum) == Ok((first, tail))
    ensures ReadTexts(bytes, count, maximum) == Joined([Chars(first)], ReadTexts(tail, count - 1, maximum))
  {
    hide ReadFrame;
  }

  lemma NoTexts(bytes: seq<byte>, maximum: nat)
    ensures ReadTexts(bytes, 0, maximum) == Ok([])
  {
  }

  lemma {:induction false} ReadTextsOf(items: seq<Data>, rest: seq<byte>, maximum: nat)
    requires AllChars(items) && |EncodeTexts(items)| < MAX_SIZE
    requires forall i | 0 <= i < |items| :: |items[i].bytes| <= maximum
    ensures ReadTexts(EncodeTexts(items) + rest, |items|, maximum) == Ok(items)
  {
    hide ReadTexts, ReadFrame;
    if items == [] {
      NoTexts(EncodeTexts(items) + rest, maximum);
    } else {
      TextsFromFront(items);
      var tail := EncodeTexts(items[1..]);
      assert |items[0].bytes| < MAX_SIZE && |tail| < MAX_SIZE;
      hide Framed, EncodeTexts;
      assert EncodeTexts(items) + rest == Framed(items[0].bytes) + (tail + rest);
      ReadFrameOf(items[0].bytes, tail + rest, maximum);
      NextText(EncodeTexts(items) + rest, |items|, maximum, items[0].bytes, tail + rest);
      ReadTextsOf(items[1..], rest, maximum);
      assert items == [Chars(items[0].bytes)] + items[1..];
    }
  }

  lemma {:induction false} CutTexts(items: seq<Data>, k: nat, maximum: nat)
    requires AllChars(items) && k < |EncodeTexts(items)| < MAX_SIZE
    ensures ReadTexts(EncodeTexts(items)[..k], |items|, maximum) == Err
  {
    TextsFromFront(items);
    var first, tail := Framed(items[0].bytes), EncodeTexts(items[1..]);
    if k < |first| {
      CutFrame(items[0].bytes, tail, k, maximum);
    } else {
      assert EncodeTexts(items)[..k] == first + tail[..k - |first|];
      ReadFrameOf(items[0].bytes, tail[..k - |first|], maximum);
      CutTexts(items[1..], k - |first|, maximum);
    }
  }

  lemma {:induction false} TextsLength(items: seq<Data>)
    requires AllChars(items)
    ensures |EncodeTexts(items)| >= |items|
  {
    if items != [] { TextsLength(items[..|items| - 1]); }
  }

  lemma {:induction false} ItemsLength(s: Serde, items: seq<Data>)
    requires AllTyped(s, items)
    ensures |WrittenItems(s, items)| >= |items|
    decreases |items|
  {
    if items != [] {
      hide Written;
      ItemsLength(s, items[..|items| - 1]);
    }
  }

  lemma WidthPositive(p: Prim, n: nat)
    requires PrimSound(p)
    ensures n <= n * Width(p)
  {
  }

  /** What ReadArray makes of a count and the values that were written after it. */
  lemma ReadArrayOf(p: Prim, items: seq<Data>, rest: seq<byte>, maximum: nat)
    requires PrimSound(p) && AllInRange(p, items) && |EncodeFixed(p, items)| < MAX_SIZE
    ensures ReadArray(p, Size(|items|) + EncodeFixed(p, items) + rest, maximum) ==
              if |items| <= maximum then Ok(Items(items)) else Err
  {
    FixedLength(p, items);
    WidthPositive(p, |items|);
    ReadFixedOf(p, items, rest);
    var tail := EncodeFixed(p, items) + rest;
    assert Size(|items|) + EncodeFixed(p, items) + rest == Size(|items|) + tail;
    ReadSizeOf(|items|, tail, maximum);
  }

  lemma CutArray(p: Prim, items: seq<Data>, k: nat, maximum: nat)
    requires PrimSound(p) && AllInRange(p, items) && |EncodeFixed(p, items)| < MAX_SIZE
    requires k < 8 + |EncodeFixed(p, items)|
    ensures ReadArray(p, (Size(|items|) + EncodeFixed(p, items))[..k], maximum) == Err
  {
    FixedLength(p, items);
    WidthPositive(p, |items|);
    if k >= 8 {
      var cut := (Size(|items|) + EncodeFixed(p, items))[..k];
      assert cut == Size(|items|) + cut[8..];
      ReadSizeOf(|items|, cut[8..], maximum);
    }
  }

  // ---------------------------------------------------------------- maps

  lemma {:induction false} AssignNew(entries: seq<Entry>, key: Data, value: Data)
    requires forall i | 0 <= i < |entries| :: entries[i].key != key
    ensures Assign(entries, key, value) == entries + [Entry(key, value)]
  {
    if entries != [] {
      AssignNew(entries[1..], key, value);
      assert entries == [entries[0]] + entries[1..];
    }
  }

  /** A map with distinct keys is collected as it was iterated. */
  lemma {:induction false} CollectAll(entries: seq<Entry>)
    requires DistinctKeys(entries)
    ensures Collect(Keys(entries), Values(entries)) == entries
  {
    if entries != [] {
      var n := |entries| - 1;
      var init := entries[..n];
      CollectAll(init);
      assert Keys(entries)[..n] == Keys(init) && Values(entries)[..n] == Values(init);
      AssignNew(init, entries[n].key, entries[n].value);
      assert entries == init + [entries[n]];
    }
  }

  /** The last place of its key. */
  predicate IsLast(keys: seq<Data>, i: nat) {
    i < |keys| && keys[i] !in keys[i + 1..]
  }

  lemma {:induction false} AssignReplaces(entries: seq<Entry>, key: Data, value: Data)
    requires DistinctKeys(entries)
    ensures forall e :: e in Assign(entries, key, value) <==> e == Entry(key, value) || (e in entries && e.key != key)
  {
    if entries != [] {
      assert entries == [entries[0]] + entries[1..];
      AssignReplaces(entries[1..], key, value);
    }
  }

  lemma {:induction false} AssignDistinct(entries: seq<Entry>, key: Data, value: Data)
    requires DistinctKeys(entries)
    ensures DistinctKeys(Assign(entries, key, value))
  {
    if entries != [] && entries[0].key != key {
      AssignDistinct(entries[1..], key, value);
      AssignReplaces(entries[1..], key, value);
      var rest := Assign(entries[1..], key, value);
      forall i | 0 <= i < |rest| ensures rest[i].key != entries[0].key {
        assert rest[i] in rest;
      }
    }
  }

  /** The key stands at its last place, with this value. */
  predicate LastEntry(keys: seq<Data>, values: seq<Data>, e: Entry)
    requires |keys| == |values|
  {
    exists i: nat | i < |keys| :: IsLast(keys, i) && e == Entry(keys[i], values[i])
  }

  /** Where keys repeat, each of them is kept once, with the value that came last. */
  lemma {:induction false} CollectKeepsLast(keys: seq<Data>, values: seq<Data>)
    requires |keys| == |values|
    ensures DistinctKeys(Collect(keys, values))
    ensures forall e :: e in Collect(keys, values) <==> LastEntry(keys, values, e)
  {
    if keys != [] {
      var n := |keys| - 1;
      var most := Collect(keys[..n], values[..n]);
      CollectKeepsLast(keys[..n], values[..n]);
      AssignReplaces(most, keys[n], values[n]);
      AssignDistinct(most, keys[n], values[n]);
      forall e ensures e in Collect(keys, values) <==> LastEntry(keys, values, e) {
        LastEntryOfMore(keys, values, e);
      }
    }
  }

  lemma LastEntryOfMore(keys: seq<Data>, values: seq<Data>, e: Entry)
    requires |keys| == |values| > 0
    ensures var n := |keys| - 1;
            LastEntry(keys, values, e) <==>
              e == Entry(keys[n], values[n]) || (LastEntry(keys[..n], values[..n], e) && e.key != keys[n])
  {
    var n := |keys| - 1;
    LastOfMore(keys);
    hide IsLast;
    if LastEntry(keys[..n], values[..n], e) && e.key != keys[n] {
      var i: nat :| i < n && IsLast(keys[..n], i) && e == Entry(keys[..n][i], values[..n][i]);
      assert IsLast(keys, i) && e == Entry(keys[i], values[i]);
    }
    if LastEntry(keys, values, e) && e != Entry(keys[n], values[n]) {
      var i: nat :| i < |keys| && IsLast(keys, i) && e == Entry(keys[i], values[i]);
      assert i < n && IsLast(keys[..n], i) && e == Entry(keys[..n][i], values[..n][i]);
    }
  }

  lemma LastOfMore(keys: seq<Data>)
    requires keys != []
    ensures var n := |keys| - 1;
            && IsLast(keys, n)
            && forall i: nat | i < n :: IsLast(keys, i) <==> IsLast(keys[..n], i) && keys[i] != keys[n]
  {
    var n := |keys| - 1;
    forall i: nat | i < n ensures IsLast(keys, i) <==> IsLast(keys[..n], i) && keys[i] != keys[n] {
      assert keys[i + 1..] == keys[..n][i + 1..] + [keys[n]];
    }
  }

  /** Whatever bytes are read as a map, the keys of the result are different. */
  lemma ReadsAMap(s: Serde, bytes: seq<byte>)
    requires s.Dictionary? && Read(s, bytes).Ok?
    ensures Read(s, bytes).value.Mapping? && DistinctKeys(Read(s, bytes).value.entries)
  {
    var l := s.limits.maxTotalBytes;
    var first := ReadFrame(bytes, l).value;
    var second := ReadFrame(first.1, l).value;
    var keys, values := Read(s.keys, first.0).value, Read(s.values, second.0).value;
    CollectKeepsLast(keys.items, values.items);
    hide ReadFrame, Collect;
  }

  // ---------------------------------------------------------------- round trip

  /** The limits on total bytes, which are checked while reading only; `extra` bytes follow the value. */
  predicate Readable(s: Serde, d: Data, extra: nat)
    requires Typed(s, d)
    decreases s, 0
  {
    s.Fixed? ||
    (&& |Written(s, d)| + extra <= s.limits.maxTotalBytes
     && match s
        case Array(e, _) => AllReadable(e, d.items)
        case Dictionary(k, v, _) => Readable(k, Items(Keys(d.entries)), 0) && Readable(v, Items(Values(d.entries)), 0)
        case Pair(k, v, _) => Readable(k, d.first, 0) && Readable(v, d.second, 0)
        case _ => true)
  }

  predicate AllReadable(s: Serde, items: seq<Data>)
    requires AllTyped(s, items)
    decreases s, 1
  {
    forall i | 0 <= i < |items| :: Readable(s, items[i], 0)
  }

  lemma {:induction false} ItemsFromFront(s: Serde, items: seq<Data>)
    requires AllTyped(s, items) && items != []
    ensures WrittenItems(s, items) == Framed(Written(s, items[0])) + WrittenItems(s, items[1..])
    decreases |items|
  {
    hide Framed, Written;
    var n := |items| - 1;
    if n > 0 {
      ItemsFromFront(s, items[..n]);
      assert items[..n][1..] == items[1..][..n - 1];
      assert WrittenItems(s, items[1..]) == WrittenItems(s, items[1..][..n - 1]) + Framed(Written(s, items[n]));
    }
  }

  /** The encoding of a value of the serde is read back. */
  ghost predicate ReadsBack(s: Serde, d: Data, rest: seq<byte>)
    requires Typed(s, d)
  {
    Read(s, Written(s, d) + rest) == if Readable(s, d, |rest|) then Ok(d) else Err
  }

  /** One element after the other. */
  lemma NextItem(s: Serde, bytes: seq<byte>, count: nat, maximum: nat, payload: seq<byte>, tail: seq<byte>)
    requires count > 0 && ReadFrame(bytes, maximum) == Ok((payload, tail))
    ensures ReadItems(s, bytes, count, maximum) ==
              var item, rest := Read(s, payload), ReadItems(s, tail, count - 1, maximum);
              if item.Err? || rest.Err? then Err else Ok([item.value] + rest.value)
  {
    hide Read, ReadFrame;
  }

  lemma ReadableFromFront(s: Serde, items: seq<Data>)
    requires AllTyped(s, items) && items != []
    ensures AllReadable(s, items) <==> Readable(s, items[0], 0) && AllReadable(s, items[1..])
  {
    hide Readable, Typed;
    assert forall i | 1 <= i < |items| :: items[i] == items[1..][i - 1];
  }

  lemma NoItems(s: Serde, rest: seq<byte>, maximum: nat)
    ensures ReadItems(s, WrittenItems(s, []) + rest, 0, maximum) == Ok([]) && AllReadable(s, [])
  {
  }

  lemma {:induction false} ItemsReadBack(s: Serde, items: seq<Data>, rest: seq<byte>, maximum: nat)
    requires AllTyped(s, items) && AllWritable(s, items)
    requires |WrittenItems(s, items)| < MAX_SIZE && |WrittenItems(s, items)| <= maximum
    ensures ReadItems(s, WrittenItems(s, items) + rest, |items|, maximum) ==
              if AllReadable(s, items) then Ok(items) else Err
    decreases s, 2, |items|
  {
    hide Written, WrittenItems, ReadFrame, Read, Readable, AllReadable, ReadItems, Typed, Writable;
    if items == [] {
      NoItems(s, rest, maximum);
    } else {
      ItemsFromFront(s, items);
      var payload, tail := Written(s, items[0]), WrittenItems(s, items[1..]);
      RoundTrip(s, items[0], []);
      assert payload + [] == payload;
      ItemsReadBack(s, items[1..], rest, maximum);
      ReadFrameOf(payload, tail + rest, maximum);
      assert WrittenItems(s, items) + rest == Framed(payload) + (tail + rest);
      NextItem(s, WrittenItems(s, items) + rest, |items|, maximum, payload, tail + rest);
      ReadableFromFront(s, items);
      assert items == [items[0]] + items[1..];
    }
  }

  lemma {:induction false} RoundTrip(s: Serde, d: Data, rest: seq<byte>)
    requires Typed(s, d) && Writable(s, d) && |Written(s, d)| < MAX_SIZE
    ensures ReadsBack(s, d, rest)
    decreases s, 1, 0
  {
    match s
    case Fixed(p) => FixedReadsBack(p, d, rest);
    case Text(l) => ReadFrameOf(d.bytes, rest, l.maxStringBytes);
    case Bytes(l) => ReadArrayOf(Int(1, false), d.items, rest, l.maxBytes);
    case FixedArray(p, l) => ReadArrayOf(p, d.items, rest, l.maxElements);
    case TextArray(l) => TextsReadBack(s, d, rest);
    case Array(e, l) => ArrayReadsBack(s, d, rest);
    case Dictionary(k, v, l) => DictionaryReadsBack(s, d, rest);
    case Pair(k, v, l) => PairReadsBack(s, d, rest);
  }

  lemma FixedReadsBack(p: Prim, d: Data, rest: seq<byte>)
    requires PrimSound(p) && InRange(p, d)
    ensures ReadsBack(Fixed(p), d, rest)
  {
    PrimRoundTrip(p, d);
    assert (EncodePrim(p, d) + rest)[..Width(p)] == EncodePrim(p, d);
  }

  lemma TextsReadBack(s: Serde, d: Data, rest: seq<byte>)
    requires s.TextArray? && Typed(s, d) && Writable(s, d) && |Written(s, d)| < MAX_SIZE
    ensures ReadsBack(s, d, rest)
  {
    TextsLength(d.items);
    var tail := EncodeTexts(d.items) + rest;
    assert Written(s, d) + rest == Size(|d.items|) + tail;
    ReadSizeOf(|d.items|, tail, s.limits.maxElements);
    ReadTextsOf(d.items, rest, s.limits.maxStringBytes);
  }

  lemma ArrayReadsBack(s: Serde, d: Data, rest: seq<byte>)
    requires s.Array? && Typed(s, d) && Writable(s, d) && |Written(s, d)| < MAX_SIZE
    ensures ReadsBack(s, d, rest)
    decreases s, 0, 0
  {
    if |Written(s, d)| + |rest| <= s.limits.maxTotalBytes {
      ItemsLength(s.element, d.items);
      var tail := WrittenItems(s.element, d.items) + rest;
      assert Written(s, d) + rest == Size(|d.items|) + tail;
      ReadSizeOf(|d.items|, tail, s.limits.maxElements);
      ItemsReadBack(s.element, d.items, rest, s.limits.maxTotalBytes);
    }
  }

  /** What Read makes of two frames. */
  lemma ReadTwoFrames(s: Serde, bytes: seq<byte>, a: seq<byte>, b: seq<byte>, rest: seq<byte>)
    requires (s.Pair? || s.Dictionary?) && bytes == Framed(a) + (Framed(b) + rest)
    requires |a| < MAX_SIZE && |b| < MAX_SIZE && |bytes| <= s.limits.maxTotalBytes
    ensures s.Pair? ==>
              var k, v := Read(s.key, a), Read(s.value, b);
              Read(s, bytes) == if k.Err? || v.Err? then Err else Ok(Both(k.value, v.value))
    ensures s.Dictionary? ==>
              var k, v := Read(s.keys, a), Read(s.values, b);
              Read(s, bytes) ==
                if k.Err? || v.Err? || !k.value.Items? || !v.value.Items? || |k.value.items| != |v.value.items|
                   || |k.value.items| > s.limits.maxElements then Err
                else Ok(Mapping(Collect(k.value.items, v.value.items)))
  {
    ReadFrameOf(a, Framed(b) + rest, s.limits.maxTotalBytes);
    ReadFrameOf(b, rest, s.limits.maxTotalBytes);
    hide ReadFrame, Size, Collect;
  }

  lemma DictionaryReadsBack(s: Serde, d: Data, rest: seq<byte>)
    requires s.Dictionary? && Typed(s, d) && Writable(s, d) && |Written(s, d)| < MAX_SIZE
    ensures ReadsBack(s, d, rest)
    decreases s, 0, 0
  {
    hide Typed, Writable, Readable, Written, Read, Collect;
    DictionaryUnfolds(s, d, |rest|);
    var keys, values := Items(Keys(d.entries)), Items(Values(d.entries));
    var a, b := Written(s.keys, keys), Written(s.values, values);
    if |Written(s, d)| + |rest| <= s.limits.maxTotalBytes {
      RoundTrip(s.keys, keys, []);
      RoundTrip(s.values, values, []);
      assert a + [] == a && b + [] == b;
      assert Written(s, d) + rest == Framed(a) + (Framed(b) + rest);
      ReadTwoFrames(s, Written(s, d) + rest, a, b, rest);
    } else {
      TooLong(s, Written(s, d) + rest);
    }
  }

  lemma DictionaryUnfolds(s: Serde, d: Data, extra: nat)
    requires s.Dictionary? && Typed(s, d) && Writable(s, d)
    ensures d.Mapping? && |d.entries| <= s.limits.maxElements
    ensures Collect(Keys(d.entries), Values(d.entries)) == d.entries
    ensures Typed(s.keys, Items(Keys(d.entries))) && Typed(s.values, Items(Values(d.entries)))
    ensures Writable(s.keys, Items(Keys(d.entries))) && Writable(s.values, Items(Values(d.entries)))
    ensures Written(s, d) ==
              Framed(Written(s.keys, Items(Keys(d.entries)))) + Framed(Written(s.values, Items(Values(d.entries))))
    ensures Readable(s, d, extra) <==>
            && |Written(s, d)| + extra <= s.limits.maxTotalBytes
            && Readable(s.keys, Items(Keys(d.entries)), 0) && Readable(s.values, Items(Values(d.entries)), 0)
  {
    CollectAll(d.entries);
    hide Framed, Collect;
  }

  lemma PairWrites(s: Serde, d: Data)
    requires s.Pair? && Typed(s, d)
    ensures d.Both? && Typed(s.key, d.first) && Typed(s.value, d.second)
    ensures Writable(s, d) <==> Writable(s.key, d.first) && Writable(s.value, d.second)
    ensures Written(s, d) == Framed(Written(s.key, d.first)) + Framed(Written(s.value, d.second))
  {
    hide Framed;
  }

  lemma DictionaryWrites(s: Serde, d: Data)
    requires s.Dictionary? && Typed(s, d)
    ensures d.Mapping? && Typed(s.keys, Items(Keys(d.entries))) && Typed(s.values, Items(Values(d.entries)))
    ensures Writable(s, d) <==>
            && |d.entries| <= s.limits.maxElements
            && Writable(s.keys, Items(Keys(d.entries))) && Writable(s.values, Items(Values(d.entries)))
    ensures Written(s, d) ==
              Framed(Written(s.keys, Items(Keys(d.entries)))) + Framed(Written(s.values, Items(Values(d.entries))))
  {
    hide Framed;
  }

  lemma TextArrayWrites(s: Serde, d: Data)
    requires s.TextArray? && Typed(s, d)
    ensures d.Items? && AllChars(d.items)
    ensures Writable(s, d) <==>
            && |d.items| <= s.limits.maxElements
            && forall i | 0 <= i < |d.items| :: |d.items[i].bytes| <= s.limits.maxStringBytes
    ensures Written(s, d) == Size(|d.items|) + EncodeTexts(d.items)
  {
  }

  lemma ArrayWrites(s: Serde, d: Data)
    requires s.Array? && Typed(s, d)
    ensures d.Items? && AllTyped(s.element, d.items)
    ensures Writable(s, d) <==> |d.items| <= s.limits.maxElements && AllWritable(s.element, d.items)
    ensures Written(s, d) == Size(|d.items|) + WrittenItems(s.element, d.items)
  {
  }

  lemma PairUnfolds(s: Serde, d: Data, extra: nat)
    requires s.Pair? && Typed(s, d) && Writable(s, d)
    ensures d.Both? && Typed(s.key, d.first) && Typed(s.value, d.second)
    ensures Writable(s.key, d.first) && Writable(s.value, d.second)
    ensures Written(s, d) == Framed(Written(s.key, d.first)) + Framed(Written(s.value, d.second))
    ensures Readable(s, d, extra) <==>
            && |Written(s, d)| + extra <= s.limits.maxTotalBytes
            && Readable(s.key, d.first, 0) && Readable(s.value, d.second, 0)
  {
    hide Framed;
  }

  lemma TooLong(s: Serde, bytes: seq<byte>)
    requires !s.Fixed? && |bytes| > s.limits.maxTotalBytes
    ensures Read(s, bytes) == Err
  {
  }

  lemma PairReadsBack(s: Serde, d: Data, rest: seq<byte>)
    requires s.Pair? && Typed(s, d) && Writable(s, d) && |Written(s, d)| < MAX_SIZE
    ensures ReadsBack(s, d, rest)
    decreases s, 0, 0
  {
    hide Typed, Writable, Readable, Written, Read;
    PairUnfolds(s, d, |rest|);
    var a, b := Written(s.key, d.first), Written(s.value, d.second);
    if |Written(s, d)| + |rest| <= s.limits.maxTotalBytes {
      RoundTrip(s.key, d.first, []);
      RoundTrip(s.value, d.second, []);
      assert a + [] == a && b + [] == b;
      assert Written(s, d) + rest == Framed(a) + (Framed(b) + rest);
      ReadTwoFrames(s, Written(s, d) + rest, a, b, rest);
    } else {
      TooLong(s, Written(s, d) + rest);
    }
  }

  // ---------------------------------------------------------------- truncated input

  lemma NothingToCut(s: Serde, items: seq<Data>)
    requires AllTyped(s, items) && |WrittenItems(s, items)| > 0
    ensures items != []
  {
  }

  lemma NoFrame(s: Serde, bytes: seq<byte>, count: nat, maximum: nat)
    requires count > 0 && ReadFrame(bytes, maximum) == Err
    ensures ReadItems(s, bytes, count, maximum) == Err
  {
  }

  lemma {:induction false} CutItems(s: Serde, items: seq<Data>, k: nat, maximum: nat)
    requires AllTyped(s, items) && k < |WrittenItems(s, items)| < MAX_SIZE
    ensures ReadItems(s, WrittenItems(s, items)[..k], |items|, maximum) == Err
    decreases |items|
  {
    hide Written, WrittenItems, ReadFrame, ReadItems, Read, Typed;
    NothingToCut(s, items);
    ItemsFromFront(s, items);
    var payload, tail := Written(s, items[0]), WrittenItems(s, items[1..]);
    var n, cut := |Framed(payload)|, WrittenItems(s, items)[..k];
    if k < n {
      CutFrame(payload, tail, k, maximum);
      NoFrame(s, cut, |items|, maximum);
    } else {
      assert cut == Framed(payload) + tail[..k - n];
      ReadFrameOf(payload, tail[..k - n], maximum);
      CutItems(s, items[1..], k - n, maximum);
      if |payload| <= maximum {
        NextItem(s, cut, |items|, maximum, payload, tail[..k - n]);
      } else {
        NoFrame(s, cut, |items|, maximum);
      }
    }
  }

  /** Of two frames, at least one is cut off. */
  lemma CutTwoFrames(s: Serde, a: seq<byte>, b: seq<byte>, k: nat)
    requires (s.Pair? || s.Dictionary?) && |a| < MAX_SIZE && |b| < MAX_SIZE && k < |Framed(a) + Framed(b)|
    ensures Read(s, (Framed(a) + Framed(b))[..k]) == Err
  {
    var cut := (Framed(a) + Framed(b))[..k];
    if k < |Framed(a)| {
      CutFrame(a, Framed(b), k, s.limits.maxTotalBytes);
    } else {
      var j := k - |Framed(a)|;
      assert cut == Framed(a) + Framed(b)[..j];
      ReadFrameOf(a, Framed(b)[..j], s.limits.maxTotalBytes);
      CutFrame(b, [], j, s.limits.maxTotalBytes);
      assert Framed(b) + [] == Framed(b);
    }
    hide ReadFrame, Framed, Collect;
  }

  /** A count and what follows it, cut off. */
  lemma CutCounted(s: Serde, d: Data, body: seq<byte>, k: nat)
    requires (s.TextArray? || s.Array?) && Typed(s, d) && Written(s, d) == Size(|d.items|) + body && |d.items| <= |body|
    requires k < |Written(s, d)| < MAX_SIZE
    ensures k < 8 ==> Read(s, Written(s, d)[..k]) == Err
    ensures k >= 8 ==> Written(s, d)[..k] == Size(|d.items|) + body[..k - 8]
    ensures k >= 8 && |d.items| > s.limits.maxElements ==> Read(s, Written(s, d)[..k]) == Err
  {
    var cut := Written(s, d)[..k];
    if k >= 8 {
      assert cut == Size(|d.items|) + body[..k - 8];
      ReadSizeOf(|d.items|, body[..k - 8], s.limits.maxElements);
    }
    hide Written, Typed;
  }

  lemma CutTextArray(s: Serde, d: Data, k: nat)
    requires s.TextArray? && Typed(s, d) && k < |Written(s, d)| < MAX_SIZE
    ensures Read(s, Written(s, d)[..k]) == Err
  {
    TextsLength(d.items);
    var body := EncodeTexts(d.items);
    CutCounted(s, d, body, k);
    if k >= 8 {
      ReadSizeOf(|d.items|, body[..k - 8], s.limits.maxElements);
      CutTexts(d.items, k - 8, s.limits.maxStringBytes);
    }
  }

  lemma UnreadableItems(s: Serde, bytes: seq<byte>, count: nat)
    requires s.Array? && ReadSize(bytes, s.limits.maxElements) == Ok(count)
    requires |bytes| >= 8 && ReadItems(s.element, bytes[8..], count, s.limits.maxTotalBytes) == Err
    ensures Read(s, bytes) == Err
  {
    hide ReadSize, ReadItems;
  }

  lemma CutArrayOf(s: Serde, d: Data, k: nat)
    requires s.Array? && Typed(s, d) && k < |Written(s, d)| < MAX_SIZE
    ensures Read(s, Written(s, d)[..k]) == Err
  {
    ArrayWrites(s, d);
    hide Typed, Written, Writable, Read, ReadItems;
    ItemsLength(s.element, d.items);
    var body := WrittenItems(s.element, d.items);
    CutCounted(s, d, body, k);
    if k >= 8 && |d.items| <= s.limits.maxElements {
      var cut := Size(|d.items|) + body[..k - 8];
      ReadSizeOf(|d.items|, body[..k - 8], s.limits.maxElements);
      CutItems(s.element, d.items, k - 8, s.limits.maxTotalBytes);
      assert cut[8..] == body[..k - 8];
      UnreadableItems(s, cut, |d.items|);
    }
  }

  /** Every strict prefix of an encoding is rejected. */
  lemma StrictPrefixRejected(s: Serde, d: Data, k: nat)
    requires Typed(s, d) && k < |Written(s, d)| < MAX_SIZE
    ensures Read(s, Written(s, d)[..k]) == Err
  {
    match s
    case Fixed(p) =>
    case Text(l) =>
      CutFrame(d.bytes, [], k, l.maxStringBytes);
      assert Framed(d.bytes) + [] == Framed(d.bytes);
    case Bytes(l) => CutArray(Int(1, false), d.items, k, l.maxBytes);
    case FixedArray(p, l) => CutArray(p, d.items, k, l.maxElements);
    case TextArray(_) => CutTextArray(s, d, k);
    case Array(_, _) => CutArrayOf(s, d, k);
    case Dictionary(ks, vs, _) =>
      CutTwoFrames(s, Written(ks, Items(Keys(d.entries))), Written(vs, Items(Values(d.entries))), k);
    case Pair(ks, vs, _) => CutTwoFrames(s, Written(ks, d.first), Written(vs, d.second), k);
  }
}
