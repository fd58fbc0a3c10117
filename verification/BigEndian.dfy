/** Numbers as big-endian byte strings, and the order of such strings. */
module BigEndian {
  type byte = x: int | 0 <= x < 256

  function Pow256(w: nat): nat {
    if w == 0 then 1 else 256 * Pow256(w - 1)
  }

  lemma {:induction false} Pow256Positive(w: nat)
    ensures Pow256(w) > 0
  {
    if w > 0 { Pow256Positive(w - 1); }
  }

  /** The `w` low-order bytes of a number, the most significant first. */
  function Encode(w: nat, n: nat): (bytes: seq<byte>)
    ensures |bytes| == w
  {
    if w == 0 then [] else Encode(w - 1, n / 256) + [n % 256]
  }

  function Value(bytes: seq<byte>): nat {
    if bytes == [] then 0 else 256 * Value(bytes[..|bytes| - 1]) + bytes[|bytes| - 1]
  }

  lemma {:induction false} ValueOfEncode(w: nat, n: nat)
    requires n < Pow256(w)
    ensures Value(Encode(w, n)) == n
  {
    if w > 0 {
      ValueOfEncode(w - 1, n / 256);
      assert Encode(w, n)[..w - 1] == Encode(w - 1, n / 256);
    }
  }

  lemma {:induction false} ValueBound(bytes: seq<byte>)
    ensures Value(bytes) < Pow256(|bytes|)
  {
    if bytes != [] { ValueBound(bytes[..|bytes| - 1]); }
  }

  // ---------------------------------------------------------------- one byte at a time

  /** What shifting by whole bytes and masking gives. */
  function ByteAt(n: nat, index: nat): byte {
    Pow256Positive(index);
    n / Pow256(index) % 256
  }

  lemma DivideTwice(n: nat, d: nat)
    requires d > 0
    ensures n / (256 * d) == n / 256 / d
  {
    var q, r := n / 256 / d, n / 256 % d;
    assert n / 256 == q * d + r;
    assert n == 256 * (q * d + r) + n % 256;
    assert n == q * (256 * d) + (256 * r + n % 256);
    assert 0 <= 256 * r + n % 256 < 256 * d;
    Quotient(n, 256 * d, q, 256 * r + n % 256);
  }

  lemma AtLeast(k: int, d: int)
    requires k >= 1 && d > 0
    ensures k * d >= d
  {
    assert k * d == (k - 1) * d + d;
    assert (k - 1) * d >= 0;
  }

  lemma Quotient(n: int, d: int, q: int, r: int)
    requires d > 0 && n == q * d + r && 0 <= r < d
    ensures n / d == q
  {
    var k := n / d - q;
    assert n == n / d * d + n % d;
    assert k * d == n / d * d - q * d;
    if k >= 1 {
      AtLeast(k, d);
    } else if k <= -1 {
      AtLeast(-k, d);
    }
  }

  lemma {:induction false} EncodeByteAt(w: nat, n: nat, k: nat)
    requires k < w
    ensures Encode(w, n)[k] == ByteAt(n, w - 1 - k)
  {
    if k < w - 1 {
      EncodeByteAt(w - 1, n / 256, k);
      Pow256Positive(w - 2 - k);
      DivideTwice(n, Pow256(w - 2 - k));
    }
  }

  // ---------------------------------------------------------------- order

  /** The order in which byte strings of one length are stored: the first difference decides. */
  predicate Before(a: seq<byte>, b: seq<byte>)
    requires |a| == |b|
  {
    if a == [] then false
    else a[0] < b[0] || (a[0] == b[0] && Before(a[1..], b[1..]))
  }

  lemma OnePlaceUp(digit: nat, power: nat)
    ensures 256 * (digit * power) == digit * (256 * power)
  {
  }

  lemma {:induction false} ValueFromFront(bytes: seq<byte>)
    requires bytes != []
    ensures Value(bytes) == bytes[0] * Pow256(|bytes| - 1) + Value(bytes[1..])
  {
    if |bytes| > 1 {
      var n := |bytes| - 1;
      var init, tail := bytes[..n], bytes[1..];
      ValueFromFront(init);
      assert init[1..] == tail[..n - 1];
      OnePlaceUp(bytes[0], Pow256(n - 1));
      ValueOfLast(bytes);
      ValueOfLast(tail);
      PowerOfNext(n - 1);
      hide Value, Pow256;
    }
  }

  lemma ValueOfLast(bytes: seq<byte>)
    requires bytes != []
    ensures Value(bytes) == 256 * Value(bytes[..|bytes| - 1]) + bytes[|bytes| - 1]
  {
  }

  lemma PowerOfNext(w: nat)
    ensures Pow256(w + 1) == 256 * Pow256(w)
  {
  }

  /** Comparing bytes is comparing numbers. */
  lemma {:induction false} BeforeIsLess(a: seq<byte>, b: seq<byte>)
    requires |a| == |b|
    ensures Before(a, b) <==> Value(a) < Value(b)
  {
    if a != [] {
      BeforeIsLess(a[1..], b[1..]);
      ValueFromFront(a);
      ValueFromFront(b);
      ValueBound(a[1..]);
      ValueBound(b[1..]);
      Digits(a[0], Value(a[1..]), b[0], Value(b[1..]), Pow256(|a| - 1));
    }
  }

  lemma Digits(x: int, u: int, y: int, v: int, p: int)
    requires 0 <= u < p && 0 <= v < p
    ensures x * p + u < y * p + v <==> x < y || (x == y && u < v)
  {
    if x < y {
      AtLeast(y - x, p);
      assert (y - x) * p == y * p - x * p;
    } else if y < x {
      AtLeast(x - y, p);
      assert (x - y) * p == x * p - y * p;
    }
  }
}
