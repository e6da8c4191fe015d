/** Fixed-width signed integers as big-endian bytes. */
module Wire {

  type byte = x: int | 0 <= x < 256

  predicate IsWidth(w: nat) {
    w == 1 || w == 2 || w == 4 || w == 8
  }

  /** 2^(8w): the number of values `w` bytes can hold. */
  function Span(w: nat): (r: nat)
    ensures r > 0
  {
    if w == 0 then 1 else 256 * Span(w - 1)
  }

  predicate Fits(x: int, w: nat) {
    w >= 1 && -128 * Span(w - 1) <= x < 128 * Span(w - 1)
  }

  function BigEndian(n: nat, w: nat): (s: seq<byte>)
    ensures |s| == w
  {
    if w == 0 then [] else BigEndian(n / 256, w - 1) + [n % 256]
  }

  function FromBigEndian(s: seq<byte>): nat {
    if s == [] then 0 else FromBigEndian(s[..|s| - 1]) * 256 + s[|s| - 1]
  }

  /** htobeNN on the two's complement representation of `x`. */
  function Encode(x: int, w: nat): (s: seq<byte>)
    requires Fits(x, w)
    ensures |s| == w
  {
    BigEndian(if x < 0 then x + Span(w) else x, w)
  }

  /** beNNtoh, read back as a signed value. */
  function Decode(s: seq<byte>): int
    requires |s| >= 1
  {
    var n := FromBigEndian(s);
    if n < 128 * Span(|s| - 1) then n else n - Span(|s|)
  }

  lemma {:induction false} BigEndianRoundTrip(n: nat, w: nat)
    requires n < Span(w)
    ensures FromBigEndian(BigEndian(n, w)) == n
    decreases w
  {
    if w > 0 {
      BigEndianRoundTrip(n / 256, w - 1);
      var s := BigEndian(n, w);
      assert s[..|s| - 1] == BigEndian(n / 256, w - 1);
    }
  }

  lemma {:induction false} FromBigEndianBound(s: seq<byte>)
    ensures FromBigEndian(s) < Span(|s|)
    ensures BigEndian(FromBigEndian(s), |s|) == s
    decreases |s|
  {
    if s != [] {
      var high := s[..|s| - 1];
      FromBigEndianBound(high);
      assert s == high + [s[|s| - 1]];
    }
  }

  /** Every value of the width survives the wire, minimum included. */
  lemma DecodeEncode(x: int, w: nat)
    requires Fits(x, w)
    ensures Decode(Encode(x, w)) == x
  {
    assert Span(w) == 256 * Span(w - 1);
    BigEndianRoundTrip(if x < 0 then x + Span(w) else x, w);
  }

  /** And every byte string is the encoding of what it decodes to. */
  lemma EncodeDecode(s: seq<byte>)
    requires |s| >= 1
    ensures Fits(Decode(s), |s|) && Encode(Decode(s), |s|) == s
  {
    FromBigEndianBound(s);
    assert Span(|s|) == 256 * Span(|s| - 1);
  }

  // ---- Which byte comes first ----

  /** The digit of weight 256^i. */
  function Digit(n: int, i: nat): int {
    n / Span(i) % 256
  }

  /** The bytes are the digits of the value, the heaviest first, or those of the value and the whole
      span together if it is negative. */
  ghost predicate NetworkOrder(s: seq<byte>, x: int) {
    forall k :: 0 <= k < |s| ==> s[k] == Digit(if x < 0 then x + Span(|s|) else x, |s| - 1 - k)
  }

  lemma {:induction false} Product(d: nat, e: nat)
    ensures d * e >= 0
  {
  }

  lemma Mono(a: int, b: int, d: nat)
    ensures a < b ==> d * a + d <= d * b
  {
    if a < b {
      var e := b - a - 1;
      Product(d, e);
      assert d * (a + 1 + e) == d * a + d + d * e;
    }
  }

  lemma QuotientIs(n: nat, d: nat, q: nat)
    requires d > 0 && d * q <= n < d * q + d
    ensures n / d == q
  {
    var p := n / d;
    assert d * p <= n < d * p + d;
    Mono(p, q, d);
    Mono(q, p, d);
  }

  lemma DivTwice(n: nat, m: nat)
    requires m > 0
    ensures n / 256 / m == n / (256 * m)
  {
    var q := n / 256 / m;
    assert m * q <= n / 256 < m * q + m;
    assert (256 * m) * q == 256 * (m * q);
    QuotientIs(n, 256 * m, q);
  }

  lemma {:induction false} BigEndianAt(n: nat, w: nat, k: nat)
    requires k < w
    ensures BigEndian(n, w)[k] == Digit(n, w - 1 - k)
  {
    if k < w - 1 {
      BigEndianAt(n / 256, w - 1, k);
      DivTwice(n, Span(w - 2 - k));
    }
  }

  lemma ByteOrder(x: int, w: nat)
    requires Fits(x, w)
    ensures NetworkOrder(Encode(x, w), x)
  {
    assert Span(w) == 256 * Span(w - 1);
    var n := if x < 0 then x + Span(w) else x;
    forall k | 0 <= k < w ensures Encode(x, w)[k] == Digit(n, w - 1 - k) {
      BigEndianAt(n, w, k);
    }
  }

  /** The first byte in which they differ decides. */
  ghost predicate Before(s: seq<byte>, t: seq<byte>) {
    exists d :: 0 <= d < |s| && d < |t| && s[..d] == t[..d] && s[d] < t[d]
  }

  lemma LongerBefore(u: seq<byte>, v: seq<byte>, s: seq<byte>, t: seq<byte>)
    requires Before(u, v)
    ensures Before(u + s, v + t)
  {
    var d :| 0 <= d < |u| && d < |v| && u[..d] == v[..d] && u[d] < v[d];
    assert (u + s)[..d] == u[..d] && (v + t)[..d] == v[..d];
    assert (u + s)[d] < (v + t)[d];
  }

  lemma {:induction false} BigEndianBefore(m: nat, n: nat, w: nat)
    requires m < n < Span(w)
    ensures Before(BigEndian(m, w), BigEndian(n, w))
    decreases w
  {
    var s, t := BigEndian(m, w), BigEndian(n, w);
    var u, v := BigEndian(m / 256, w - 1), BigEndian(n / 256, w - 1);
    if m / 256 < n / 256 {
      BigEndianBefore(m / 256, n / 256, w - 1);
      LongerBefore(u, v, [m % 256], [n % 256]);
    } else {
      assert s[..w - 1] == u == v == t[..w - 1] && s[w - 1] < t[w - 1];
    }
  }

  /** Within one sign, the larger value has the larger bytes, read from the front; and a negative value
      shows in the first of them. Together with the round trips, that leaves no other encoding. */
  lemma EncodeOrder(x: int, y: int, w: nat)
    requires Fits(x, w) && Fits(y, w)
    ensures x < y && (x < 0 <==> y < 0) ==> Before(Encode(x, w), Encode(y, w))
    ensures Encode(x, w)[0] >= 128 <==> x < 0
  {
    assert Span(w) == 256 * Span(w - 1);
    if x < y && (x < 0 <==> y < 0) {
      BigEndianBefore(if x < 0 then x + Span(w) else x, if y < 0 then y + Span(w) else y, w);
    }
    var n := if x < 0 then x + Span(w) else x;
    BigEndianAt(n, w, 0);
    TopByte(n, Span(w - 1));
  }

  lemma TopByte(n: nat, m: nat)
    requires m > 0 && n < 256 * m
    ensures n / m % 256 >= 128 <==> n >= 128 * m
  {
    var q := n / m;
    assert m * q <= n < m * q + m;
    Mono(255, q, m);
    Mono(127, q, m);
    Mono(q, 128, m);
  }
}
