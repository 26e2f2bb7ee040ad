/** The keys of packets that wait for an acknowledgement, and which of them can clash. */
module PacketKeys {
  import opened Bytes

  datatype PacketId = PacketId(port: Bytes, channel: Bytes, sequence: U64)

  /** The port has no length prefix; the channel has one of four bytes. */
  function Suffix(id: PacketId): Bytes {
    id.port + (BigEndian(|id.channel|, 4) + id.channel + U64Bytes(id.sequence))
  }

  /** Identifiers of IBC are short and have no zero byte. */
  predicate Proper(id: PacketId) {
    0 !in id.port && |id.channel| < 0x100_0000
  }

  lemma LengthStartsWithZero(n: nat)
    requires n < 0x100_0000
    ensures BigEndian(n, 4)[0] == 0
  {
    var a, b, c := n / 256, n / 256 / 256, n / 256 / 256 / 256;
    assert BigEndian(c, 1) == BigEndian(c / 256, 0) + [c % 256] == [0];
    assert BigEndian(b, 2) == BigEndian(c, 1) + [b % 256];
    assert BigEndian(a, 3) == BigEndian(b, 2) + [a % 256];
    assert BigEndian(n, 4) == BigEndian(a, 3) + [n % 256];
  }

  lemma {:induction false} SplitAtZero(a: Bytes, b: Bytes, x: Bytes, y: Bytes)
    requires 0 !in a && 0 !in b && x != [] && y != [] && x[0] == 0 && y[0] == 0 && a + x == b + y
    ensures a == b && x == y
  {
    if a == [] || b == [] {
      assert (a + x)[0] == (b + y)[0];
      assert a == [] ==> a + x == x;
      assert b == [] ==> b + y == y;
    } else {
      assert (a + x)[0] == a[0] && (b + y)[0] == b[0];
      assert (a + x)[1..] == a[1..] + x && (b + y)[1..] == b[1..] + y;
      SplitAtZero(a[1..], b[1..], x, y);
      assert a == [a[0]] + a[1..] && b == [b[0]] + b[1..];
    }
  }

  /** Two packets share a key only if they are the same packet. */
  lemma SuffixInjective(i: PacketId, j: PacketId)
    requires Proper(i) && Proper(j) && Suffix(i) == Suffix(j)
    ensures i == j
  {
    var n, m := |i.channel|, |j.channel|;
    var x, y := BigEndian(n, 4) + i.channel + U64Bytes(i.sequence), BigEndian(m, 4) + j.channel + U64Bytes(j.sequence);
    LengthStartsWithZero(n);
    LengthStartsWithZero(m);
    SplitAtZero(i.port, j.port, x, y);
    assert |x| == 12 + n && |y| == 12 + m;
    assert x[4..4 + n] == i.channel && y[4..4 + m] == j.channel;
    assert x[4 + n..] == U64Bytes(i.sequence) && y[4 + m..] == U64Bytes(j.sequence);
    U64BytesInjective(i.sequence, j.sequence);
  }

  // ---- which ports can share a key ----

  function Tail(channel: Bytes, n: U64): Bytes { BigEndian(|channel|, 4) + channel + U64Bytes(n) }

  /** Some packet for port p and some packet for port q have one key. */
  ghost predicate ShareKey(p: Bytes, q: Bytes) {
    exists c: Bytes, d: Bytes, m: U64, n: U64 :: |c| < TWO_32 && |d| < TWO_32 && Suffix(PacketId(p, c, m)) == Suffix(PacketId(q, d, n))
  }

  /** What one port has more than the other can be read as the start of a channel's length
      prefix, or as a whole one followed by part of a channel that is long enough. */
  predicate ReadsAsLength(r: Bytes) {
    if |r| < 4 then FromBigEndian(r) > 0 else FromBigEndian(r[..4]) >= |r|
  }

  predicate Extends(p: Bytes, q: Bytes) { p < q && ReadsAsLength(q[|p|..]) }

  lemma {:induction false} ValueOfConcat(a: Bytes, b: Bytes)
    ensures FromBigEndian(a + b) == FromBigEndian(a) * Pow256(|b|) + FromBigEndian(b)
    decreases |b|
  {
    if b == [] {
      assert a + b == a;
    } else {
      var h := b[..|b| - 1];
      assert (a + b)[..|a + b| - 1] == a + h;
      ValueOfConcat(a, h);
      Shift(FromBigEndian(a), Pow256(|h|), FromBigEndian(h));
    }
  }

  lemma Shift(x: nat, p: nat, y: nat)
    ensures 256 * (x * p + y) == x * (256 * p) + 256 * y
  {
  }

  lemma {:induction false} ValueOfPrefix(a: Bytes, b: Bytes)
    ensures FromBigEndian(a) <= FromBigEndian(a + b)
    ensures FromBigEndian(a) == 0 ==> FromBigEndian(a + b) == FromBigEndian(b)
    decreases |b|
  {
    if b == [] {
      assert a + b == a;
    } else {
      assert (a + b)[..|a + b| - 1] == a + b[..|b| - 1];
      ValueOfPrefix(a, b[..|b| - 1]);
    }
  }

  /** Powers of 256 for a remainder of k bytes in front of a length of four. */
  lemma Powers(k: nat)
    requires 0 < k < 4
    ensures Pow256(k) == (if k == 1 then 256 else if k == 2 then 65536 else 16777216)
    ensures Pow256(4 - k) == (if k == 1 then 16777216 else if k == 2 then 65536 else 256)
  {
  }

  lemma SharedTail(r: Bytes, c: Bytes, d: Bytes, m: U64, n: U64)
    requires r != [] && |c| < TWO_32 && Tail(c, m) == r + Tail(d, n)
    ensures ReadsAsLength(r)
  {
    var x, y := Tail(c, m), Tail(d, n);
    assert |c| == |r| + |d|;
    assert x[..4] == BigEndian(|c|, 4) && y[..4] == BigEndian(|d|, 4);
    if |r| >= 4 {
      assert x[..4] == r[..4];
      Pow256Eight();
      BigEndianRoundTrip(|c|, 4);
    } else {
      assert (r + y)[..4] == r + y[..4 - |r|] && y[..4 - |r|] == BigEndian(|d|, 4)[..4 - |r|];
      SharedStart(r, |c|, |d|);
    }
  }

  lemma SharedStart(r: Bytes, c: nat, d: nat)
    requires 0 < |r| < 4 && d < c < TWO_32 && BigEndian(c, 4) == r + BigEndian(d, 4)[..4 - |r|]
    ensures FromBigEndian(r) > 0
  {
    var e, f := BigEndian(d, 4)[..4 - |r|], BigEndian(d, 4)[4 - |r|..];
    assert e + f == BigEndian(d, 4);
    Pow256Eight();
    BigEndianRoundTrip(c, 4);
    BigEndianRoundTrip(d, 4);
    ValueOfPrefix(r, e);
    ValueOfPrefix(e, f);
  }

  /** A number x in front of a length d so that the first four bytes read as d + k. */
  lemma Solve(k: nat, x: nat) returns (hi: nat, lo: nat)
    requires 0 < k < 4 && 0 < x < Pow256(k)
    ensures hi < Pow256(4 - k) && lo < Pow256(k) && hi * Pow256(k) + lo + k == x * Pow256(4 - k) + hi < TWO_32
  {
    Powers(k);
    var D, y := Pow256(k) - 1, x * Pow256(4 - k) - k;
    hi, lo := y / D, y % D;
    assert hi * D + lo == y;
  }

  lemma LongerShares(p: Bytes, r: Bytes)
    requires r != [] && ReadsAsLength(r)
    ensures ShareKey(p, p + r)
  {
    var c, d := Channels(r);
    assert p + Tail(c, 0) == (p + r) + Tail(d, 0);
    assert Suffix(PacketId(p, c, 0)) == Suffix(PacketId(p + r, d, 0));
  }

  lemma Channels(r: Bytes) returns (c: Bytes, d: Bytes)
    requires r != [] && ReadsAsLength(r)
    ensures |c| < TWO_32 && |d| < TWO_32 && Tail(c, 0) == r + Tail(d, 0)
  {
    if |r| >= 4 {
      var n := FromBigEndian(r[..4]);
      FromBigEndianRoundTrip(r[..4]);
      Pow256Eight();
      d := seq(n - |r|, _ => 0);
      c := r[4..] + BigEndian(|d|, 4) + d;
      Regroup(r[..4], r[4..], BigEndian(|d|, 4), d, U64Bytes(0));
      assert r == r[..4] + r[4..];
    } else {
      var e, f := Numbers(r);
      FromBigEndianRoundTrip(r + e);
      FromBigEndianRoundTrip(e + f);
      d := seq(FromBigEndian(e + f), _ => 0);
      c := f + d;
      Regroup(r, e, f, d, U64Bytes(0));
    }
  }

  lemma Regroup(a: Bytes, b: Bytes, c: Bytes, d: Bytes, e: Bytes)
    ensures a + (b + c + d) + e == (a + b) + (c + d + e) == (a + b) + (c + d) + e == a + ((b + c) + d + e)
  {
  }

  /** The four bytes of a length whose first ones, after a short remainder, read as that
      length and the length of the remainder. */
  lemma Numbers(r: Bytes) returns (e: Bytes, f: Bytes)
    requires 0 < |r| < 4 && FromBigEndian(r) > 0
    ensures |e| + |r| == 4 && |f| == |r| && FromBigEndian(r + e) == FromBigEndian(e + f) + |r| < TWO_32
  {
    FromBigEndianRoundTrip(r);
    var hi, lo := Solve(|r|, FromBigEndian(r));
    e, f := BigEndian(hi, 4 - |r|), BigEndian(lo, |r|);
    BigEndianRoundTrip(hi, 4 - |r|);
    BigEndianRoundTrip(lo, |r|);
    ValueOfConcat(r, e);
    ValueOfConcat(e, f);
  }

  lemma SharedPrefix(p: Bytes, q: Bytes, c: Bytes, d: Bytes, m: U64, n: U64)
    requires p != q && |p| <= |q| && |c| < TWO_32 && p + Tail(c, m) == q + Tail(d, n)
    ensures Extends(p, q)
  {
    var l := p + Tail(c, m);
    assert l[..|p|] == p && (q + Tail(d, n))[..|p|] == q[..|p|];
    var r := q[|p|..];
    assert q == p + r;
    assert l[|p|..] == Tail(c, m) && (q + Tail(d, n))[|p|..] == r + Tail(d, n);
    SharedTail(r, c, d, m, n);
  }

  /** Two different ports can give one key if and only if one extends the other by something
      that can be read as a length: the port itself has no length prefix. */
  lemma PortsShareKeyIff(p: Bytes, q: Bytes)
    requires p != q
    ensures ShareKey(p, q) <==> Extends(p, q) || Extends(q, p)
  {
    if ShareKey(p, q) {
      var c: Bytes, d: Bytes, m: U64, n: U64 :|
        |c| < TWO_32 && |d| < TWO_32 && Suffix(PacketId(p, c, m)) == Suffix(PacketId(q, d, n));
      if |p| <= |q| { SharedPrefix(p, q, c, d, m, n); } else { SharedPrefix(q, p, d, c, n, m); }
    }
    if Extends(p, q) {
      assert q == p + q[|p|..];
      LongerShares(p, q[|p|..]);
    }
    if Extends(q, p) {
      assert p == q + p[|q|..];
      LongerShares(q, p[|q|..]);
      ShareKeySymmetric(q, p);
    }
  }

  lemma ShareKeySymmetric(p: Bytes, q: Bytes)
    requires ShareKey(p, q)
    ensures ShareKey(q, p)
  {
    var c: Bytes, d: Bytes, m: U64, n: U64 :|
      |c| < TWO_32 && |d| < TWO_32 && Suffix(PacketId(p, c, m)) == Suffix(PacketId(q, d, n));
    assert Suffix(PacketId(q, d, n)) == Suffix(PacketId(p, c, m));
  }
}
