/** Byte strings, their lexicographic order and the fixed-width big-endian
    encoding that every store key and address key is built from. */
module Bytes {

  datatype Option<+T> = None | Some(value: T)

  type Byte = b: int | 0 <= b < 256
  type Bytes = seq<Byte>
  type Addr = Bytes

  const TWO_64: nat := 0x1_0000_0000_0000_0000
  const TWO_32: nat := 0x1_0000_0000

  /** Go's uint64. */
  type U64 = n: int | 0 <= n < 0x1_0000_0000_0000_0000

  /** Byte-wise lexicographic order, as bytes.Compare and the store iterators use it. */
  predicate Less(a: Bytes, b: Bytes) {
    if b == [] then false
    else if a == [] then true
    else if a[0] != b[0] then a[0] < b[0]
    else Less(a[1..], b[1..])
  }

  lemma LessTotal(a: Bytes, b: Bytes)
    ensures Less(a, b) || a == b || Less(b, a)
    ensures !Less(a, a)
    ensures Less(a, b) ==> !Less(b, a)
  {
  }

  lemma LessTransitive(a: Bytes, b: Bytes, c: Bytes)
    requires Less(a, b) && Less(b, c)
    ensures Less(a, c)
  {
  }

  /** Stripping a common prefix keeps the order. */
  lemma {:induction false} LessUnderPrefix(p: Bytes, a: Bytes, b: Bytes)
    ensures Less(p + a, p + b) <==> Less(a, b)
  {
    if p == [] {
      assert p + a == a && p + b == b;
    } else {
      assert (p + a)[1..] == p[1..] + a && (p + b)[1..] == p[1..] + b;
      LessUnderPrefix(p[1..], a, b);
    }
  }

  /** The k low bytes of n, most significant first. */
  function BigEndian(n: nat, k: nat): (r: Bytes)
    ensures |r| == k
  {
    if k == 0 then [] else BigEndian(n / 256, k - 1) + [n % 256]
  }

  function FromBigEndian(b: Bytes): nat {
    if b == [] then 0 else 256 * FromBigEndian(b[..|b| - 1]) + b[|b| - 1]
  }

  function Pow256(k: nat): nat {
    if k == 0 then 1 else 256 * Pow256(k - 1)
  }

  lemma Pow256Eight()
    ensures Pow256(1) == 256 && Pow256(4) == TWO_32 && Pow256(8) == TWO_64
  {
  }

  lemma {:induction false} BigEndianRoundTrip(n: nat, k: nat)
    requires n < Pow256(k)
    ensures FromBigEndian(BigEndian(n, k)) == n
  {
    if k > 0 {
      BigEndianRoundTrip(n / 256, k - 1);
      var r := BigEndian(n, k);
      assert r[..|r| - 1] == BigEndian(n / 256, k - 1);
    }
  }

  lemma {:induction false} FromBigEndianRoundTrip(b: Bytes)
    ensures FromBigEndian(b) < Pow256(|b|)
    ensures BigEndian(FromBigEndian(b), |b|) == b
  {
    if b != [] {
      var h := b[..|b| - 1];
      FromBigEndianRoundTrip(h);
      var n := FromBigEndian(b);
      assert n / 256 == FromBigEndian(h) && n % 256 == b[|b| - 1];
      assert b == h + [b[|b| - 1]];
    }
  }

  /** Same-width big-endian encodings sort like the numbers they stand for. */
  lemma {:induction false} BigEndianOrder(m: nat, n: nat, k: nat)
    requires m < n < Pow256(k)
    ensures Less(BigEndian(m, k), BigEndian(n, k))
  {
    var hm, hn := BigEndian(m / 256, k - 1), BigEndian(n / 256, k - 1);
    if m / 256 == n / 256 {
      LessUnderPrefix(hm, [m % 256], [n % 256]);
    } else {
      BigEndianOrder(m / 256, n / 256, k - 1);
      LessAppend(hm, hn, [m % 256], [n % 256]);
    }
  }

  lemma {:induction false} LessAppend(a: Bytes, b: Bytes, x: Bytes, y: Bytes)
    requires |a| == |b| && Less(a, b)
    ensures Less(a + x, b + y)
  {
    assert (a + x)[1..] == a[1..] + x && (b + y)[1..] == b[1..] + y;
    if a[0] == b[0] { LessAppend(a[1..], b[1..], x, y); }
  }

  /** sdk.Uint64ToBigEndian */
  function U64Bytes(n: U64): (r: Bytes)
    ensures |r| == 8
  {
    BigEndian(n, 8)
  }

  lemma U64BytesInjective(m: U64, n: U64)
    ensures U64Bytes(m) == U64Bytes(n) ==> m == n
    ensures FromBigEndian(U64Bytes(m)) == m
    ensures m < n ==> Less(U64Bytes(m), U64Bytes(n))
  {
    Pow256Eight();
    BigEndianRoundTrip(m, 8);
    BigEndianRoundTrip(n, 8);
    if m < n { BigEndianOrder(m, n, 8); }
  }
}
