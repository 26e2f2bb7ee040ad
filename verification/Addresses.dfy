/** Contract addresses: the keys that are hashed into them, and why they never clash. */
module Addresses {
  import opened Bytes

  const CHECKSUM_LEN := 32
  const MAX_SALT := 64
  const MAX_ADDR_LEN := 255

  /** What sdk.VerifyAddressFormat accepts. */
  predicate Accepted(a: Addr) { 0 < |a| <= MAX_ADDR_LEN }

  /** address.Module(...)[:32], which every generated address is. */
  type Digest = b: Bytes | |b| == 32
    witness [0, 0, 0, 0, 0, 0, 0, 0, 0, 0, 0, 0, 0, 0, 0, 0, 0, 0, 0, 0, 0, 0, 0, 0, 0, 0, 0, 0, 0, 0, 0, 0]

  type Hash = Bytes -> Digest

  /** BuildContractAddressClassic: what is hashed for a counter-based address. */
  function ClassicKey(codeId: U64, instanceId: U64): (r: Bytes)
    ensures |r| == 16
  {
    U64Bytes(codeId) + U64Bytes(instanceId)
  }

  lemma ClassicKeyInjective(c: U64, i: U64, d: U64, j: U64)
    requires ClassicKey(c, i) == ClassicKey(d, j)
    ensures c == d && i == j
  {
    assert ClassicKey(c, i)[..8] == U64Bytes(c) && ClassicKey(d, j)[..8] == U64Bytes(d);
    assert ClassicKey(c, i)[8..] == U64Bytes(i) && ClassicKey(d, j)[8..] == U64Bytes(j);
    U64BytesInjective(c, d);
    U64BytesInjective(i, j);
  }

  /** Anything a Go slice can hold. */
  predicate Fits(b: Bytes) { |b| < TWO_64 }

  /** UInt64LengthPrefix */
  function LengthPrefixed(b: Bytes): (r: Bytes)
    requires Fits(b)
    ensures |r| == 8 + |b|
  {
    U64Bytes(|b|) + b
  }

  /** Length-prefixed fields can be told apart whatever follows them. */
  lemma LengthPrefixedInjective(a: Bytes, b: Bytes, x: Bytes, y: Bytes)
    requires Fits(a) && Fits(b) && LengthPrefixed(a) + x == LengthPrefixed(b) + y
    ensures a == b && x == y
  {
    var l, r := LengthPrefixed(a) + x, LengthPrefixed(b) + y;
    assert l[..8] == U64Bytes(|a|) && r[..8] == U64Bytes(|b|);
    U64BytesInjective(|a|, |b|);
    assert l[8..8 + |a|] == a && r[8..8 + |b|] == b;
    assert l[8 + |a|..] == x && r[8 + |b|..] == y;
  }

  /** The four fields a predictable address is derived from. */
  datatype Origin = Origin(checksum: Bytes, creator: Addr, salt: Bytes, msg: Bytes)

  /** What BuildContractAddressPredictable panics on is excluded here; the validity
      of a non-empty msg as JSON is decided elsewhere. */
  predicate Valid(o: Origin) {
    && |o.checksum| == CHECKSUM_LEN
    && Accepted(o.creator)
    && 0 < |o.salt| <= MAX_SALT
    && Fits(o.msg)
  }

  function PredictableKey(o: Origin): (r: Bytes)
    requires Valid(o)
    ensures |r| > 16
  {
    LengthPrefixed(o.checksum) + (LengthPrefixed(o.creator) + (LengthPrefixed(o.salt) + LengthPrefixed(o.msg)))
  }

  /** The key determines all four fields. */
  lemma PredictableKeyInjective(o: Origin, p: Origin)
    requires Valid(o) && Valid(p) && PredictableKey(o) == PredictableKey(p)
    ensures o == p
  {
    LengthPrefixedInjective(o.checksum, p.checksum,
      LengthPrefixed(o.creator) + (LengthPrefixed(o.salt) + LengthPrefixed(o.msg)),
      LengthPrefixed(p.creator) + (LengthPrefixed(p.salt) + LengthPrefixed(p.msg)));
    LengthPrefixedInjective(o.creator, p.creator,
      LengthPrefixed(o.salt) + LengthPrefixed(o.msg), LengthPrefixed(p.salt) + LengthPrefixed(p.msg));
    LengthPrefixedInjective(o.salt, p.salt, LengthPrefixed(o.msg), LengthPrefixed(p.msg));
    assert LengthPrefixed(o.msg) + [] == LengthPrefixed(o.msg) && LengthPrefixed(p.msg) + [] == LengthPrefixed(p.msg);
    LengthPrefixedInjective(o.msg, p.msg, [], []);
  }

  /** copy(dst[at:], src) for a destination that is long enough. */
  method CopyInto(dst: array<Byte>, at: nat, src: Bytes)
    requires at + |src| <= dst.Length
    modifies dst
    ensures dst[..at + |src|] == old(dst[..at]) + src
    ensures dst[at + |src|..] == old(dst[at + |src|..])
  {
    for i := 0 to |src|
      invariant dst[..at] == old(dst[..at])
      invariant dst[at..at + i] == src[..i]
      invariant dst[at + i..] == old(dst[at + i..])
    {
      dst[at + i] := src[i];
      assert dst[at..at + i + 1] == dst[at..at + i] + [src[i]];
    }
    assert dst[..at + |src|] == dst[..at] + dst[at..at + |src|];
  }

  /** A buffer filled by four offset copies. */
  method FillBuffer(a: Bytes, b: Bytes, c: Bytes, d: Bytes) returns (key: array<Byte>)
    ensures key[..] == a + (b + (c + d))
  {
    var n1 := |a|;
    var n2 := n1 + |b|;
    var n3 := n2 + |c|;
    key := new Byte[n3 + |d|](_ => 0);
    CopyInto(key, 0, a);
    CopyInto(key, n1, b);
    CopyInto(key, n2, c);
    CopyInto(key, n3, d);
    assert key[..] == key[..n3 + |d|];
    Concat4(a, b, c, d);
  }

  lemma Concat4(a: Bytes, b: Bytes, c: Bytes, d: Bytes)
    ensures ([] + a + b + c) + d == a + (b + (c + d))
  {
  }

  /** The key buffer of BuildContractAddressPredictable. */
  method BuildPredictableKey(o: Origin) returns (key: array<Byte>)
    requires Valid(o)
    ensures key[..] == PredictableKey(o)
  {
    key := FillBuffer(LengthPrefixed(o.checksum), LengthPrefixed(o.creator), LengthPrefixed(o.salt), LengthPrefixed(o.msg));
  }

  /** The hash behind addresses tells apart the keys in a finite
      set. No hash of fixed length does so for all byte strings. */
  ghost predicate CollisionFree(hash: Hash, keys: set<Bytes>) {
    forall x, y | x in keys && y in keys && hash(x) == hash(y) :: x == y
  }

  datatype Derivation = Classic(codeId: U64, instanceId: U64) | Predictable(origin: Origin)

  ghost predicate WellFormed(d: Derivation) {
    d.Classic? || Valid(d.origin)
  }

  function KeyOf(d: Derivation): Bytes
    requires WellFormed(d)
  {
    match d
    case Classic(c, i) => ClassicKey(c, i)
    case Predictable(o) => PredictableKey(o)
  }

  function AddressOf(hash: Hash, d: Derivation): Addr
    requires WellFormed(d)
  {
    hash(KeyOf(d))
  }

  /** Two derivations give one address only if they are the same derivation; in
      particular a counter-based address is never a predictable one. */
  lemma AddressInjective(hash: Hash, keys: set<Bytes>, d: Derivation, e: Derivation)
    requires WellFormed(d) && WellFormed(e) && CollisionFree(hash, keys) && KeyOf(d) in keys && KeyOf(e) in keys
    requires AddressOf(hash, d) == AddressOf(hash, e)
    ensures d == e
  {
    assert KeyOf(d) == KeyOf(e);
    if d.Classic? && e.Classic? { ClassicKeyInjective(d.codeId, d.instanceId, e.codeId, e.instanceId); }
    if d.Predictable? && e.Predictable? { PredictableKeyInjective(d.origin, e.origin); }
  }

  /** A hash of 32 bytes that tells apart all byte strings of up to 31 bytes. */
  function Padded(x: Bytes): Digest {
    if |x| <= 31 then [|x|] + x + seq(31 - |x|, _ => 0) else [255] + seq(31, _ => 0)
  }

  lemma PaddedCollisionFree(keys: set<Bytes>)
    requires forall x | x in keys :: |x| <= 31
    ensures CollisionFree(Padded, keys)
  {
    forall x, y | x in keys && y in keys && Padded(x) == Padded(y) ensures x == y {
      var p, q := Padded(x), Padded(y);
      assert p[0] == |x| && q[0] == |y|;
      assert p[1..1 + |x|] == x && q[1..1 + |y|] == y;
    }
  }
}
