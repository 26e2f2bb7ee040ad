/** Secondary indexes: entries under a prefix whose keys go on with a position and end in a
    contract address, scanned in the order of the positions. */
module ContractIndexes {
  import opened Bytes
  import opened Keys
  import opened Scans

  /** Earlier position first; of one position, the smaller address. */
  predicate Before(p: Pos, a: Addr, q: Pos, b: Addr) {
    if p.height != q.height then p.height < q.height
    else if p.index != q.index then p.index < q.index
    else Less(a, b)
  }

  function EntryKey(prefix: Bytes, at: Pos, a: Addr): Bytes { prefix + PosBytes(at) + a }

  lemma BeforeTotal(p: Pos, a: Addr, q: Pos, b: Addr)
    ensures Before(p, a, q, b) || Before(q, b, p, a) || (p == q && a == b)
    ensures !Before(p, a, p, a)
  {
    LessTotal(a, b);
    LessTotal(a, a);
  }

  lemma PosOrder(p: Pos, q: Pos)
    requires p.height < q.height || (p.height == q.height && p.index < q.index)
    ensures Less(PosBytes(p), PosBytes(q))
  {
    U64BytesInjective(p.height, q.height);
    U64BytesInjective(p.index, q.index);
    if p.height < q.height {
      LessAppend(U64Bytes(p.height), U64Bytes(q.height), U64Bytes(p.index), U64Bytes(q.index));
    } else {
      LessUnderPrefix(U64Bytes(p.height), U64Bytes(p.index), U64Bytes(q.index));
    }
  }

  lemma KeyOrder(prefix: Bytes, p: Pos, a: Addr, q: Pos, b: Addr)
    requires Before(p, a, q, b)
    ensures Less(EntryKey(prefix, p, a), EntryKey(prefix, q, b))
  {
    var x, y := PosBytes(p), PosBytes(q);
    if p == q {
      LessUnderPrefix(x, a, b);
    } else {
      PosOrder(p, q);
      LessAppend(x, y, a, b);
    }
    LessUnderPrefix(prefix, x + a, y + b);
    assert prefix + (x + a) == EntryKey(prefix, p, a) && prefix + (y + b) == EntryKey(prefix, q, b);
  }

  /** Keys sort as position and address do. */
  lemma OrderOfKeys(prefix: Bytes, p: Pos, a: Addr, q: Pos, b: Addr)
    requires Less(EntryKey(prefix, p, a), EntryKey(prefix, q, b))
    ensures Before(p, a, q, b)
  {
    BeforeTotal(p, a, q, b);
    LessTotal(EntryKey(prefix, p, a), EntryKey(prefix, q, b));
    if Before(q, b, p, a) { KeyOrder(prefix, q, b, p, a); }
  }

  function PosAt(k: Bytes, i: nat): Pos
    requires i + 16 <= |k|
  {
    Pos(U64At(k, i), U64At(k, i + 8))
  }

  lemma EntryParts(prefix: Bytes, k: Bytes)
    requires prefix <= k && |k| >= |prefix| + 16
    ensures k == EntryKey(prefix, PosAt(k, |prefix|), k[|prefix| + 16..])
  {
    var n := |prefix|;
    U64AtBack(k, n);
    U64AtBack(k, n + 8);
    Glue(prefix, [], k[n..n + 8], k[n + 8..n + 16], k[n + 16..], k);
    assert prefix + [] == prefix;
  }

  /** A key determines position and address. */
  lemma EntryKeyInjective(prefix: Bytes, p: Pos, a: Addr, q: Pos, b: Addr)
    requires EntryKey(prefix, p, a) == EntryKey(prefix, q, b)
    ensures p == q && a == b
  {
    BeforeTotal(p, a, q, b);
    LessTotal(EntryKey(prefix, p, a), EntryKey(prefix, p, a));
    if Before(p, a, q, b) { KeyOrder(prefix, p, a, q, b); }
    if Before(q, b, p, a) { KeyOrder(prefix, q, b, p, a); }
  }

  /** The entries under the prefix, each once, in order. */
  ghost predicate IsListing<V>(store: map<Bytes, V>, prefix: Bytes, ats: seq<Pos>, addrs: seq<Addr>) {
    && |ats| == |addrs|
    && (forall i | 0 <= i < |addrs| :: EntryKey(prefix, ats[i], addrs[i]) in store)
    && (forall at, a | EntryKey(prefix, at, a) in store :: Listed(ats, addrs, at, a))
    && (forall i, j | 0 <= i < j < |addrs| :: Before(ats[i], addrs[i], ats[j], addrs[j]))
  }

  ghost predicate Listed(ats: seq<Pos>, addrs: seq<Addr>, at: Pos, a: Addr)
    requires |ats| == |addrs|
  {
    exists i :: 0 <= i < |addrs| && ats[i] == at && addrs[i] == a
  }

  lemma ListingComplete<V>(store: map<Bytes, V>, prefix: Bytes, ks: seq<Bytes>, ats: seq<Pos>, addrs: seq<Addr>)
    requires IsScan(store, prefix, ks) && |ks| == |ats| == |addrs|
    requires forall i | 0 <= i < |ks| :: ks[i] == EntryKey(prefix, ats[i], addrs[i])
    ensures IsListing(store, prefix, ats, addrs)
  {
    forall i | 0 <= i < |addrs| ensures EntryKey(prefix, ats[i], addrs[i]) in store { assert ks[i] in ks; }
    forall at, a | EntryKey(prefix, at, a) in store ensures Listed(ats, addrs, at, a) {
      var k := EntryKey(prefix, at, a);
      assert prefix <= k;
      var i :| 0 <= i < |ks| && ks[i] == k;
      EntryKeyInjective(prefix, at, a, ats[i], addrs[i]);
    }
    forall i, j | 0 <= i < j < |addrs| ensures Before(ats[i], addrs[i], ats[j], addrs[j]) {
      assert Less(ks[i], ks[j]);
      OrderOfKeys(prefix, ats[i], addrs[i], ats[j], addrs[j]);
    }
  }

  /** The prefix scan behind IterateContractsByCode and IterateContractsByCreator. */
  method List<V>(store: map<Bytes, V>, prefix: Bytes) returns (addrs: seq<Addr>)
    requires forall k | k in store && prefix <= k :: |k| >= |prefix| + 16
    ensures exists ats :: IsListing(store, prefix, ats, addrs)
  {
    var ks := Iterate(store, prefix);
    ghost var ats: seq<Pos> := [];
    addrs := [];
    for i := 0 to |ks|
      invariant |addrs| == |ats| == i
      invariant forall j | 0 <= j < i :: ks[j] == EntryKey(prefix, ats[j], addrs[j])
    {
      assert ks[i] in ks;
      EntryParts(prefix, ks[i]);
      addrs, ats := addrs + [ks[i][|prefix| + 16..]], ats + [PosAt(ks[i], |prefix|)];
    }
    ListingComplete(store, prefix, ks, ats, addrs);
  }
}
