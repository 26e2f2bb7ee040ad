/** Ordered prefix scans over a key-value store. */
module Scans {
  import opened Bytes

  function Lookup<V>(m: map<Bytes, V>, k: Bytes): Option<V> {
    if k in m then Some(m[k]) else None
  }

  ghost predicate Ascending(ks: seq<Bytes>) {
    forall i, j | 0 <= i < j < |ks| :: Less(ks[i], ks[j])
  }

  ghost predicate Least(m: Bytes, s: set<Bytes>) {
    m in s && forall k | k in s :: k == m || Less(m, k)
  }

  lemma {:induction false} LeastExists(s: set<Bytes>)
    requires s != {}
    ensures exists m :: Least(m, s)
  {
    var x :| x in s;
    if s == {x} {
      assert Least(x, s);
    } else {
      LeastExists(s - {x});
      var m :| Least(m, s - {x});
      LessTotal(m, x);
      if Less(x, m) {
        forall k | k in s ensures k == x || Less(x, k) {
          if k != x && k != m { LessTransitive(x, m, k); }
        }
        assert Least(x, s);
      } else {
        assert Least(m, s);
      }
    }
  }

  /** The keys an ascending iterator over prefix visits, in order. */
  ghost predicate IsScan<V>(store: map<Bytes, V>, prefix: Bytes, ks: seq<Bytes>) {
    Ascending(ks) && forall k :: k in ks <==> k in store && prefix <= k
  }

  lemma {:induction false} AscendingUnique(a: seq<Bytes>, b: seq<Bytes>)
    requires Ascending(a) && Ascending(b) && (forall k :: k in a <==> k in b)
    ensures a == b
  {
    assert (a != [] ==> a[0] in a) && (b != [] ==> b[0] in b);
    if a != [] {
      LessTotal(a[0], b[0]);
      assert a[0] == b[0];
      forall k ensures k in a[1..] <==> k in b[1..] {
        LessTotal(k, a[0]);
        if k in a[1..] { assert k in a && k != a[0]; }
        if k in b[1..] { assert k in b && k != b[0]; }
      }
      AscendingUnique(a[1..], b[1..]);
      assert a == [a[0]] + a[1..] && b == [b[0]] + b[1..];
    }
  }

  /** prefixStore.Iterator(nil, nil) */
  method Iterate<V>(store: map<Bytes, V>, prefix: Bytes) returns (ks: seq<Bytes>)
    ensures IsScan(store, prefix, ks)
  {
    ks := [];
    var rest := set k | k in store && prefix <= k;
    while rest != {}
      invariant Ascending(ks)
      invariant forall k :: k in store && prefix <= k <==> k in ks || k in rest
      invariant forall k, j | k in ks && j in rest :: Less(k, j)
      decreases |rest|
    {
      LeastExists(rest);
      var m :| m in rest && forall k | k in rest :: k == m || Less(m, k);
      assert forall k | k in rest - {m} :: Less(m, k);
      ks, rest := ks + [m], rest - {m};
    }
  }
}
