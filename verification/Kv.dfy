/** Key-value stores and the nested caches that CacheContext stacks on them. */
module Kv {
  import opened Bytes

  type Store = map<Bytes, Bytes>

  datatype Write = Put(key: Bytes, value: Bytes) | Delete(key: Bytes)

  function ApplyOne(s: Store, w: Write): Store {
    match w
    case Put(k, v) => s[k := v]
    case Delete(k) => s - {k}
  }

  function Apply(s: Store, ws: seq<Write>): Store
    decreases ws
  {
    if ws == [] then s else Apply(ApplyOne(s, ws[0]), ws[1..])
  }

  lemma {:induction false} ApplyConcat(s: Store, a: seq<Write>, b: seq<Write>)
    ensures Apply(s, a + b) == Apply(Apply(s, a), b)
    decreases a
  {
    if a == [] {
      assert a + b == b;
    } else {
      assert (a + b)[1..] == a[1..] + b;
      ApplyConcat(ApplyOne(s, a[0]), a[1..], b);
    }
  }

  lemma {:induction false} ApplySnoc(s: Store, ws: seq<Write>, i: nat)
    requires i < |ws|
    ensures Apply(s, ws[..i + 1]) == ApplyOne(Apply(s, ws[..i]), ws[i])
  {
    ApplyConcat(s, ws[..i], [ws[i]]);
    assert ws[..i + 1] == ws[..i] + [ws[i]];
    var t := Apply(s, ws[..i]);
    assert Apply(t, [ws[i]]) == Apply(ApplyOne(t, ws[i]), []);
  }

  /** What a reader sees through an overlay of pending writes. */
  function Overlay(base: Store, pending: map<Bytes, Option<Bytes>>): Store {
    map k | k in base.Keys + pending.Keys && (k in pending ==> pending[k].Some?) ::
      if k in pending then pending[k].value else base[k]
  }

  lemma OverlayTwice(base: Store, p: map<Bytes, Option<Bytes>>, q: map<Bytes, Option<Bytes>>)
    ensures Overlay(Overlay(base, p), q) == Overlay(base, p + q)
  {
  }

  /** One level of a cached store: the bottom level holds the committed data,
      every other level holds the writes not yet committed to its parent. */
  class Layer {
    const parent: Layer?
    ghost const level: nat
    ghost const chain: set<Layer>
    var pending: map<Bytes, Option<Bytes>>

    /** Levels form a finite chain; all fields named here are constants. */
    ghost predicate Valid()
      decreases level
    {
      && this in chain
      && (parent != null ==>
            && parent.level < level
            && chain == parent.chain + {this}
            && this !in parent.chain
            && parent.Valid())
      && (parent == null ==> chain == {this})
    }

    function View(): Store
      requires Valid()
      reads chain
      decreases level
    {
      Overlay(if parent == null then map[] else parent.View(), pending)
    }

    constructor Root(data: Store)
      ensures Valid() && fresh(chain) && parent == null
      ensures View() == data
    {
      parent := null;
      level := 0;
      chain := {this};
      pending := map k | k in data :: Some(data[k]);
    }

    /** Context.CacheContext */
    constructor Cache(parent: Layer)
      requires parent.Valid()
      ensures Valid() && fresh(this) && this.parent == parent
      ensures chain == parent.chain + {this} && this !in parent.chain
      ensures View() == parent.View()
    {
      this.parent := parent;
      level := parent.level + 1;
      chain := parent.chain + {this};
      pending := map[];
    }

    method Get(key: Bytes) returns (r: Option<Bytes>)
      requires Valid()
      ensures r == if key in View() then Some(View()[key]) else None
      decreases level
    {
      if key in pending {
        return pending[key];
      }
      if parent == null {
        return None;
      }
      r := parent.Get(key);
    }

    method Set(key: Bytes, value: Bytes)
      requires Valid()
      modifies this
      ensures View() == old(View())[key := value]
    {
      pending := pending[key := Some(value)];
    }

    method Remove(key: Bytes)
      requires Valid()
      modifies this
      ensures View() == old(View()) - {key}
    {
      pending := pending[key := None];
    }

    method ApplyAll(ws: seq<Write>)
      requires Valid()
      modifies this
      ensures View() == Apply(old(View()), ws)
    {
      for i := 0 to |ws|
        invariant View() == Apply(old(View()), ws[..i])
      {
        ApplySnoc(old(View()), ws, i);
        match ws[i]
        case Put(k, v) => Set(k, v);
        case Delete(k) => Remove(k);
      }
      assert ws[..|ws|] == ws;
    }

    /** The commit function of CacheContext: push the pending writes down. */
    method Commit()
      requires Valid() && parent != null
      modifies parent
      ensures parent.View() == old(View())
    {
      ghost var below := if parent.parent == null then map[] else parent.parent.View();
      assert parent.View() == Overlay(below, parent.pending);
      OverlayTwice(below, parent.pending, pending);
      parent.pending := parent.pending + pending;
    }
  }
}
