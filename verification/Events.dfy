/** Events, the "message" filter and the stable attribute sort of the dispatcher. */
module Events {
  import opened Bytes

  datatype Attr = Attr(key: Bytes, value: Bytes)
  datatype Event = Event(typ: string, attrs: seq<Attr>)

  function NonMessage(events: seq<Event>): seq<Event> {
    if events == [] then []
    else (if events[0].typ != "message" then [events[0]] else []) + NonMessage(events[1..])
  }

  lemma {:induction false} NonMessageConcat(a: seq<Event>, b: seq<Event>)
    ensures NonMessage(a + b) == NonMessage(a) + NonMessage(b)
  {
    if a == [] {
      assert a + b == b;
    } else {
      assert (a + b)[1..] == a[1..] + b;
      NonMessageConcat(a[1..], b);
    }
  }

  /** filterEvents */
  method FilterEvents(events: seq<Event>) returns (res: seq<Event>)
    ensures res == NonMessage(events)
  {
    res := [];
    for i := 0 to |events|
      invariant res == NonMessage(events[..i])
    {
      NonMessageConcat(events[..i], [events[i]]);
      assert events[..i + 1] == events[..i] + [events[i]];
      assert [events[i]][1..] == [];
      if events[i].typ != "message" {
        res := res + [events[i]];
      }
    }
    assert events[..|events|] == events;
  }

  function Insert(x: Attr, s: seq<Attr>): seq<Attr> {
    if s == [] || !Less(s[0].key, x.key) then [x] + s else [s[0]] + Insert(x, s[1..])
  }

  /** The result of sort.SliceStable by attribute key. */
  function StableSort(s: seq<Attr>): seq<Attr> {
    if s == [] then [] else Insert(s[0], StableSort(s[1..]))
  }

  /** The attributes under one key, in order. */
  function Under(k: Bytes, s: seq<Attr>): seq<Attr> {
    if s == [] then [] else (if s[0].key == k then [s[0]] else []) + Under(k, s[1..])
  }

  ghost predicate Sorted(s: seq<Attr>) {
    forall i, j | 0 <= i < j < |s| :: !Less(s[j].key, s[i].key)
  }

  lemma NotLessTransitive(a: Bytes, b: Bytes, c: Bytes)
    requires !Less(a, b) && !Less(b, c)
    ensures !Less(a, c)
  {
    LessTotal(a, b);
    LessTotal(b, c);
    if Less(a, c) && Less(c, b) { LessTransitive(a, c, b); }
  }

  lemma {:induction false} InsertSorts(x: Attr, s: seq<Attr>)
    requires Sorted(s)
    ensures Sorted(Insert(x, s))
    ensures multiset(Insert(x, s)) == multiset(s) + multiset{x}
  {
    if s == [] {
    } else if !Less(s[0].key, x.key) {
      forall j | 0 <= j < |s| ensures !Less(s[j].key, x.key) {
        if j > 0 { NotLessTransitive(s[j].key, s[0].key, x.key); }
      }
    } else {
      var r := Insert(x, s[1..]);
      InsertSorts(x, s[1..]);
      assert s == [s[0]] + s[1..];
      forall j | 0 <= j < |r| ensures !Less(r[j].key, s[0].key) {
        assert r[j] in multiset(s[1..]) + multiset{x};
        LessTotal(s[0].key, x.key);
      }
    }
  }

  lemma {:induction false} InsertUnder(k: Bytes, x: Attr, s: seq<Attr>)
    ensures Under(k, Insert(x, s)) == (if x.key == k then [x] else []) + Under(k, s)
  {
    if s == [] || !Less(s[0].key, x.key) {
      assert ([x] + s)[1..] == s;
    } else {
      InsertUnder(k, x, s[1..]);
      var r := [s[0]] + Insert(x, s[1..]);
      assert r[1..] == Insert(x, s[1..]);
      LessTotal(s[0].key, x.key);
    }
  }

  /** StableSort sorts, permutes, and keeps attributes with equal keys in order. */
  lemma {:induction false} StableSortCorrect(s: seq<Attr>)
    ensures Sorted(StableSort(s))
    ensures multiset(StableSort(s)) == multiset(s)
    ensures forall k :: Under(k, StableSort(s)) == Under(k, s)
  {
    if s != [] {
      StableSortCorrect(s[1..]);
      InsertSorts(s[0], StableSort(s[1..]));
      assert s == [s[0]] + s[1..];
      forall k ensures Under(k, StableSort(s)) == Under(k, s) {
        InsertUnder(k, s[0], StableSort(s[1..]));
      }
    }
  }

  lemma {:induction false} UnderHead(s: seq<Attr>, t: seq<Attr>)
    requires s != [] && t != [] && Sorted(s) && Sorted(t)
    requires forall k :: Under(k, s) == Under(k, t)
    ensures s[0] == t[0]
  {
    var ks, kt := s[0].key, t[0].key;
    assert Under(ks, s) == [s[0]] + Under(ks, s[1..]) && Under(kt, t) == [t[0]] + Under(kt, t[1..]);
    assert Under(ks, t) == Under(ks, s) && Under(kt, s) == Under(kt, t);
    UnderMember(ks, t);
    UnderMember(kt, s);
    LessTotal(ks, kt);
    assert ks == kt;
    assert Under(ks, t) == [t[0]] + Under(ks, t[1..]);
    assert Under(ks, s)[0] == s[0] && Under(ks, t)[0] == t[0];
  }

  lemma {:induction false} UnderMember(k: Bytes, s: seq<Attr>)
    requires Under(k, s) != []
    ensures exists i :: 0 <= i < |s| && s[i].key == k
  {
    if s[0].key != k {
      UnderMember(k, s[1..]);
      var i :| 0 <= i < |s[1..]| && s[1..][i].key == k;
      assert s[i + 1].key == k;
    }
  }

  /** A sorted arrangement with the same order under every key is the stable sort:
      the specification above leaves no freedom. */
  lemma {:induction false} StableSortUnique(s: seq<Attr>, t: seq<Attr>)
    requires |s| == |t| && Sorted(s) && Sorted(t)
    requires forall k :: Under(k, s) == Under(k, t)
    ensures s == t
  {
    if s != [] {
      UnderHead(s, t);
      forall k ensures Under(k, s[1..]) == Under(k, t[1..]) {
        var first := if s[0].key == k then [s[0]] else [];
        assert Under(k, s) == first + Under(k, s[1..]) && Under(k, t) == first + Under(k, t[1..]);
        assert Under(k, s[1..]) == Under(k, s)[|first|..] && Under(k, t[1..]) == Under(k, t)[|first|..];
      }
      StableSortUnique(s[1..], t[1..]);
      assert s == [s[0]] + s[1..] && t == [t[0]] + t[1..];
    }
  }

  function SortEach(events: seq<Event>): (r: seq<Event>)
    ensures |r| == |events|
  {
    seq(|events|, i requires 0 <= i < |events| => events[i].(attrs := StableSort(events[i].attrs)))
  }
}
