/** The registry in the flat store: what each key holds, and the history of a contract
    read and extended by prefix scans. */
module KeeperStore {
  import opened Bytes
  import opened Keys
  import opened Scans
  import opened Registry

  /** Stored values; the codec is taken to be lossless. */
  datatype Val =
    | CodeV(code: CodeInfo)
    | ContractV(contract: ContractInfo)
    | StateV(bytes: Bytes)
    | SequenceV(next: U64)
    | HistoryV(entry: HistoryEntry)
    | ParamsV(params: Params)
    | Mark

  type Flat = map<Bytes, Val>

  function HistoryValue(history: map<Addr, seq<HistoryEntry>>, a: Addr, nr: U64): Option<Val> {
    if a in history && 1 <= nr <= |history[a]| then Some(HistoryV(history[a][nr - 1])) else None
  }

  /** The by-code index: one entry per contract, for the last entry of its history. */
  predicate IndexedByCode(reg: Registry, id: U64, at: Pos, a: Addr) {
    var h := HistoryOf(reg, a);
    a in reg.contracts && h != [] && Last(h).code == id && Last(h).updated == at
  }

  /** The by-creator index: one entry per contract, for the first entry of its history. */
  predicate IndexedByCreator(reg: Registry, creator: Addr, at: Pos, a: Addr) {
    var h := HistoryOf(reg, a);
    a in reg.contracts && h != [] && reg.contracts[a].creator == creator && h[0].updated == at
  }

  /** What the store must hold under a key to represent a registry. */
  function Expect(reg: Registry, k: Key): Option<Val> {
    match k
    case CodeKey(id) => if id in reg.codes then Some(CodeV(reg.codes[id])) else None
    case ContractKey(a) => if a in reg.contracts then Some(ContractV(reg.contracts[a])) else None
    case StateKey(p) => if p in reg.state then Some(StateV(reg.state[p])) else None
    case CodeSequence => if reg.codeSeq.Some? then Some(SequenceV(reg.codeSeq.value)) else None
    case InstanceSequence => if reg.instanceSeq.Some? then Some(SequenceV(reg.instanceSeq.value)) else None
    case HistoryKey(a, nr) => HistoryValue(reg.history, a, nr)
    case ByCodeKey(id, at, a) => if IndexedByCode(reg, id, at, a) then Some(Mark) else None
    case PinnedKey(id) => if id in reg.pinned then Some(Mark) else None
    case ByCreatorKey(c, at, a) => if IndexedByCreator(reg, c, at, a) then Some(Mark) else None
    case ParamsKey => if reg.params.Some? then Some(ParamsV(reg.params.value)) else None
    case Malformed => None
    case Foreign => None
  }

  type Image = Key -> Option<Val>

  /** The store holds exactly what f says, except under keys of other modules' prefixes. */
  ghost predicate Holds(store: Flat, f: Image) {
    forall raw :: !Parse(raw).Foreign? ==> Lookup(store, raw) == f(Parse(raw))
  }

  ghost function ImageOf(reg: Registry): Image {
    k => Expect(reg, k)
  }

  /** The flat store represents the registry. */
  ghost predicate Represents(store: Flat, reg: Registry) {
    Holds(store, ImageOf(reg))
  }

  ghost function Upd(f: Image, k: Key, v: Option<Val>): Image {
    x => if x == k then v else f(x)
  }

  lemma PutHolds(store: Flat, f: Image, k: Key, v: Val)
    requires Holds(store, f) && Proper(k)
    ensures Holds(store[Enc(k) := v], Upd(f, k, Some(v)))
  {
    forall raw | !Parse(raw).Foreign? ensures Lookup(store[Enc(k) := v], raw) == Upd(f, k, Some(v))(Parse(raw)) {
      OnlyKey(raw, k);
    }
  }

  lemma DropHolds(store: Flat, f: Image, k: Key)
    requires Holds(store, f) && Proper(k)
    ensures Holds(store - {Enc(k)}, Upd(f, k, None))
  {
    forall raw | !Parse(raw).Foreign? ensures Lookup(store - {Enc(k)}, raw) == Upd(f, k, None)(Parse(raw)) {
      OnlyKey(raw, k);
    }
  }

  lemma OnlyKey(raw: Bytes, k: Key)
    requires Proper(k)
    ensures raw == Enc(k) <==> Parse(raw) == k
  {
    ParseEnc(k);
    if Parse(raw) == k { EncParse(raw); }
  }

  lemma SameImage(store: Flat, f: Image, g: Image)
    requires Holds(store, f) && forall k :: f(k) == g(k)
    ensures Holds(store, g)
  {
  }

  lemma At(store: Flat, f: Image, k: Key)
    requires Holds(store, f) && Proper(k)
    ensures Lookup(store, Enc(k)) == f(k)
  {
    ParseEnc(k);
  }

  /** What the store holds under keys that are not the registry's: pending packets, say. */
  ghost function Outside(store: Flat): Flat {
    map raw | raw in store && Parse(raw).Foreign? :: store[raw]
  }

  lemma OutsideKept(store: Flat, k: Key, v: Val)
    requires Proper(k)
    ensures Outside(store[Enc(k) := v]) == Outside(store) && Outside(store - {Enc(k)}) == Outside(store)
  {
    ParseEnc(k);
  }

  // ---- histories over the flat store ----

  ghost predicate HistoryLike(f: Image, history: map<Addr, seq<HistoryEntry>>) {
    f(Malformed).None? && forall a, nr: U64 :: f(HistoryKey(a, nr)) == HistoryValue(history, a, nr)
  }

  /** Among the scanned keys, those with an eight-byte remainder are the entries of
      this contract and of no other. */
  lemma ScannedHistory(store: Flat, f: Image, history: map<Addr, seq<HistoryEntry>>, a: Addr, ks: seq<Bytes>, k: Bytes)
    requires Holds(store, f) && HistoryLike(f, history) && IsScan(store, HistoryPrefix(a), ks)
    requires k in ks && |k| == |HistoryPrefix(a)| + 8
    ensures var nr := U64At(k, |HistoryPrefix(a)|);
      && k == Enc(HistoryKey(a, nr)) && 1 <= nr <= |EntriesOf(history, a)|
      && store[k] == HistoryV(EntriesOf(history, a)[nr - 1])
  {
    HistoryPrefixExact(k, a);
    EncParse(k);
    var nr := Parse(k).nr;
    assert k[|HistoryPrefix(a)|..|HistoryPrefix(a)| + 8] == U64Bytes(nr);
    U64AtIs(k, |HistoryPrefix(a)|, nr);
    assert Lookup(store, k) == f(HistoryKey(a, nr));
  }

  lemma HistoryScanned(store: Flat, f: Image, history: map<Addr, seq<HistoryEntry>>, a: Addr, ks: seq<Bytes>, nr: U64)
    requires Holds(store, f) && HistoryLike(f, history) && IsScan(store, HistoryPrefix(a), ks)
    requires 1 <= nr <= |EntriesOf(history, a)|
    ensures Enc(HistoryKey(a, nr)) in ks && |Enc(HistoryKey(a, nr))| == |HistoryPrefix(a)| + 8
  {
    At(store, f, HistoryKey(a, nr));
    assert f(HistoryKey(a, nr)).Some?;
  }

  /** An entry that is not the last one is followed by another one in the scan. */
  lemma LaterScanned(store: Flat, f: Image, history: map<Addr, seq<HistoryEntry>>, a: Addr, ks: seq<Bytes>, i: nat, pos: U64) returns (j: nat)
    requires Holds(store, f) && HistoryLike(f, history) && IsScan(store, HistoryPrefix(a), ks) && i < |ks|
    requires ks[i] == Enc(HistoryKey(a, pos)) && pos < |EntriesOf(history, a)| < TWO_64
    ensures i < j < |ks| && |ks[j]| == |HistoryPrefix(a)| + 8
  {
    var n := |EntriesOf(history, a)|;
    HistoryScanned(store, f, history, a, ks, n);
    HistoryKeyOrder(a, pos, n);
    j :| 0 <= j < |ks| && ks[j] == Enc(HistoryKey(a, n));
    LessTotal(ks[i], ks[j]);
  }

  lemma LastFound(store: Flat, f: Image, history: map<Addr, seq<HistoryEntry>>, a: Addr, ks: seq<Bytes>, i: nat)
    requires Holds(store, f) && HistoryLike(f, history) && IsScan(store, HistoryPrefix(a), ks) && i < |ks|
    requires |EntriesOf(history, a)| < TWO_64 && |ks[i]| == |HistoryPrefix(a)| + 8
    requires forall j | i < j < |ks| :: |ks[j]| != |HistoryPrefix(a)| + 8
    ensures var n := |EntriesOf(history, a)|;
      && 0 < n == U64At(ks[i], |HistoryPrefix(a)|) && ks[i] == Enc(HistoryKey(a, n))
      && store[ks[i]] == HistoryV(EntriesOf(history, a)[n - 1])
  {
    ScannedHistory(store, f, history, a, ks, ks[i]);
    NoneLater(store, f, history, a, ks, i, U64At(ks[i], |HistoryPrefix(a)|));
  }

  lemma NoneLater(store: Flat, f: Image, history: map<Addr, seq<HistoryEntry>>, a: Addr, ks: seq<Bytes>, i: nat, pos: U64)
    requires Holds(store, f) && HistoryLike(f, history) && IsScan(store, HistoryPrefix(a), ks) && i < |ks|
    requires ks[i] == Enc(HistoryKey(a, pos)) && |EntriesOf(history, a)| < TWO_64
    requires forall j | i < j < |ks| :: |ks[j]| != |HistoryPrefix(a)| + 8
    ensures pos >= |EntriesOf(history, a)|
  {
    if pos < |EntriesOf(history, a)| { var j := LaterScanned(store, f, history, a, ks, i, pos); }
  }

  /** The reverse scan of appendToContractHistory and mustGetLastContractHistoryEntry:
      the first key it stops at is the contract's last entry. */
  method LastPosition(store: Flat, a: Addr, ghost f: Image, ghost history: map<Addr, seq<HistoryEntry>>) returns (pos: U64)
    requires Holds(store, f) && HistoryLike(f, history) && |EntriesOf(history, a)| < TWO_64
    ensures pos == |EntriesOf(history, a)|
    ensures pos > 0 ==> Enc(HistoryKey(a, pos)) in store && store[Enc(HistoryKey(a, pos))] == HistoryV(EntriesOf(history, a)[pos - 1])
  {
    var prefix := HistoryPrefix(a);
    var ks := Iterate(store, prefix);
    ghost var n := |EntriesOf(history, a)|;
    var i := |ks|;
    while i > 0
      invariant 0 <= i <= |ks|
      invariant forall j | i <= j < |ks| :: |ks[j]| != |prefix| + 8
    {
      i := i - 1;
      if |ks[i]| == |prefix| + 8 {
        pos := U64At(ks[i], |prefix|);
        LastFound(store, f, history, a, ks, i);
        return;
      }
    }
    if n > 0 { HistoryScanned(store, f, history, a, ks, n); }
    pos := 0;
  }

  // The keys of one length among the scanned ones, in order.

  ghost function OfLength(ks: seq<Bytes>, l: nat): seq<Bytes> {
    if ks == [] then []
    else
      var k := ks[|ks| - 1];
      OfLength(ks[..|ks| - 1], l) + (if |k| == l then [k] else [])
  }

  lemma {:induction false} OfLengthMembers(ks: seq<Bytes>, l: nat, k: Bytes)
    ensures k in OfLength(ks, l) <==> k in ks && |k| == l
  {
    if ks != [] {
      OfLengthMembers(ks[..|ks| - 1], l, k);
      assert ks == ks[..|ks| - 1] + [ks[|ks| - 1]];
    }
  }

  lemma {:induction false} OfLengthAscending(ks: seq<Bytes>, l: nat)
    requires Ascending(ks)
    ensures Ascending(OfLength(ks, l))
  {
    if ks != [] {
      var front, k := ks[..|ks| - 1], ks[|ks| - 1];
      OfLengthAscending(front, l);
      forall j | j in OfLength(front, l) ensures Less(j, k) { OfLengthMembers(front, l, j); }
    }
  }

  ghost function OwnKeys(a: Addr, n: nat): seq<Bytes>
    requires n < TWO_64
  {
    seq(n, i requires 0 <= i < n => Enc(HistoryKey(a, i + 1)))
  }

  lemma OwnKeysAscending(a: Addr, n: nat)
    requires n < TWO_64
    ensures Ascending(OwnKeys(a, n))
  {
    var ks := OwnKeys(a, n);
    forall i, j | 0 <= i < j < |ks| ensures Less(ks[i], ks[j]) {
      OrderedKeys(ks[i], ks[j], a, i + 1, j + 1);
    }
  }

  lemma OrderedKeys(x: Bytes, y: Bytes, a: Addr, m: U64, n: U64)
    requires x == Enc(HistoryKey(a, m)) && y == Enc(HistoryKey(a, n)) && m < n
    ensures Less(x, y)
  {
    HistoryKeyOrder(a, m, n);
  }

  lemma OwnKey(a: Addr, n: nat, k: Bytes) returns (nr: U64)
    requires n < TWO_64 && k in OwnKeys(a, n)
    ensures 1 <= nr <= n && k == Enc(HistoryKey(a, nr))
  {
    var i :| 0 <= i < |OwnKeys(a, n)| && OwnKeys(a, n)[i] == k;
    nr := i + 1;
  }

  lemma ScannedIsOwn(store: Flat, f: Image, history: map<Addr, seq<HistoryEntry>>, a: Addr, ks: seq<Bytes>, k: Bytes)
    requires Holds(store, f) && HistoryLike(f, history) && IsScan(store, HistoryPrefix(a), ks) && |EntriesOf(history, a)| < TWO_64
    requires k in ks && |k| == |HistoryPrefix(a)| + 8
    ensures k in OwnKeys(a, |EntriesOf(history, a)|)
  {
    ScannedHistory(store, f, history, a, ks, k);
    assert OwnKeys(a, |EntriesOf(history, a)|)[U64At(k, |HistoryPrefix(a)|) - 1] == k;
  }

  lemma OwnIsScanned(store: Flat, f: Image, history: map<Addr, seq<HistoryEntry>>, a: Addr, ks: seq<Bytes>, k: Bytes)
    requires Holds(store, f) && HistoryLike(f, history) && IsScan(store, HistoryPrefix(a), ks) && |EntriesOf(history, a)| < TWO_64
    requires k in OwnKeys(a, |EntriesOf(history, a)|)
    ensures k in ks && |k| == |HistoryPrefix(a)| + 8
  {
    var nr := OwnKey(a, |EntriesOf(history, a)|, k);
    HistoryScanned(store, f, history, a, ks, nr);
  }

  /** An ascending scan meets a contract's entries in order of their numbers. */
  lemma ScanIsHistory(store: Flat, f: Image, history: map<Addr, seq<HistoryEntry>>, a: Addr, ks: seq<Bytes>)
    requires Holds(store, f) && HistoryLike(f, history) && IsScan(store, HistoryPrefix(a), ks)
    requires |EntriesOf(history, a)| < TWO_64
    ensures OfLength(ks, |HistoryPrefix(a)| + 8) == OwnKeys(a, |EntriesOf(history, a)|)
  {
    var l, n := |HistoryPrefix(a)| + 8, |EntriesOf(history, a)|;
    var own := OwnKeys(a, n);
    forall k ensures k in OfLength(ks, l) <==> k in own {
      OfLengthMembers(ks, l, k);
      if k in ks && |k| == l { ScannedIsOwn(store, f, history, a, ks, k); }
      if k in own { OwnIsScanned(store, f, history, a, ks, k); }
    }
    OfLengthAscending(ks, l);
    OwnKeysAscending(a, n);
    AscendingUnique(OfLength(ks, l), own);
  }

  lemma StoredHistory(store: Flat, f: Image, history: map<Addr, seq<HistoryEntry>>, a: Addr, i: nat)
    requires Holds(store, f) && HistoryLike(f, history) && i < |EntriesOf(history, a)| < TWO_64
    ensures Lookup(store, OwnKeys(a, |EntriesOf(history, a)|)[i]) == Some(HistoryV(EntriesOf(history, a)[i]))
  {
    At(store, f, HistoryKey(a, i + 1));
  }

  ghost predicate Read(store: Flat, ks: seq<Bytes>, r: seq<HistoryEntry>) {
    |ks| == |r| && forall j | 0 <= j < |r| :: Lookup(store, ks[j]) == Some(HistoryV(r[j]))
  }

  lemma ReadIsHistory(store: Flat, f: Image, history: map<Addr, seq<HistoryEntry>>, a: Addr, ks: seq<Bytes>, r: seq<HistoryEntry>)
    requires Holds(store, f) && HistoryLike(f, history) && IsScan(store, HistoryPrefix(a), ks) && |EntriesOf(history, a)| < TWO_64
    requires Read(store, OfLength(ks, |HistoryPrefix(a)| + 8), r)
    ensures r == EntriesOf(history, a)
  {
    ScanIsHistory(store, f, history, a, ks);
    forall i | 0 <= i < |EntriesOf(history, a)| ensures r[i] == EntriesOf(history, a)[i] {
      StoredHistory(store, f, history, a, i);
    }
  }

  /** GetContractHistory */
  method GetContractHistory(store: Flat, a: Addr, ghost f: Image, ghost history: map<Addr, seq<HistoryEntry>>) returns (r: seq<HistoryEntry>)
    requires Holds(store, f) && HistoryLike(f, history) && |EntriesOf(history, a)| < TWO_64
    ensures r == EntriesOf(history, a)
  {
    var prefix := HistoryPrefix(a);
    var ks := Iterate(store, prefix);
    r := [];
    for i := 0 to |ks|
      invariant Read(store, OfLength(ks[..i], |prefix| + 8), r)
    {
      assert ks[..i + 1][..i] == ks[..i];
      if |ks[i]| == |prefix| + 8 {
        ScannedHistory(store, f, history, a, ks, ks[i]);
        r := r + [store[ks[i]].entry];
      }
    }
    assert ks[..|ks|] == ks;
    ReadIsHistory(store, f, history, a, ks, r);
  }
}
