/** ExportGenesis and InitGenesis on the flat store, proved against the export relation
    and the import function of the registry. */
module GenesisKeeper {
  import opened Bytes
  import opened Keys
  import opened Scans
  import opened Addresses
  import opened Registry
  import opened RegistryLaws
  import opened KeeperStore
  import opened WasmKeeper
  import opened Genesis

  // ---- export ----

  lemma ScannedCode(store: Flat, reg: Registry, k: Bytes)
    requires Represents(store, reg) && k in store && [1] <= k
    ensures |k| == 9 && var id := U64At(k, 1);
      k == Enc(CodeKey(id)) && id in reg.codes && store[k] == CodeV(reg.codes[id])
  {
    assert k[0] == 1 && Lookup(store, k) == Expect(reg, Parse(k));
    EncParse(k);
    U64AtIs(k, 1, Parse(k).id);
  }

  lemma CodeKeyOrder(x: U64, y: U64)
    requires Less(Enc(CodeKey(x)), Enc(CodeKey(y)))
    ensures x < y
  {
    LessUnderPrefix([1], U64Bytes(x), U64Bytes(y));
    LessTotal(U64Bytes(x), U64Bytes(y));
    U64BytesInjective(y, x);
  }

  lemma CodesComplete(store: Flat, vm: Vm, reg: Registry, ks: seq<Bytes>, cs: seq<GenCode>)
    requires Represents(store, reg) && IsScan(store, [1], ks) && |cs| == |ks|
    requires forall j | 0 <= j < |cs| :: ks[j] == Enc(CodeKey(cs[j].id)) && IsCodeExport(vm, reg, cs[j])
    ensures Ids(cs) == reg.codes.Keys
    ensures forall i, j | 0 <= i < j < |cs| :: cs[i].id < cs[j].id
  {
    forall i, j | 0 <= i < j < |cs| ensures cs[i].id < cs[j].id {
      assert Less(ks[i], ks[j]);
      CodeKeyOrder(cs[i].id, cs[j].id);
    }
    assert cs[..|cs|] == cs;
    forall id: U64 ensures id in Ids(cs) <==> id in reg.codes {
      IdsMembers(cs, |cs|, id);
      if id in reg.codes {
        CodeFound(store, reg, ks, cs, id);
      }
    }
  }

  lemma CodeFound(store: Flat, reg: Registry, ks: seq<Bytes>, cs: seq<GenCode>, id: U64)
    requires Represents(store, reg) && IsScan(store, [1], ks) && |cs| == |ks|
    requires (forall j | 0 <= j < |cs| :: ks[j] == Enc(CodeKey(cs[j].id))) && id in reg.codes
    ensures exists j :: 0 <= j < |cs| && cs[j].id == id
  {
    At(store, ImageOf(reg), CodeKey(id));
    var j :| 0 <= j < |ks| && ks[j] == Enc(CodeKey(id));
    ParseEnc(CodeKey(id));
    ParseEnc(CodeKey(cs[j].id));
  }

  method ExportCode(store: Flat, vm: Vm, k: Bytes, ghost reg: Registry) returns (c: GenCode)
    requires Represents(store, reg) && k in store && [1] <= k
    ensures k == Enc(CodeKey(c.id)) && IsCodeExport(vm, reg, c)
  {
    ScannedCode(store, reg, k);
    var id, info := U64At(k, 1), store[k].code;
    At(store, ImageOf(reg), PinnedKey(id));
    c := GenCode(id, info, vm.code(info.hash), Enc(PinnedKey(id)) in store);
  }

  /** IterateCodeInfos with the export callback. */
  method ExportCodes(store: Flat, vm: Vm, ghost reg: Registry) returns (cs: seq<GenCode>)
    requires Represents(store, reg)
    ensures forall i | 0 <= i < |cs| :: IsCodeExport(vm, reg, cs[i])
    ensures forall i, j | 0 <= i < j < |cs| :: cs[i].id < cs[j].id
    ensures Ids(cs) == reg.codes.Keys
  {
    var ks := Iterate(store, [1]);
    cs := [];
    for i := 0 to |ks|
      invariant |cs| == i
      invariant forall j | 0 <= j < i :: ks[j] == Enc(CodeKey(cs[j].id)) && IsCodeExport(vm, reg, cs[j])
    {
      assert ks[i] in ks;
      var c := ExportCode(store, vm, ks[i], reg);
      cs := cs + [c];
    }
    CodesComplete(store, vm, reg, ks, cs);
  }

  lemma ScannedState(store: Flat, reg: Registry, a: Addr, k: Bytes)
    requires Represents(store, reg) && k in store && [3] + a <= k
    ensures var p := a + k[1 + |a|..]; k == [3] + p && store[k].StateV? && Lookup(reg.state, p) == Some(store[k].bytes)
  {
    assert k[..1 + |a|] == [3] + a;
    assert k == [3] + (a + k[1 + |a|..]);
    assert k[0] == 3 && k[1..] == a + k[1 + |a|..];
    assert Lookup(store, k) == Expect(reg, Parse(k));
  }

  lemma StateComplete(store: Flat, reg: Registry, a: Addr, ks: seq<Bytes>, kvs: seq<KeyValue>)
    requires Represents(store, reg) && IsScan(store, [3] + a, ks) && |kvs| == |ks|
    requires forall j | 0 <= j < |kvs| :: ks[j] == [3] + (a + kvs[j].0) && Lookup(reg.state, a + kvs[j].0) == Some(kvs[j].1)
    ensures IsStateExport(reg.state, a, kvs)
  {
    forall i, j | 0 <= i < j < |kvs| ensures Less(kvs[i].0, kvs[j].0) {
      LessUnderPrefix([3], a + kvs[i].0, a + kvs[j].0);
      LessUnderPrefix(a, kvs[i].0, kvs[j].0);
    }
    assert kvs[..|kvs|] == kvs;
    forall p ensures p in Paths(a, kvs) <==> p in reg.state && a <= p {
      PathsMembers(a, kvs, |kvs|, p);
      if p in reg.state && a <= p { StatePathFound(store, reg, a, ks, kvs, p); }
    }
  }

  lemma StatePathFound(store: Flat, reg: Registry, a: Addr, ks: seq<Bytes>, kvs: seq<KeyValue>, p: Bytes)
    requires Represents(store, reg) && IsScan(store, [3] + a, ks) && |kvs| == |ks|
    requires forall j | 0 <= j < |kvs| :: ks[j] == [3] + (a + kvs[j].0)
    requires p in reg.state && a <= p
    ensures exists j :: 0 <= j < |kvs| && a + kvs[j].0 == p
  {
    At(store, ImageOf(reg), StateKey(p));
    assert [3] + a <= [3] + p;
    var j :| 0 <= j < |ks| && ks[j] == [3] + p;
    AppendSame([3], a + kvs[j].0, p);
  }

  /** IterateContractState with the export callback. */
  method ExportState(store: Flat, a: Addr, ghost reg: Registry) returns (kvs: seq<KeyValue>)
    requires Represents(store, reg)
    ensures IsStateExport(reg.state, a, kvs)
  {
    var ks := Iterate(store, [3] + a);
    kvs := [];
    for i := 0 to |ks|
      invariant |kvs| == i
      invariant forall j | 0 <= j < i :: ks[j] == [3] + (a + kvs[j].0) && Lookup(reg.state, a + kvs[j].0) == Some(kvs[j].1)
    {
      assert ks[i] in ks;
      ScannedState(store, reg, a, ks[i]);
      kvs := kvs + [(ks[i][1 + |a|..], store[ks[i]].bytes)];
    }
    StateComplete(store, reg, a, ks, kvs);
  }

  lemma ScannedContract(store: Flat, reg: Registry, k: Bytes)
    requires Represents(store, reg) && k in store && [2] <= k
    ensures var a := k[1..]; k == [2] + a && a in reg.contracts && store[k] == ContractV(reg.contracts[a])
  {
    assert k[0] == 2 && Lookup(store, k) == Expect(reg, Parse(k));
  }

  lemma ContractsComplete(store: Flat, reg: Registry, ks: seq<Bytes>, cs: seq<GenContract>)
    requires Represents(store, reg) && IsScan(store, [2], ks) && |cs| == |ks|
    requires forall j | 0 <= j < |cs| :: ks[j] == [2] + cs[j].addr && IsContractExport(reg, cs[j])
    ensures Addrs(cs) == reg.contracts.Keys
    ensures forall i, j | 0 <= i < j < |cs| :: Less(cs[i].addr, cs[j].addr)
  {
    forall i, j | 0 <= i < j < |cs| ensures Less(cs[i].addr, cs[j].addr) {
      LessUnderPrefix([2], cs[i].addr, cs[j].addr);
    }
    assert cs[..|cs|] == cs;
    forall a: Addr ensures a in Addrs(cs) <==> a in reg.contracts {
      AddrsMembers(cs, |cs|, a);
      if a in reg.contracts {
        At(store, ImageOf(reg), ContractKey(a));
        assert [2] + a in ks;
        var j :| 0 <= j < |ks| && ks[j] == [2] + a;
        AppendSame([2], cs[j].addr, a);
      }
    }
  }

  method ExportContract(store: Flat, k: Bytes, ghost reg: Registry) returns (c: GenContract)
    requires Represents(store, reg) && k in store && [2] <= k && forall a | a in reg.history :: |reg.history[a]| < TWO_64
    ensures k == [2] + c.addr && IsContractExport(reg, c)
  {
    ScannedContract(store, reg, k);
    var a := k[1..];
    var state := ExportState(store, a, reg);
    var history := GetContractHistory(store, a, ImageOf(reg), reg.history);
    c := GenContract(a, store[k].contract, state, history);
  }

  /** IterateContractInfo with the export callback. */
  method ExportContracts(store: Flat, ghost reg: Registry) returns (cs: seq<GenContract>)
    requires Represents(store, reg) && forall a | a in reg.history :: |reg.history[a]| < TWO_64
    ensures forall i | 0 <= i < |cs| :: IsContractExport(reg, cs[i])
    ensures forall i, j | 0 <= i < j < |cs| :: Less(cs[i].addr, cs[j].addr)
    ensures Addrs(cs) == reg.contracts.Keys
  {
    var ks := Iterate(store, [2]);
    cs := [];
    for i := 0 to |ks|
      invariant |cs| == i
      invariant forall j | 0 <= j < i :: ks[j] == [2] + cs[j].addr && IsContractExport(reg, cs[j])
    {
      assert ks[i] in ks;
      var c := ExportContract(store, ks[i], reg);
      cs := cs + [c];
    }
    ContractsComplete(store, reg, ks, cs);
  }

  /** PeekAutoIncrementID */
  method Peek(keeper: Keeper, k: Key, ghost reg: Registry) returns (id: U64)
    requires (k.CodeSequence? || k.InstanceSequence?) && Represents(keeper.store, reg)
    ensures id == NextId(if k.CodeSequence? then reg.codeSeq else reg.instanceSeq)
  {
    var v := keeper.Get(k, ImageOf(reg));
    id := if v.Some? then v.value.next else 1;
  }

  method ExportGenesis(keeper: Keeper, vm: Vm, ghost reg: Registry) returns (g: GenState)
    requires Represents(keeper.store, reg) && reg.params.Some? && forall a | a in reg.history :: |reg.history[a]| < TWO_64
    ensures IsExport(vm, reg, g)
  {
    var params := keeper.Get(ParamsKey, ImageOf(reg));
    var codes := ExportCodes(keeper.store, vm, reg);
    var contracts := ExportContracts(keeper.store, reg);
    var codeSeq := Peek(keeper, CodeSequence, reg);
    var instanceSeq := Peek(keeper, InstanceSequence, reg);
    g := GenState(params.value.params, codes, contracts, BothSequences(codeSeq, instanceSeq));
  }

  // ---- import ----

  /** importCode and PinCode */
  method InitCode(keeper: Keeper, vm: Vm, c: GenCode, ghost reg: Registry) returns (ok: bool)
    requires Represents(keeper.store, reg)
    modifies keeper
    ensures ok == ImportCode(vm, reg, c).Some?
    ensures ok ==> Represents(keeper.store, ImportCode(vm, reg, c).value)
    ensures Outside(keeper.store) == old(Outside(keeper.store))
  {
    if vm.checksum(c.bytes) != Some(c.info.hash) { return false; }
    var existing := keeper.Get(CodeKey(c.id), ImageOf(reg));
    if existing.Some? { return false; }
    keeper.StoreCodeInfo(c.id, c.info, reg);
    ok := true;
    if c.pinned {
      ok := keeper.SetPinned(c.id, true, vm.pin(c.info.hash), reg.(codes := reg.codes[c.id := c.info]));
    }
  }

  lemma {:induction false} CodeFailureStays(vm: Vm, r0: Registry, cs: seq<GenCode>, i: nat)
    requires i <= |cs| && ImportCodes(vm, r0, cs[..i]).None?
    ensures ImportCodes(vm, r0, cs).None?
    decreases |cs|
  {
    if i < |cs| {
      assert cs[..|cs| - 1][..i] == cs[..i];
      CodeFailureStays(vm, r0, cs[..|cs| - 1], i);
    } else {
      assert cs[..i] == cs;
    }
  }

  method InitCodes(keeper: Keeper, vm: Vm, cs: seq<GenCode>, ghost reg: Registry) returns (ok: bool, maxCodeId: nat)
    requires Represents(keeper.store, reg)
    modifies keeper
    ensures ok == ImportCodes(vm, reg, cs).Some?
    ensures ok ==> Represents(keeper.store, ImportCodes(vm, reg, cs).value) && maxCodeId == MaxCodeId(cs)
    ensures Outside(keeper.store) == old(Outside(keeper.store))
  {
    maxCodeId := 0;
    for i := 0 to |cs|
      invariant ImportCodes(vm, reg, cs[..i]).Some? && Represents(keeper.store, ImportCodes(vm, reg, cs[..i]).value)
      invariant maxCodeId == MaxCodeId(cs[..i]) && Outside(keeper.store) == old(Outside(keeper.store))
    {
      assert cs[..i + 1][..i] == cs[..i];
      var stored := InitCode(keeper, vm, cs[i], ImportCodes(vm, reg, cs[..i]).value);
      if !stored {
        CodeFailureStays(vm, reg, cs, i + 1);
        return false, maxCodeId;
      }
      if cs[i].id > maxCodeId { maxCodeId := cs[i].id; }
    }
    assert cs[..|cs|] == cs;
    ok := true;
  }

  function WithHistory(reg: Registry, a: Addr, es: seq<HistoryEntry>): Registry {
    reg.(history := reg.history[a := HistoryOf(reg, a) + es])
  }

  /** Until the contract itself is stored, a new entry changes what one key holds. */
  lemma EntryImage(reg: Registry, a: Addr, es: seq<HistoryEntry>, e: HistoryEntry)
    requires a !in reg.contracts && |HistoryOf(reg, a) + es| + 1 < TWO_64
    ensures var nr := |HistoryOf(reg, a) + es| + 1;
      forall k :: Expect(WithHistory(reg, a, es + [e]), k) ==
        if k == HistoryKey(a, nr) then Some(HistoryV(e)) else Expect(WithHistory(reg, a, es), k)
  {
  }

  method AppendEntry(keeper: Keeper, a: Addr, pos: U64, e: HistoryEntry, ghost reg: Registry, ghost es: seq<HistoryEntry>)
    requires Represents(keeper.store, WithHistory(reg, a, es)) && a !in reg.contracts && pos == |HistoryOf(reg, a) + es| + 1
    modifies keeper
    ensures Represents(keeper.store, WithHistory(reg, a, es + [e]))
    ensures Outside(keeper.store) == old(Outside(keeper.store))
  {
    ghost var r := WithHistory(reg, a, es);
    keeper.Set(HistoryKey(a, pos), HistoryV(e), ImageOf(r));
    EntryImage(reg, a, es, e);
    SameImage(keeper.store, Upd(ImageOf(r), HistoryKey(a, pos), Some(HistoryV(e))), ImageOf(WithHistory(reg, a, es + [e])));
  }

  lemma NoEntryYet(store: Flat, reg: Registry, a: Addr)
    requires Represents(store, reg)
    ensures Represents(store, WithHistory(reg, a, []))
  {
    SameImage(store, ImageOf(reg), ImageOf(WithHistory(reg, a, [])));
  }

  /** appendToContractHistory: one scan for the last position, then one entry after another. */
  method AppendEntries(keeper: Keeper, a: Addr, es: seq<HistoryEntry>, ghost reg: Registry)
    requires Represents(keeper.store, reg) && a !in reg.contracts && |HistoryOf(reg, a)| + |es| < TWO_64
    modifies keeper
    ensures Represents(keeper.store, WithHistory(reg, a, es))
    ensures Outside(keeper.store) == old(Outside(keeper.store))
  {
    var pos: int := LastPosition(keeper.store, a, ImageOf(reg), reg.history);
    NoEntryYet(keeper.store, reg, a);
    for i := 0 to |es|
      invariant Represents(keeper.store, WithHistory(reg, a, es[..i])) && pos == |HistoryOf(reg, a)| + i
      invariant Outside(keeper.store) == old(Outside(keeper.store))
    {
      pos := pos + 1;
      AppendEntry(keeper, a, pos, es[i], reg, es[..i]);
      assert es[..i + 1] == es[..i] + [es[i]];
    }
    assert es[..|es|] == es;
  }

  /** What the record and its two index entries add, once the history is there. */
  function Recorded(reg: Registry, a: Addr, info: ContractInfo, k: Key): Option<Val> {
    var h := HistoryOf(reg, a);
    if k == ContractKey(a) then Some(ContractV(info))
    else if h != [] && (k == ByCodeKey(Last(h).code, Last(h).updated, a) || k == ByCreatorKey(info.creator, h[0].updated, a)) then Some(Mark)
    else Expect(reg, k)
  }

  lemma RecordImage(reg: Registry, a: Addr, info: ContractInfo, k: Key)
    requires a !in reg.contracts
    ensures Expect(reg.(contracts := reg.contracts[a := info]), k) == Recorded(reg, a, info, k)
  {
  }

  method StoreRecord(keeper: Keeper, a: Addr, info: ContractInfo, h: seq<HistoryEntry>, ghost reg: Registry)
    requires Represents(keeper.store, reg) && a !in reg.contracts && HistoryOf(reg, a) == h != [] && |info.creator| <= 255
    modifies keeper
    ensures Represents(keeper.store, reg.(contracts := reg.contracts[a := info]))
    ensures Outside(keeper.store) == old(Outside(keeper.store))
  {
    ghost var f0 := ImageOf(reg);
    keeper.Set(ContractKey(a), ContractV(info), f0);
    ghost var f1 := Upd(f0, ContractKey(a), Some(ContractV(info)));
    var byCode := ByCodeKey(Last(h).code, Last(h).updated, a);
    keeper.Set(byCode, Mark, f1);
    ghost var f2 := Upd(f1, byCode, Some(Mark));
    var byCreator := ByCreatorKey(info.creator, h[0].updated, a);
    keeper.Set(byCreator, Mark, f2);
    ghost var f3, f4 := Upd(f2, byCreator, Some(Mark)), ImageOf(reg.(contracts := reg.contracts[a := info]));
    forall k ensures f3(k) == f4(k) { RecordImage(reg, a, info, k); }
    SameImage(keeper.store, f3, f4);
  }

  lemma {:induction false} StateFailureStays(s: map<Bytes, Bytes>, a: Addr, kvs: seq<KeyValue>, i: nat)
    requires i <= |kvs| && ImportState(s, a, kvs[..i]).None?
    ensures ImportState(s, a, kvs).None?
    decreases |kvs|
  {
    if i < |kvs| {
      assert kvs[..|kvs| - 1][..i] == kvs[..i];
      StateFailureStays(s, a, kvs[..|kvs| - 1], i);
    } else {
      assert kvs[..i] == kvs;
    }
  }

  /** importContractState */
  method InitState(keeper: Keeper, a: Addr, kvs: seq<KeyValue>, ghost reg: Registry) returns (ok: bool)
    requires Represents(keeper.store, reg)
    modifies keeper
    ensures ok == ImportState(reg.state, a, kvs).Some?
    ensures ok ==> Represents(keeper.store, reg.(state := ImportState(reg.state, a, kvs).value))
    ensures Outside(keeper.store) == old(Outside(keeper.store))
  {
    assert reg.(state := reg.state) == reg;
    for i := 0 to |kvs|
      invariant ImportState(reg.state, a, kvs[..i]).Some? && Outside(keeper.store) == old(Outside(keeper.store))
      invariant Represents(keeper.store, reg.(state := ImportState(reg.state, a, kvs[..i]).value))
    {
      assert kvs[..i + 1][..i] == kvs[..i];
      ghost var now := reg.(state := ImportState(reg.state, a, kvs[..i]).value);
      var existing := keeper.Get(StateKey(a + kvs[i].0), ImageOf(now));
      if existing.Some? {
        StateFailureStays(reg.state, a, kvs, i + 1);
        return false;
      }
      keeper.WriteStateKey(a + kvs[i].0, Some(kvs[i].1), now);
    }
    assert kvs[..|kvs|] == kvs;
    ok := true;
  }

  /** importContract; a registered address and a stored history go together. */
  method InitContract(keeper: Keeper, c: GenContract, ghost reg: Registry) returns (ok: bool)
    requires Represents(keeper.store, reg) && reg.history.Keys == reg.contracts.Keys && |c.history| < TWO_64
    modifies keeper
    ensures ok == ImportContract(reg, c).Some?
    ensures ok ==> Represents(keeper.store, ImportContract(reg, c).value)
    ensures Outside(keeper.store) == old(Outside(keeper.store))
  {
    if !Accepted(c.addr) { return false; }
    var code := keeper.Get(CodeKey(c.info.code), ImageOf(reg));
    if code.None? { return false; }
    var existing := keeper.Get(ContractKey(c.addr), ImageOf(reg));
    if existing.Some? || c.history == [] || !Accepted(c.info.creator) { return false; }
    AppendEntries(keeper, c.addr, c.history, reg);
    ghost var r1 := WithHistory(reg, c.addr, c.history);
    assert HistoryOf(r1, c.addr) == c.history;
    StoreRecord(keeper, c.addr, c.info, c.history, r1);
    ok := InitState(keeper, c.addr, c.state, r1.(contracts := r1.contracts[c.addr := c.info]));
  }

  lemma {:induction false} ImportKeepsKeys(r0: Registry, cs: seq<GenContract>)
    requires r0.history.Keys == r0.contracts.Keys && ImportContracts(r0, cs).Some?
    ensures ImportContracts(r0, cs).value.history.Keys == ImportContracts(r0, cs).value.contracts.Keys
    decreases |cs|
  {
    if cs != [] { ImportKeepsKeys(r0, cs[..|cs| - 1]); }
  }

  method InitContracts(keeper: Keeper, cs: seq<GenContract>, ghost reg: Registry) returns (ok: bool)
    requires Represents(keeper.store, reg) && reg.history.Keys == reg.contracts.Keys
    requires forall i | 0 <= i < |cs| :: |cs[i].history| < TWO_64
    modifies keeper
    ensures ok == ImportContracts(reg, cs).Some?
    ensures ok ==> Represents(keeper.store, ImportContracts(reg, cs).value)
    ensures Outside(keeper.store) == old(Outside(keeper.store))
  {
    for i := 0 to |cs|
      invariant ImportContracts(reg, cs[..i]).Some? && Represents(keeper.store, ImportContracts(reg, cs[..i]).value)
      invariant Outside(keeper.store) == old(Outside(keeper.store))
    {
      assert cs[..i + 1][..i] == cs[..i];
      ImportKeepsKeys(reg, cs[..i]);
      var stored := InitContract(keeper, cs[i], ImportContracts(reg, cs[..i]).value);
      if !stored {
        FailureStays(reg, cs, i + 1);
        return false;
      }
    }
    assert cs[..|cs|] == cs;
    ok := true;
  }

  /** The store holds what was loaded and nothing else; stray values hide nothing. */
  ghost predicate Stored(store: Flat, l: Loaded) {
    && (forall raw :: Lookup(store, raw) == if raw in l.stray then Some(SequenceV(l.stray[raw])) else Expect(l.reg, Parse(raw)))
    && (forall k | k in l.stray :: Expect(l.reg, Parse(k)).None? && !Parse(k).CodeSequence? && !Parse(k).InstanceSequence?)
  }

  lemma StoredPlainly(store: Flat, reg: Registry)
    requires Represents(store, reg) && Outside(store) == map[]
    ensures Stored(store, Loaded(reg, map[]))
  {
    forall raw ensures Lookup(store, raw) == Expect(reg, Parse(raw)) {
      if Parse(raw).Foreign? { assert raw !in Outside(store); }
    }
  }

  lemma StoredRepresents(store: Flat, reg: Registry)
    requires Stored(store, Loaded(reg, map[]))
    ensures Represents(store, reg)
  {
  }

  lemma SequenceStored(store: Flat, l: Loaded, s: GenSequence)
    requires Stored(store, l) && ImportSequence(l, s).Some?
    ensures Stored(store[s.key := SequenceV(s.value)], ImportSequence(l, s).value)
  {
    var l', store' := ImportSequence(l, s).value, store[s.key := SequenceV(s.value)];
    var k := Parse(s.key);
    if k.CodeSequence? || k.InstanceSequence? {
      SequenceImage(l.reg, s.value);
      forall raw ensures Lookup(store', raw) == if raw in l'.stray then Some(SequenceV(l'.stray[raw])) else Expect(l'.reg, Parse(raw)) {
        OnlyKey(s.key, k);
        OnlyKey(raw, k);
      }
    }
  }

  /** importAutoIncrementID: whatever key the genesis names is written. */
  method InitSequence(keeper: Keeper, s: GenSequence, ghost l: Loaded) returns (ok: bool)
    requires Stored(keeper.store, l)
    modifies keeper
    ensures ok == ImportSequence(l, s).Some?
    ensures ok ==> Stored(keeper.store, ImportSequence(l, s).value)
  {
    if s.key == [] || s.key in keeper.store { return false; }
    SequenceStored(keeper.store, l, s);
    keeper.store := keeper.store[s.key := SequenceV(s.value)];
    ok := true;
  }

  lemma {:induction false} SequenceFailureStays(l: Loaded, ss: seq<GenSequence>, i: nat)
    requires i <= |ss| && ImportSequences(l, ss[..i]).None?
    ensures ImportSequences(l, ss).None?
    decreases |ss|
  {
    if i < |ss| {
      assert ss[..|ss| - 1][..i] == ss[..i];
      SequenceFailureStays(l, ss[..|ss| - 1], i);
    } else {
      assert ss[..i] == ss;
    }
  }

  method InitSequences(keeper: Keeper, ss: seq<GenSequence>, ghost l: Loaded) returns (ok: bool)
    requires Stored(keeper.store, l)
    modifies keeper
    ensures ok == ImportSequences(l, ss).Some?
    ensures ok ==> Stored(keeper.store, ImportSequences(l, ss).value)
  {
    for i := 0 to |ss|
      invariant ImportSequences(l, ss[..i]).Some? && Stored(keeper.store, ImportSequences(l, ss[..i]).value)
    {
      assert ss[..i + 1][..i] == ss[..i];
      var stored := InitSequence(keeper, ss[i], ImportSequences(l, ss[..i]).value);
      if !stored {
        SequenceFailureStays(l, ss, i + 1);
        return false;
      }
    }
    assert ss[..|ss|] == ss;
    ok := true;
  }

  /** PeekAutoIncrementID on a store with stray values. */
  method PeekLoaded(store: Flat, k: Key, ghost l: Loaded) returns (id: U64)
    requires (k.CodeSequence? || k.InstanceSequence?) && Stored(store, l)
    ensures id == NextId(if k.CodeSequence? then l.reg.codeSeq else l.reg.instanceSeq)
  {
    ParseEnc(k);
    var v := Lookup(store, Enc(k));
    assert v == Expect(l.reg, k);
    id := if v.Some? then v.value.next else 1;
  }

  /** The two sanity checks at the end of InitGenesis. */
  method CheckSequences(keeper: Keeper, g: GenState, maxCodeId: nat, ghost l: Loaded) returns (ok: bool)
    requires Stored(keeper.store, l) && maxCodeId == MaxCodeId(g.codes)
    ensures ok == Checked(keeper.chain, g, l)
  {
    var next := PeekLoaded(keeper.store, CodeSequence, l);
    if next <= maxCodeId { return false; }
    var instance := PeekLoaded(keeper.store, InstanceSequence, l);
    return Enc(ContractKey(AddressOf(keeper.chain.hash, Classic(instance, instance)))) !in keeper.store;
  }

  lemma {:induction false} CodesLeaveContracts(vm: Vm, r0: Registry, cs: seq<GenCode>)
    requires ImportCodes(vm, r0, cs).Some?
    ensures var r := ImportCodes(vm, r0, cs).value; r.history == r0.history && r.contracts == r0.contracts
    decreases |cs|
  {
    if cs != [] { CodesLeaveContracts(vm, r0, cs[..|cs| - 1]); }
  }

  /** InitGenesis on the empty store of a new chain. */
  method InitGenesis(keeper: Keeper, vm: Vm, g: GenState) returns (ok: bool)
    requires keeper.store == map[] && forall i | 0 <= i < |g.contracts| :: |g.contracts[i].history| < TWO_64
    modifies keeper
    ensures ok == Import(keeper.chain, vm, g).Some?
    ensures ok ==> Stored(keeper.store, Import(keeper.chain, vm, g).value)
  {
    keeper.StoreParams(g.params, EMPTY);
    ghost var r0 := EMPTY.(params := Some(g.params));
    var maxCodeId;
    ok, maxCodeId := InitCodes(keeper, vm, g.codes, r0);
    if !ok { return; }
    ghost var r1 := ImportCodes(vm, r0, g.codes).value;
    CodesLeaveContracts(vm, r0, g.codes);
    ok := InitContracts(keeper, g.contracts, r1);
    if !ok { return; }
    ghost var r2 := ImportContracts(r1, g.contracts).value;
    StoredPlainly(keeper.store, r2);
    ok := InitSequences(keeper, g.sequences, Loaded(r2, map[]));
    if !ok { return; }
    ok := CheckSequences(keeper, g, maxCodeId, ImportSequences(Loaded(r2, map[]), g.sequences).value);
  }

  /** Export from the store of any run, import into an empty one: the second store
      represents the same registry, with both sequences written out. */
  method ExportImport(keeper: Keeper, target: Keeper, vm: Vm, ghost ops: seq<Op>) returns (ok: bool)
    requires keeper != target && keeper.chain == target.chain && |ops| + 2 < TWO_64 && Unprobed(keeper.chain, ops)
    requires Represents(keeper.store, Run(keeper.chain, EMPTY, ops)) && target.store == map[]
    requires Run(keeper.chain, EMPTY, ops).params.Some? && VmHolds(vm, Run(keeper.chain, EMPTY, ops))
    modifies target
    ensures ok && Represents(target.store, Normal(Run(keeper.chain, EMPTY, ops)))
  {
    ghost var reg := Run(keeper.chain, EMPTY, ops);
    ReachableInv(keeper.chain, ops);
    var g := ExportGenesis(keeper, vm, reg);
    ReachableRoundTrip(keeper.chain, vm, ops, g);
    forall i | 0 <= i < |g.contracts| ensures |g.contracts[i].history| < TWO_64 {
      assert IsContractExport(reg, g.contracts[i]);
    }
    ok := InitGenesis(target, vm, g);
    StoredRepresents(target.store, Normal(reg));
  }
}
