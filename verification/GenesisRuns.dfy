/** Chains that start from a genesis: what InitGenesis guarantees about the registry it
    builds, what it takes on trust, and runs from there. */
module GenesisRuns {
  import opened Bytes
  import opened Keys
  import opened Scans
  import opened Addresses
  import opened Registry
  import opened RegistryLaws
  import opened KeeperStore
  import opened ContractIndexes
  import opened WasmKeeper
  import opened Genesis
  import opened GenesisKeeper

  // ---- codes ----

  function CodeOf(cs: seq<GenCode>, id: U64): Option<CodeInfo>
    decreases |cs|
  {
    if cs == [] then None
    else
      var c := cs[|cs| - 1];
      if c.id == id then Some(c.info) else CodeOf(cs[..|cs| - 1], id)
  }

  ghost predicate HasCodes(r0: Registry, r: Registry, cs: seq<GenCode>) {
    && r == r0.(codes := r.codes, pinned := r.pinned) && r.pinned <= r.codes.Keys
    && forall id: U64 :: if id in r.codes then CodeOf(cs, id) == Some(r.codes[id]) && id <= MaxCodeId(cs) else CodeOf(cs, id).None?
  }

  lemma {:induction false} CodesStored(vm: Vm, r0: Registry, cs: seq<GenCode>)
    requires r0.codes == map[] && r0.pinned == {} && ImportCodes(vm, r0, cs).Some?
    ensures HasCodes(r0, ImportCodes(vm, r0, cs).value, cs)
    decreases |cs|
  {
    if cs != [] { CodesStored(vm, r0, cs[..|cs| - 1]); }
  }

  // ---- contracts ----

  lemma {:induction false} StatePaths(s: map<Bytes, Bytes>, a: Addr, kvs: seq<KeyValue>, p: Bytes)
    requires ImportState(s, a, kvs).Some? && p in ImportState(s, a, kvs).value
    ensures p in s || a <= p
    decreases |kvs|
  {
    if kvs != [] && p in ImportState(s, a, kvs[..|kvs| - 1]).value { StatePaths(s, a, kvs[..|kvs| - 1], p); }
  }

  /** Contract c is there, as it stands in the genesis. */
  ghost predicate HasContract(r: Registry, c: GenContract) {
    && c.addr in r.contracts && r.contracts[c.addr] == c.info && HistoryOf(r, c.addr) == c.history
    && c.history != [] && Accepted(c.addr) && Accepted(c.info.creator) && c.info.code in r.codes
  }

  ghost predicate HasContracts(r0: Registry, r: Registry, cs: seq<GenContract>) {
    && r == r0.(contracts := r.contracts, history := r.history, state := r.state)
    && r.history.Keys == r.contracts.Keys == Addrs(cs) && AllOwned(r)
    && forall i | 0 <= i < |cs| :: HasContract(r, cs[i])
  }

  lemma StateOwned(r: Registry, c: GenContract)
    requires AllOwned(r) && ImportContract(r, c).Some?
    ensures AllOwned(ImportContract(r, c).value)
  {
    var r' := ImportContract(r, c).value;
    forall p | p in r'.state ensures Owned(r'.contracts, p) {
      StatePaths(r.state, c.addr, c.state, p);
      if p in r.state {
        var b :| b in r.contracts && b <= p;
        assert b in r'.contracts;
      } else {
        assert c.addr in r'.contracts;
      }
    }
  }

  /** A contract that is there stays as it is when another one comes. */
  lemma StillThere(r: Registry, c: GenContract, d: GenContract)
    requires HasContract(r, d) && ImportContract(r, c).Some?
    ensures HasContract(ImportContract(r, c).value, d)
  {
  }

  lemma NowThere(r: Registry, c: GenContract)
    requires ImportContract(r, c).Some? && c.addr !in r.history
    ensures HasContract(ImportContract(r, c).value, c)
  {
    ImportFresh(r, c);
  }

  lemma OneMoreContract(r0: Registry, r: Registry, front: seq<GenContract>, c: GenContract)
    requires HasContracts(r0, r, front) && ImportContract(r, c).Some?
    ensures HasContracts(r0, ImportContract(r, c).value, front + [c])
  {
    StateOwned(r, c);
    NowThere(r, c);
    var r', cs := ImportContract(r, c).value, front + [c];
    assert cs[..|cs| - 1] == front && r'.contracts.Keys == r'.history.Keys == Addrs(cs);
    forall i | 0 <= i < |cs| ensures HasContract(r', cs[i]) {
      if i < |front| { StillThere(r, c, front[i]); }
    }
  }

  lemma {:induction false} ContractsStored(r0: Registry, cs: seq<GenContract>)
    requires r0.contracts == map[] && r0.history == map[] && r0.state == map[] && ImportContracts(r0, cs).Some?
    ensures HasContracts(r0, ImportContracts(r0, cs).value, cs)
    decreases |cs|
  {
    if cs != [] {
      var front := cs[..|cs| - 1];
      ContractsStored(r0, front);
      OneMoreContract(r0, ImportContracts(r0, front).value, front, cs[|cs| - 1]);
      assert front + [cs[|cs| - 1]] == cs;
    }
  }

  // ---- sequences ----

  predicate IsSequenceKey(k: Bytes) { Parse(k).CodeSequence? || Parse(k).InstanceSequence? }

  ghost predicate SequencesUpTo(ss: seq<GenSequence>, n: nat) {
    forall i | 0 <= i < |ss| && IsSequenceKey(ss[i].key) :: ss[i].value <= n + 1
  }

  lemma {:induction false} SequencesStored(l0: Loaded, ss: seq<GenSequence>, n: nat)
    requires l0.reg.codeSeq.None? && l0.reg.instanceSeq.None? && SequencesUpTo(ss, n) && ImportSequences(l0, ss).Some?
    ensures var r := ImportSequences(l0, ss).value.reg;
      r == l0.reg.(codeSeq := r.codeSeq, instanceSeq := r.instanceSeq) && NextId(r.codeSeq) <= n + 1 && NextId(r.instanceSeq) <= n + 1
    decreases |ss|
  {
    if ss != [] { SequencesStored(l0, ss[..|ss| - 1], n); }
  }

  /** Stray are exactly the keys that the genesis names and that are no sequence keys. */
  lemma {:induction false} StrayKeys(l0: Loaded, ss: seq<GenSequence>, k: Bytes)
    requires l0.stray == map[] && ImportSequences(l0, ss).Some?
    ensures k in ImportSequences(l0, ss).value.stray <==> !IsSequenceKey(k) && exists i :: 0 <= i < |ss| && ss[i].key == k
    decreases |ss|
  {
    if ss != [] {
      var front := ss[..|ss| - 1];
      StrayKeys(l0, front, k);
      assert forall i | 0 <= i < |front| :: front[i] == ss[i];
    }
  }

  // ---- what the import guarantees ----

  ghost predicate Fits(g: GenState, n: nat) {
    SequencesUpTo(g.sequences, n) && forall i | 0 <= i < |g.contracts| :: |g.contracts[i].history| <= n
  }

  /** The registry InitGenesis builds holds the codes and contracts of the genesis, every
      state key has an owner, histories belong to contracts, and the sequences are ahead. */
  lemma ImportStores(chain: Chain, vm: Vm, g: GenState, n: nat)
    requires Import(chain, vm, g).Some? && Fits(g, n)
    ensures var reg := Import(chain, vm, g).value.reg;
      && Counted(reg, n) && AllOwned(reg) && reg.contracts.Keys == Addrs(g.contracts)
      && (forall i | 0 <= i < |g.contracts| :: HasContract(reg, g.contracts[i]))
      && (forall id: U64 :: if id in reg.codes then CodeOf(g.codes, id) == Some(reg.codes[id]) else CodeOf(g.codes, id).None?)
  {
    var r0 := EMPTY.(params := Some(g.params));
    CodesStored(vm, r0, g.codes);
    var r1 := ImportCodes(vm, r0, g.codes).value;
    ContractsStored(r1, g.contracts);
    var r2 := ImportContracts(r1, g.contracts).value;
    SequencesStored(Loaded(r2, map[]), g.sequences, n);
    var reg := Import(chain, vm, g).value.reg;
    assert HasContracts(r1, r2, g.contracts) && reg == r2.(codeSeq := reg.codeSeq, instanceSeq := reg.instanceSeq);
    forall i | 0 <= i < |g.contracts| ensures HasContract(reg, g.contracts[i]) { assert HasContract(r2, g.contracts[i]); }
    HistoriesBounded(r2, g.contracts, n);
  }

  lemma HistoriesBounded(r: Registry, cs: seq<GenContract>, n: nat)
    requires r.history.Keys == Addrs(cs) && forall i | 0 <= i < |cs| :: HasContract(r, cs[i]) && |cs[i].history| <= n
    ensures forall a | a in r.history :: |r.history[a]| <= n
  {
    forall a | a in r.history ensures |r.history[a]| <= n {
      var i := IndexOf(cs, a);
      assert HasContract(r, cs[i]);
    }
  }

  // ---- what it takes on trust ----

  /** A genesis contract whose record agrees with its history and with its code's report. */
  ghost predicate Agrees(chain: Chain, g: GenState, c: GenContract) {
    var code := CodeOf(g.codes, c.info.code);
    && c.history != [] && c.info.code == Last(c.history).code && c.info.created == c.history[0].updated
    && code.Some? && chain.report(code.value.hash).Some?
    && c.info.port == if chain.report(code.value.hash).value.ibc then Some(PortFor(c.addr)) else None
  }

  ghost predicate AllAgree(chain: Chain, g: GenState) {
    forall i | 0 <= i < |g.contracts| :: Agrees(chain, g, g.contracts[i])
  }

  /** InitGenesis compares none of this, so the registry it builds is consistent if and only
      if the genesis was. */
  lemma ImportConsistentIff(chain: Chain, vm: Vm, g: GenState, n: nat)
    requires Import(chain, vm, g).Some? && Fits(g, n)
    ensures AllConsistent(chain, Import(chain, vm, g).value.reg) <==> AllAgree(chain, g)
  {
    ImportStores(chain, vm, g, n);
    var reg := Import(chain, vm, g).value.reg;
    if AllAgree(chain, g) {
      forall a | a in reg.contracts ensures Consistent(chain, reg, a) {
        var i := IndexOf(g.contracts, a);
        assert HasContract(reg, g.contracts[i]) && Agrees(chain, g, g.contracts[i]);
      }
    }
    if AllConsistent(chain, reg) {
      forall i | 0 <= i < |g.contracts| ensures Agrees(chain, g, g.contracts[i]) {
        assert HasContract(reg, g.contracts[i]) && Consistent(chain, reg, g.contracts[i].addr);
      }
    }
  }

  /** A key the genesis may give a sequence without harm: one of the two sequence keys, or one
      that is nothing to the registry. */
  predicate Harmless(k: Bytes) { IsSequenceKey(k) || Parse(k).Foreign? }

  ghost predicate AllHarmless(g: GenState) {
    forall i | 0 <= i < |g.sequences| :: Harmless(g.sequences[i].key)
  }

  /** InitGenesis does not look at the keys of sequences either: the store it leaves represents
      the imported registry if and only if all of them are harmless. */
  lemma ImportRepresentsIff(chain: Chain, vm: Vm, g: GenState, store: Flat)
    requires Import(chain, vm, g).Some? && Stored(store, Import(chain, vm, g).value)
    ensures Represents(store, Import(chain, vm, g).value.reg) <==> AllHarmless(g)
  {
    var l := Import(chain, vm, g).value;
    var l0 := Loaded(ImportContracts(ImportCodes(vm, EMPTY.(params := Some(g.params)), g.codes).value, g.contracts).value, map[]);
    if AllHarmless(g) {
      forall raw | !Parse(raw).Foreign? ensures Lookup(store, raw) == Expect(l.reg, Parse(raw)) {
        StrayKeys(l0, g.sequences, raw);
      }
    } else {
      var i :| 0 <= i < |g.sequences| && !Harmless(g.sequences[i].key);
      var k := g.sequences[i].key;
      StrayKeys(l0, g.sequences, k);
      assert Lookup(store, k) == Some(SequenceV(l.stray[k])) && Expect(l.reg, Parse(k)).None?;
    }
  }

  // ---- an index entry that no contract accounts for ----

  function WithEntry(g: GenState, id: U64, at: Pos, x: Addr, v: U64): GenState {
    g.(sequences := g.sequences + [GenSequence(Enc(ByCodeKey(id, at, x)), v)])
  }

  lemma StrayEntryImported(chain: Chain, vm: Vm, g: GenState, id: U64, at: Pos, x: Addr, v: U64)
    requires Import(chain, vm, g).Some? && AllHarmless(g) && x !in Import(chain, vm, g).value.reg.contracts
    ensures var l := Import(chain, vm, g).value;
      Import(chain, vm, WithEntry(g, id, at, x, v)) == Some(l.(stray := l.stray[Enc(ByCodeKey(id, at, x)) := v]))
  {
    var l, k, ss := Import(chain, vm, g).value, Enc(ByCodeKey(id, at, x)), WithEntry(g, id, at, x, v).sequences;
    var l0 := Loaded(ImportContracts(ImportCodes(vm, EMPTY.(params := Some(g.params)), g.codes).value, g.contracts).value, map[]);
    ParseEnc(ByCodeKey(id, at, x));
    StrayKeys(l0, g.sequences, k);
    assert ss[..|ss| - 1] == g.sequences && ss[|ss| - 1].key == k;
    assert ImportSequences(l0, ss) == Some(l.(stray := l.stray[k := v]));
    ParseEnc(ContractKey(ProbedAddress(chain, l.reg)));
  }

  /** Whatever genesis is accepted, adding one sequence with the key of a by-code entry for an
      address that is not registered gives a genesis that is accepted too and agrees as much;
      then iterating by code returns that address. */
  lemma StrayEntryIsListed(chain: Chain, vm: Vm, g: GenState, id: U64, at: Pos, x: Addr, v: U64, store: Flat, ats: seq<Pos>, addrs: seq<Addr>)
    requires Import(chain, vm, g).Some? && AllHarmless(g) && x !in Import(chain, vm, g).value.reg.contracts
    requires Import(chain, vm, WithEntry(g, id, at, x, v)).Some? ==> Stored(store, Import(chain, vm, WithEntry(g, id, at, x, v)).value)
    requires IsListing(store, ByCodePrefix(id), ats, addrs)
    ensures var r := Import(chain, vm, WithEntry(g, id, at, x, v));
      r.Some? && r.value.reg == Import(chain, vm, g).value.reg && x in addrs && !Represents(store, r.value.reg)
    ensures AllAgree(chain, WithEntry(g, id, at, x, v)) <==> AllAgree(chain, g)
  {
    StrayEntryImported(chain, vm, g, id, at, x, v);
    var g', k := WithEntry(g, id, at, x, v), Enc(ByCodeKey(id, at, x));
    assert Lookup(store, k).Some? && k == EntryKey(ByCodePrefix(id), at, x);
    assert Listed(ats, addrs, at, x);
    ParseEnc(ByCodeKey(id, at, x));
    assert g'.sequences[|g.sequences|].key == k && !Harmless(k);
    ImportRepresentsIff(chain, vm, g', store);
    assert forall c :: Agrees(chain, g', c) <==> Agrees(chain, g, c);
  }

  // ---- runs ----

  /** Every run of a chain that started from a genesis in agreement keeps record, history,
      code, port, indexes and state of every contract in order. */
  lemma RunsFromGenesis(chain: Chain, vm: Vm, g: GenState, ops: seq<Op>, n: nat)
    requires Import(chain, vm, g).Some? && AllAgree(chain, g) && Fits(g, n) && n + |ops| + 2 < TWO_64
    ensures Inv(chain, Run(chain, Import(chain, vm, g).value.reg, ops), n + |ops|)
  {
    ImportStores(chain, vm, g, n);
    ImportConsistentIff(chain, vm, g, n);
    RunKeepsInv(chain, Import(chain, vm, g).value.reg, ops, n);
  }

  /** A chain on its store, from genesis through any run: the store represents the run's
      registry, which is in order. */
  method RunChain(keeper: Keeper, vm: Vm, g: GenState, ops: seq<Op>, ghost n: nat) returns (ok: bool)
    requires keeper.store == map[] && AllAgree(keeper.chain, g) && AllHarmless(g) && Fits(g, n) && n + |ops| + 2 < TWO_64
    modifies keeper
    ensures ok == Import(keeper.chain, vm, g).Some?
    ensures ok ==> var end := Run(keeper.chain, Import(keeper.chain, vm, g).value.reg, ops);
      Represents(keeper.store, end) && Inv(keeper.chain, end, n + |ops|)
  {
    ok := InitGenesis(keeper, vm, g);
    if ok {
      ImportRepresentsIff(keeper.chain, vm, g, keeper.store);
      RunsFromGenesis(keeper.chain, vm, g, [], n);
      RunsFromGenesis(keeper.chain, vm, g, ops, n);
      keeper.PerformAll(ops, Import(keeper.chain, vm, g).value.reg, n);
    }
  }
}
