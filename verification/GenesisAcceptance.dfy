/** Which genesis files InitGenesis accepts, said of the file alone. */
module GenesisAcceptance {
  import opened Bytes
  import opened Keys
  import opened Addresses
  import opened Registry
  import opened KeeperStore
  import opened Genesis

  // ---- codes ----

  /** The bytes have the checksum the record names, and the VM pins what is to be pinned. */
  predicate CodeFine(vm: Vm, c: GenCode) {
    vm.checksum(c.bytes) == Some(c.info.hash) && (c.pinned ==> vm.pin(c.info.hash))
  }

  ghost predicate CodesFine(vm: Vm, cs: seq<GenCode>) {
    && (forall i | 0 <= i < |cs| :: CodeFine(vm, cs[i]))
    && (forall i, j | 0 <= i < j < |cs| :: cs[i].id != cs[j].id)
  }

  lemma {:induction false} CodesAcceptedIff(vm: Vm, r0: Registry, cs: seq<GenCode>)
    requires r0.codes == map[]
    ensures ImportCodes(vm, r0, cs).Some? <==> CodesFine(vm, cs)
    ensures ImportCodes(vm, r0, cs).Some? ==>
      var r := ImportCodes(vm, r0, cs).value; r.codes.Keys == Ids(cs) && r == r0.(codes := r.codes, pinned := r.pinned)
    decreases |cs|
  {
    if cs != [] {
      var n := |cs| - 1;
      var front, c := cs[..n], cs[n];
      CodesAcceptedIff(vm, r0, front);
      IdsMembers(cs, n, c.id);
      assert cs == front + [c];
      if CodesFine(vm, cs) {
        assert forall i | 0 <= i < n :: front[i] == cs[i];
        assert CodesFine(vm, front);
      }
    }
  }

  // ---- contracts ----

  /** Accepted addresses, a stored code and a history. */
  predicate ContractFine(codes: set<U64>, c: GenContract) {
    Accepted(c.addr) && Accepted(c.info.creator) && c.info.code in codes && c.history != []
  }

  /** Key x of contract i, as a path in the store. */
  function PathOf(cs: seq<GenContract>, i: nat, x: nat): Bytes
    requires i < |cs| && x < |cs[i].state|
  {
    cs[i].addr + cs[i].state[x].0
  }

  ghost predicate ContractsFine(codes: set<U64>, cs: seq<GenContract>) {
    && (forall i | 0 <= i < |cs| :: ContractFine(codes, cs[i]))
    && (forall i, j | 0 <= i < j < |cs| :: cs[i].addr != cs[j].addr)
    && (forall i | 0 <= i < |cs| :: DistinctKeys(cs[i].state))
    && (forall i, j | 0 <= i < j < |cs| :: Apart(cs, i, j))
  }

  ghost predicate DistinctKeys(kvs: seq<KeyValue>) {
    forall x, y | 0 <= x < y < |kvs| :: kvs[x].0 != kvs[y].0
  }

  /** No path of contract i is one of contract j. */
  ghost predicate Apart(cs: seq<GenContract>, i: nat, j: nat)
    requires i < |cs| && j < |cs|
  {
    forall x, y | 0 <= x < |cs[i].state| && 0 <= y < |cs[j].state| :: PathOf(cs, i, x) != PathOf(cs, j, y)
  }

  ghost predicate ApartFromAll(cs: seq<GenContract>, n: nat)
    requires n < |cs|
  {
    forall i | 0 <= i < n :: Apart(cs, i, n)
  }

  ghost predicate Fresh(s: map<Bytes, Bytes>, a: Addr, kvs: seq<KeyValue>) {
    forall x | 0 <= x < |kvs| :: a + kvs[x].0 !in s
  }

  lemma {:induction false} StateAcceptedIff(s: map<Bytes, Bytes>, a: Addr, kvs: seq<KeyValue>)
    ensures ImportState(s, a, kvs).Some? <==> Fresh(s, a, kvs) && DistinctKeys(kvs)
    ensures ImportState(s, a, kvs).Some? ==> ImportState(s, a, kvs).value.Keys == s.Keys + Paths(a, kvs)
    decreases |kvs|
  {
    if kvs != [] {
      var n := |kvs| - 1;
      var front, p := kvs[..n], a + kvs[n].0;
      StateAcceptedIff(s, a, front);
      PathsMembers(a, kvs, n, p);
      assert kvs == front + [kvs[n]] && forall x | 0 <= x < n :: front[x] == kvs[x];
      forall x | 0 <= x < n ensures a + kvs[x].0 == p <==> kvs[x].0 == kvs[n].0 {
        AppendSame(a, kvs[x].0, kvs[n].0);
      }
      if Fresh(s, a, kvs) && DistinctKeys(kvs) { assert Fresh(s, a, front) && DistinctKeys(front); }
      if ImportState(s, a, front).Some? && p !in ImportState(s, a, front).value { LastKeyNew(s, a, kvs); }
    }
  }

  lemma LastKeyNew(s: map<Bytes, Bytes>, a: Addr, kvs: seq<KeyValue>)
    requires kvs != [] && var front := kvs[..|kvs| - 1]; Fresh(s, a, front) && DistinctKeys(front)
    requires var p := a + kvs[|kvs| - 1].0; p !in s && p !in Paths(a, kvs[..|kvs| - 1])
    ensures Fresh(s, a, kvs) && DistinctKeys(kvs)
  {
    var n := |kvs| - 1;
    var front := kvs[..n];
    PathsMembers(a, kvs, n, a + kvs[n].0);
    assert forall x | 0 <= x < n :: front[x] == kvs[x];
  }

  /** All paths of some contracts. */
  ghost function AllPaths(cs: seq<GenContract>): set<Bytes>
    decreases |cs|
  {
    if cs == [] then {} else AllPaths(cs[..|cs| - 1]) + Paths(cs[|cs| - 1].addr, cs[|cs| - 1].state)
  }

  lemma {:induction false} AllPathsMembers(cs: seq<GenContract>, p: Bytes)
    ensures p in AllPaths(cs) <==> exists i, x :: 0 <= i < |cs| && 0 <= x < |cs[i].state| && PathOf(cs, i, x) == p
    decreases |cs|
  {
    if cs != [] {
      var n := |cs| - 1;
      var front, c := cs[..n], cs[n];
      AllPathsMembers(front, p);
      assert c.state[..|c.state|] == c.state;
      PathsMembers(c.addr, c.state, |c.state|, p);
      if p in AllPaths(front) {
        var i, x :| 0 <= i < |front| && 0 <= x < |front[i].state| && PathOf(front, i, x) == p;
        assert PathOf(cs, i, x) == p;
      } else if p in Paths(c.addr, c.state) {
        var x :| 0 <= x < |c.state| && c.addr + c.state[x].0 == p;
        assert PathOf(cs, n, x) == p;
      }
      if exists i, x :: 0 <= i < |cs| && 0 <= x < |cs[i].state| && PathOf(cs, i, x) == p {
        var i, x :| 0 <= i < |cs| && 0 <= x < |cs[i].state| && PathOf(cs, i, x) == p;
        if i < n { assert PathOf(front, i, x) == p; }
      }
    }
  }

  /** What an import of contracts has built so far. */
  ghost predicate Built(r0: Registry, r: Registry, cs: seq<GenContract>) {
    r.codes == r0.codes && r.contracts.Keys == Addrs(cs) && r.state.Keys == AllPaths(cs)
  }

  /** One more contract is accepted exactly if it is fine by itself, its address is new, and none
      of its paths is taken. */
  lemma OneMoreAcceptedIff(r0: Registry, r: Registry, cs: seq<GenContract>)
    requires cs != [] && Built(r0, r, cs[..|cs| - 1]) && ContractsFine(r0.codes.Keys, cs[..|cs| - 1])
    ensures ImportContract(r, cs[|cs| - 1]).Some? <==> ContractsFine(r0.codes.Keys, cs)
    ensures ImportContract(r, cs[|cs| - 1]).Some? ==> Built(r0, ImportContract(r, cs[|cs| - 1]).value, cs)
  {
    var n := |cs| - 1;
    var front, c := cs[..n], cs[n];
    StateAcceptedIff(r.state, c.addr, c.state);
    AddrsMembers(cs, n, c.addr);
    FreshIff(r, cs);
    assert forall i | 0 <= i < n :: front[i] == cs[i];
    FineIff(r0.codes.Keys, cs);
  }

  lemma FreshIff(r: Registry, cs: seq<GenContract>)
    requires cs != [] && r.state.Keys == AllPaths(cs[..|cs| - 1])
    ensures Fresh(r.state, cs[|cs| - 1].addr, cs[|cs| - 1].state) <==> ApartFromAll(cs, |cs| - 1)
  {
    var n := |cs| - 1;
    var front, c := cs[..n], cs[n];
    if Fresh(r.state, c.addr, c.state) {
      forall i, x, y | 0 <= i < n && 0 <= x < |cs[i].state| && 0 <= y < |c.state| ensures PathOf(cs, i, x) != PathOf(cs, n, y) {
        AllPathsMembers(front, PathOf(cs, i, x));
        assert PathOf(front, i, x) == PathOf(cs, i, x);
      }
    } else {
      var y :| 0 <= y < |c.state| && c.addr + c.state[y].0 in r.state;
      var p := PathOf(cs, n, y);
      AllPathsMembers(front, p);
      var i, x :| 0 <= i < |front| && 0 <= x < |front[i].state| && PathOf(front, i, x) == p;
      assert PathOf(cs, i, x) == PathOf(cs, n, y);
      assert !Apart(cs, i, n);
    }
  }

  lemma FineIff(codes: set<U64>, cs: seq<GenContract>)
    requires cs != []
    ensures ContractsFine(codes, cs) <==> var n := |cs| - 1;
      && ContractsFine(codes, cs[..n]) && ContractFine(codes, cs[n]) && DistinctKeys(cs[n].state)
      && (forall i | 0 <= i < n :: cs[i].addr != cs[n].addr) && ApartFromAll(cs, n)
  {
    var n := |cs| - 1;
    var front := cs[..n];
    assert forall i | 0 <= i < n :: front[i] == cs[i];
    assert forall i, j | 0 <= i < j < n :: Apart(front, i, j) <==> Apart(cs, i, j) by {
      forall i, j | 0 <= i < j < n ensures Apart(front, i, j) <==> Apart(cs, i, j) { SameApart(cs, n, i, j); }
    }
  }

  lemma SameApart(cs: seq<GenContract>, n: nat, i: nat, j: nat)
    requires i < n <= |cs| && j < n
    ensures Apart(cs[..n], i, j) <==> Apart(cs, i, j)
  {
    var front := cs[..n];
    assert front[i] == cs[i] && front[j] == cs[j];
    if Apart(front, i, j) {
      forall x, y | 0 <= x < |cs[i].state| && 0 <= y < |cs[j].state| ensures PathOf(cs, i, x) != PathOf(cs, j, y) {
        assert PathOf(front, i, x) != PathOf(front, j, y);
      }
    }
    if Apart(cs, i, j) {
      forall x, y | 0 <= x < |front[i].state| && 0 <= y < |front[j].state| ensures PathOf(front, i, x) != PathOf(front, j, y) {
        assert PathOf(cs, i, x) != PathOf(cs, j, y);
      }
    }
  }

  lemma {:induction false} ContractsAcceptedIff(r0: Registry, cs: seq<GenContract>)
    requires r0.contracts == map[] && r0.state == map[]
    ensures ImportContracts(r0, cs).Some? <==> ContractsFine(r0.codes.Keys, cs)
    ensures ImportContracts(r0, cs).Some? ==>
      Built(r0, ImportContracts(r0, cs).value, cs) && SameSequences(r0, ImportContracts(r0, cs).value)
    decreases |cs|
  {
    if cs != [] {
      var front := cs[..|cs| - 1];
      ContractsAcceptedIff(r0, front);
      FineIff(r0.codes.Keys, cs);
      if ImportContracts(r0, front).Some? { OneMoreAcceptedIff(r0, ImportContracts(r0, front).value, cs); }
    }
  }

  predicate SameSequences(r0: Registry, r: Registry) { r.codeSeq == r0.codeSeq && r.instanceSeq == r0.instanceSeq }

  // ---- sequences ----

  /** Keys that are not empty, hold no record yet and differ from each other. */
  ghost predicate SequencesFine(reg: Registry, ss: seq<GenSequence>) {
    && (forall i | 0 <= i < |ss| :: ss[i].key != [] && Expect(reg, Parse(ss[i].key)).None?)
    && (forall i, j | 0 <= i < j < |ss| :: ss[i].key != ss[j].key)
  }

  ghost predicate Names(ss: seq<GenSequence>, k: Bytes) { exists i :: 0 <= i < |ss| && ss[i].key == k }

  /** A key is taken after some sequences exactly if it held a record or is one of theirs. */
  lemma {:induction false} SequencesAcceptedIff(reg: Registry, ss: seq<GenSequence>)
    requires reg.codeSeq.None? && reg.instanceSeq.None?
    ensures ImportSequences(Loaded(reg, map[]), ss).Some? <==> SequencesFine(reg, ss)
    ensures ImportSequences(Loaded(reg, map[]), ss).Some? ==>
      forall k :: Occupied(ImportSequences(Loaded(reg, map[]), ss).value, k) <==> Expect(reg, Parse(k)).Some? || Names(ss, k)
    decreases |ss|
  {
    if ss != [] {
      var n := |ss| - 1;
      var front := ss[..n];
      SequencesAcceptedIff(reg, front);
      SequencesFineIff(reg, ss);
      if ImportSequences(Loaded(reg, map[]), front).Some? { OneMoreOccupied(reg, ImportSequences(Loaded(reg, map[]), front).value, ss); }
    }
  }

  lemma SequencesFineIff(reg: Registry, ss: seq<GenSequence>)
    requires ss != []
    ensures SequencesFine(reg, ss) <==> var n := |ss| - 1;
      SequencesFine(reg, ss[..n]) && ss[n].key != [] && Expect(reg, Parse(ss[n].key)).None? && !Names(ss[..n], ss[n].key)
  {
    var n := |ss| - 1;
    assert forall i | 0 <= i < n :: ss[..n][i] == ss[i];
  }

  lemma OneMoreOccupied(reg: Registry, l: Loaded, ss: seq<GenSequence>)
    requires ss != [] && forall k :: Occupied(l, k) <==> Expect(reg, Parse(k)).Some? || Names(ss[..|ss| - 1], k)
    ensures ImportSequence(l, ss[|ss| - 1]).Some? ==>
      forall k :: Occupied(ImportSequence(l, ss[|ss| - 1]).value, k) <==> Expect(reg, Parse(k)).Some? || Names(ss, k)
  {
    var n := |ss| - 1;
    var s := ss[n];
    if ImportSequence(l, s).Some? {
      var l' := ImportSequence(l, s).value;
      forall k ensures Occupied(l', k) <==> Expect(reg, Parse(k)).Some? || Names(ss, k) {
        OccupiedAfter(l, s, k);
        assert Names(ss, k) <==> Names(ss[..n], k) || s.key == k by {
          if Names(ss[..n], k) {
            var i :| 0 <= i < n && ss[..n][i].key == k;
            assert ss[i].key == k;
          }
          if Names(ss, k) {
            var i :| 0 <= i < |ss| && ss[i].key == k;
            if i < n { assert ss[..n][i].key == k; }
          }
          if s.key == k { assert ss[n].key == k; }
        }
      }
    }
  }

  lemma ExpectAfter(reg: Registry, next: U64, k: Key)
    ensures Expect(reg.(codeSeq := Some(next)), k).Some? <==> k.CodeSequence? || Expect(reg, k).Some?
    ensures Expect(reg.(instanceSeq := Some(next)), k).Some? <==> k.InstanceSequence? || Expect(reg, k).Some?
  {
  }

  lemma OccupiedAfter(l: Loaded, s: GenSequence, k: Bytes)
    requires ImportSequence(l, s).Some?
    ensures Occupied(ImportSequence(l, s).value, k) <==> Occupied(l, k) || k == s.key
  {
    ExpectAfter(l.reg, s.value, Parse(k));
    OnlyKey(s.key, CodeSequence);
    OnlyKey(s.key, InstanceSequence);
    OnlyKey(k, CodeSequence);
    OnlyKey(k, InstanceSequence);
  }

  /** The value a file gives to a sequence key, else 1. */
  function ValueOf(ss: seq<GenSequence>, k: Bytes): U64
    decreases |ss|
  {
    if ss == [] then 1
    else if ss[|ss| - 1].key == k then ss[|ss| - 1].value
    else ValueOf(ss[..|ss| - 1], k)
  }

  lemma {:induction false} ValuesImported(reg: Registry, ss: seq<GenSequence>)
    requires reg.codeSeq.None? && reg.instanceSeq.None? && ImportSequences(Loaded(reg, map[]), ss).Some?
    ensures var r := ImportSequences(Loaded(reg, map[]), ss).value.reg;
      && r == reg.(codeSeq := r.codeSeq, instanceSeq := r.instanceSeq)
      && NextId(r.codeSeq) == ValueOf(ss, Enc(CodeSequence)) && NextId(r.instanceSeq) == ValueOf(ss, Enc(InstanceSequence))
    decreases |ss|
  {
    if ss != [] {
      ValuesImported(reg, ss[..|ss| - 1]);
      OnlyKey(ss[|ss| - 1].key, CodeSequence);
      OnlyKey(ss[|ss| - 1].key, InstanceSequence);
    }
  }

  lemma {:induction false} AheadIff(cs: seq<GenCode>, next: nat)
    ensures next > MaxCodeId(cs) <==> next > 0 && forall i | 0 <= i < |cs| :: cs[i].id < next
    decreases |cs|
  {
    if cs != [] {
      var n := |cs| - 1;
      AheadIff(cs[..n], next);
      assert forall i | 0 <= i < n :: cs[..n][i] == cs[i];
    }
  }

  // ---- the whole file ----

  ghost predicate Acceptable(vm: Vm, g: GenState) {
    CodesFine(vm, g.codes) && ContractsFine(Ids(g.codes), g.contracts)
  }

  /** The registry of a file with codes and contracts as they should be. */
  function BuiltFrom(vm: Vm, g: GenState): Option<Registry> {
    match ImportCodes(vm, EMPTY.(params := Some(g.params)), g.codes)
    case None => None
    case Some(r1) => ImportContracts(r1, g.contracts)
  }

  /** The code sequence is ahead of all code ids; the address for the value of the instance
      sequence, as instance and as code, is no contract's, and no sequence has its key. */
  ghost predicate SequencesAhead(chain: Chain, g: GenState) {
    var next, instance := ValueOf(g.sequences, Enc(CodeSequence)), ValueOf(g.sequences, Enc(InstanceSequence));
    var probed := chain.hash(ClassicKey(instance, instance));
    && next > 0 && (forall i | 0 <= i < |g.codes| :: g.codes[i].id < next)
    && probed !in Addrs(g.contracts) && !Names(g.sequences, Enc(ContractKey(probed)))
  }

  lemma BuiltIff(vm: Vm, g: GenState)
    ensures BuiltFrom(vm, g).Some? <==> Acceptable(vm, g)
    ensures BuiltFrom(vm, g).Some? ==>
      var r := BuiltFrom(vm, g).value; r.contracts.Keys == Addrs(g.contracts) && r.codeSeq.None? && r.instanceSeq.None?
  {
    var r0 := EMPTY.(params := Some(g.params));
    CodesAcceptedIff(vm, r0, g.codes);
    if ImportCodes(vm, r0, g.codes).Some? { ContractsAcceptedIff(ImportCodes(vm, r0, g.codes).value, g.contracts); }
  }

  lemma CheckedIff(chain: Chain, g: GenState, reg: Registry)
    requires reg.codeSeq.None? && reg.instanceSeq.None? && reg.contracts.Keys == Addrs(g.contracts)
    requires ImportSequences(Loaded(reg, map[]), g.sequences).Some?
    ensures Checked(chain, g, ImportSequences(Loaded(reg, map[]), g.sequences).value) <==> SequencesAhead(chain, g)
  {
    var l := ImportSequences(Loaded(reg, map[]), g.sequences).value;
    SequencesAcceptedIff(reg, g.sequences);
    ValuesImported(reg, g.sequences);
    AheadIff(g.codes, NextId(l.reg.codeSeq));
    ParseEnc(ContractKey(ProbedAddress(chain, l.reg)));
  }

  /** InitGenesis accepts a file if and only if every code has its checksum, ids are distinct,
      contracts have accepted addresses, stored codes and histories, their addresses are
      distinct and so are all state paths, the sequence keys are new and distinct, and the
      sequences are ahead. */
  lemma AcceptedIff(chain: Chain, vm: Vm, g: GenState)
    ensures BuiltFrom(vm, g).Some? <==> Acceptable(vm, g)
    ensures Import(chain, vm, g).Some? <==>
      Acceptable(vm, g) && SequencesFine(BuiltFrom(vm, g).value, g.sequences) && SequencesAhead(chain, g)
  {
    BuiltIff(vm, g);
    if BuiltFrom(vm, g).Some? {
      var reg := BuiltFrom(vm, g).value;
      SequencesAcceptedIff(reg, g.sequences);
      if ImportSequences(Loaded(reg, map[]), g.sequences).Some? { CheckedIff(chain, g, reg); }
    }
  }
}
