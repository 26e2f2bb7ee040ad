/** Genesis export and import of the registry, and when they undo each other. */
module Genesis {
  import opened Bytes
  import opened Keys
  import opened Policy
  import opened Scans
  import opened Addresses
  import opened Registry
  import opened RegistryLaws
  import opened KeeperStore

  type KeyValue = (Bytes, Bytes)

  datatype GenCode = GenCode(id: U64, info: CodeInfo, bytes: Bytes, pinned: bool)
  datatype GenContract = GenContract(addr: Addr, info: ContractInfo, state: seq<KeyValue>, history: seq<HistoryEntry>)
  /** A sequence names the store key it is written to. */
  datatype GenSequence = GenSequence(key: Bytes, value: U64)
  datatype GenState = GenState(params: Params, codes: seq<GenCode>, contracts: seq<GenContract>, sequences: seq<GenSequence>)

  /** The VM's code storage: bytes by checksum, the checksum of bytes, and pinning. */
  datatype Vm = Vm(code: Bytes -> Bytes, checksum: Bytes -> Option<Bytes>, pin: Bytes -> bool)

  /** The VM still has the code of every stored code id. */
  ghost predicate VmHolds(vm: Vm, reg: Registry) {
    forall id | id in reg.codes ::
      vm.checksum(vm.code(reg.codes[id].hash)) == Some(reg.codes[id].hash) && vm.pin(reg.codes[id].hash)
  }

  // ---- export ----

  /** IterateContractState under 0x03 | address: every path that starts with the
      address, in order. Nothing here looks at the length of the address. */
  ghost predicate IsStateExport(state: map<Bytes, Bytes>, a: Addr, kvs: seq<KeyValue>) {
    && (forall i, j | 0 <= i < j < |kvs| :: Less(kvs[i].0, kvs[j].0))
    && (forall p :: p in Paths(a, kvs) <==> p in state && a <= p)
    && (forall i | 0 <= i < |kvs| :: Lookup(state, a + kvs[i].0) == Some(kvs[i].1))
  }

  /** The store paths a contract's exported key-value pairs stand for. */
  ghost function Paths(a: Addr, kvs: seq<KeyValue>): set<Bytes>
    decreases |kvs|
  {
    if kvs == [] then {} else Paths(a, kvs[..|kvs| - 1]) + {a + kvs[|kvs| - 1].0}
  }

  function Ids(cs: seq<GenCode>): set<U64>
    decreases |cs|
  {
    if cs == [] then {} else Ids(cs[..|cs| - 1]) + {cs[|cs| - 1].id}
  }

  function Addrs(cs: seq<GenContract>): set<Addr>
    decreases |cs|
  {
    if cs == [] then {} else Addrs(cs[..|cs| - 1]) + {cs[|cs| - 1].addr}
  }

  ghost predicate IsCodeExport(vm: Vm, reg: Registry, c: GenCode) {
    && c.id in reg.codes && c.info == reg.codes[c.id] && c.bytes == vm.code(c.info.hash)
    && (c.pinned <==> c.id in reg.pinned)
  }

  ghost predicate IsContractExport(reg: Registry, c: GenContract) {
    && c.addr in reg.contracts && c.info == reg.contracts[c.addr] && c.history == HistoryOf(reg, c.addr)
    && IsStateExport(reg.state, c.addr, c.state)
  }

  function BothSequences(codes: U64, instances: U64): seq<GenSequence> {
    [GenSequence(Enc(CodeSequence), codes), GenSequence(Enc(InstanceSequence), instances)]
  }

  /** What ExportGenesis produces; the order of all lists is fixed by the store. */
  ghost predicate IsExport(vm: Vm, reg: Registry, g: GenState) {
    && reg.params == Some(g.params)
    && (forall i | 0 <= i < |g.codes| :: IsCodeExport(vm, reg, g.codes[i]))
    && (forall i, j | 0 <= i < j < |g.codes| :: g.codes[i].id < g.codes[j].id)
    && Ids(g.codes) == reg.codes.Keys
    && (forall i | 0 <= i < |g.contracts| :: IsContractExport(reg, g.contracts[i]))
    && (forall i, j | 0 <= i < j < |g.contracts| :: Less(g.contracts[i].addr, g.contracts[j].addr))
    && Addrs(g.contracts) == reg.contracts.Keys
    && g.sequences == BothSequences(NextId(reg.codeSeq), NextId(reg.instanceSeq))
  }

  // ---- import; None is an error, which aborts the chain start ----

  /** importCode and PinCode */
  function ImportCode(vm: Vm, reg: Registry, c: GenCode): Option<Registry> {
    if vm.checksum(c.bytes) != Some(c.info.hash) || c.id in reg.codes || (c.pinned && !vm.pin(c.info.hash)) then None
    else Some(reg.(codes := reg.codes[c.id := c.info], pinned := if c.pinned then reg.pinned + {c.id} else reg.pinned))
  }

  function ImportCodes(vm: Vm, reg: Registry, cs: seq<GenCode>): Option<Registry>
    decreases |cs|
  {
    if cs == [] then Some(reg)
    else match ImportCodes(vm, reg, cs[..|cs| - 1])
      case None => None
      case Some(r) => ImportCode(vm, r, cs[|cs| - 1])
  }

  /** importContractState */
  function ImportState(state: map<Bytes, Bytes>, a: Addr, kvs: seq<KeyValue>): Option<map<Bytes, Bytes>>
    decreases |kvs|
  {
    if kvs == [] then Some(state)
    else match ImportState(state, a, kvs[..|kvs| - 1])
      case None => None
      case Some(s) =>
        var (k, v) := kvs[|kvs| - 1];
        if a + k in s then None else Some(s[a + k := v])
  }

  /** importContract; neither address may be empty, as bech32 texts are decoded. */
  function ImportContract(reg: Registry, c: GenContract): Option<Registry> {
    if !Accepted(c.addr) || c.info.code !in reg.codes || c.addr in reg.contracts || c.history == [] || !Accepted(c.info.creator) then None
    else match ImportState(reg.state, c.addr, c.state)
      case None => None
      case Some(state) =>
        Some(reg.(
          history := reg.history[c.addr := HistoryOf(reg, c.addr) + c.history],
          contracts := reg.contracts[c.addr := c.info],
          state := state))
  }

  function ImportContracts(reg: Registry, cs: seq<GenContract>): Option<Registry>
    decreases |cs|
  {
    if cs == [] then Some(reg)
    else match ImportContracts(reg, cs[..|cs| - 1])
      case None => None
      case Some(r) => ImportContract(r, cs[|cs| - 1])
  }

  /** What an import leaves in the store: a registry, and stray values under keys that hold
      nothing of it, because a sequence in the genesis may name any key. */
  datatype Loaded = Loaded(reg: Registry, stray: map<Bytes, U64>)

  predicate Occupied(l: Loaded, k: Bytes) {
    k in l.stray || Expect(l.reg, Parse(k)).Some?
  }

  /** importAutoIncrementID; the store refuses the empty key by a panic. */
  function ImportSequence(l: Loaded, s: GenSequence): Option<Loaded> {
    if s.key == [] || Occupied(l, s.key) then None
    else match Parse(s.key)
      case CodeSequence => Some(l.(reg := l.reg.(codeSeq := Some(s.value))))
      case InstanceSequence => Some(l.(reg := l.reg.(instanceSeq := Some(s.value))))
      case _ => Some(l.(stray := l.stray[s.key := s.value]))
  }

  function ImportSequences(l: Loaded, ss: seq<GenSequence>): Option<Loaded>
    decreases |ss|
  {
    if ss == [] then Some(l)
    else match ImportSequences(l, ss[..|ss| - 1])
      case None => None
      case Some(r) => ImportSequence(r, ss[|ss| - 1])
  }

  function MaxCodeId(cs: seq<GenCode>): nat
    decreases |cs|
  {
    if cs == [] then 0
    else
      var m, id := MaxCodeId(cs[..|cs| - 1]), cs[|cs| - 1].id;
      if id > m then id else m
  }

  /** The address InitGenesis probes: it passes the instance sequence value as the code
      id as well, so this is one address, not the next one for every code. */
  function ProbedAddress(chain: Chain, reg: Registry): Addr {
    AddressOf(chain.hash, Classic(NextId(reg.instanceSeq), NextId(reg.instanceSeq)))
  }

  /** The two checks after everything is loaded: the code sequence is ahead of all ids, and
      nothing is stored under the key of the probed address. */
  predicate Checked(chain: Chain, g: GenState, l: Loaded) {
    NextId(l.reg.codeSeq) > MaxCodeId(g.codes) && !Occupied(l, Enc(ContractKey(ProbedAddress(chain, l.reg))))
  }

  /** InitGenesis into an empty store. */
  function Import(chain: Chain, vm: Vm, g: GenState): Option<Loaded> {
    match ImportCodes(vm, EMPTY.(params := Some(g.params)), g.codes)
    case None => None
    case Some(r1) =>
      match ImportContracts(r1, g.contracts)
      case None => None
      case Some(r2) =>
        match ImportSequences(Loaded(r2, map[]), g.sequences)
        case None => None
        case Some(l) => if Checked(chain, g, l) then Some(l) else None
  }

  // ---- the round trip ----

  /** Sequences that were never used are written explicitly by the import. */
  function Normal(reg: Registry): Registry {
    reg.(codeSeq := Some(NextId(reg.codeSeq)), instanceSeq := Some(NextId(reg.instanceSeq)))
  }

  /** One registered address is a proper prefix of another that has state. */
  ghost predicate Shares(reg: Registry, a: Addr, b: Addr, p: Bytes) {
    a in reg.contracts && b in reg.contracts && a != b && a <= b && p in reg.state && b <= p
  }

  ghost predicate NoSharedState(reg: Registry) {
    forall a, b, p :: !Shares(reg, a, b, p)
  }

  function Restrict<K, V>(m: map<K, V>, ks: set<K>): map<K, V> {
    map k | k in m && k in ks :: m[k]
  }

  lemma RestrictMore<K, V>(m: map<K, V>, ks: set<K>, k: K)
    requires k in m
    ensures Restrict(m, ks + {k}) == Restrict(m, ks)[k := m[k]]
  {
  }

  lemma RestrictAll<K, V>(m: map<K, V>, ks: set<K>)
    requires m.Keys <= ks
    ensures Restrict(m, ks) == m
  {
  }

  // codes

  lemma {:induction false} IdsMembers(cs: seq<GenCode>, i: nat, id: U64)
    requires i <= |cs|
    ensures id in Ids(cs[..i]) <==> exists j :: 0 <= j < i && cs[j].id == id
    decreases i
  {
    if i > 0 {
      IdsMembers(cs, i - 1, id);
      assert cs[..i][..i - 1] == cs[..i - 1];
    }
  }

  function WithCodes(reg: Registry, r0: Registry, ids: set<U64>): Registry {
    r0.(codes := Restrict(reg.codes, ids), pinned := reg.pinned * ids)
  }

  lemma CodeImported(vm: Vm, reg: Registry, r0: Registry, ids: set<U64>, c: GenCode)
    requires IsCodeExport(vm, reg, c) && VmHolds(vm, reg) && c.id !in ids
    ensures ImportCode(vm, WithCodes(reg, r0, ids), c) == Some(WithCodes(reg, r0, ids + {c.id}))
  {
    RestrictMore(reg.codes, ids, c.id);
    assert reg.pinned * (ids + {c.id}) == if c.pinned then reg.pinned * ids + {c.id} else reg.pinned * ids;
  }

  lemma {:induction false} CodesImported(vm: Vm, reg: Registry, cs: seq<GenCode>, r0: Registry, i: nat)
    requires (forall j | 0 <= j < |cs| :: IsCodeExport(vm, reg, cs[j])) && VmHolds(vm, reg) && i <= |cs|
    requires forall j, k | 0 <= j < k < |cs| :: cs[j].id < cs[k].id
    requires r0.codes == map[] && r0.pinned == {}
    ensures ImportCodes(vm, r0, cs[..i]) == Some(WithCodes(reg, r0, Ids(cs[..i])))
    decreases i
  {
    if i > 0 {
      CodesImported(vm, reg, cs, r0, i - 1);
      var front, c := cs[..i - 1], cs[i - 1];
      assert cs[..i][..i - 1] == front;
      assert IsCodeExport(vm, reg, c);
      IdsMembers(cs, i - 1, c.id);
      CodeImported(vm, reg, r0, Ids(front), c);
    } else {
      assert WithCodes(reg, r0, {}) == r0;
    }
  }

  lemma AllCodesImported(vm: Vm, reg: Registry, g: GenState)
    requires IsExport(vm, reg, g) && VmHolds(vm, reg) && reg.pinned <= reg.codes.Keys
    ensures ImportCodes(vm, EMPTY.(params := Some(g.params)), g.codes)
      == Some(EMPTY.(params := Some(g.params), codes := reg.codes, pinned := reg.pinned))
  {
    CodesImported(vm, reg, g.codes, EMPTY.(params := Some(g.params)), |g.codes|);
    assert g.codes[..|g.codes|] == g.codes;
    RestrictAll(reg.codes, Ids(g.codes));
    assert reg.pinned * Ids(g.codes) == reg.pinned;
  }

  lemma {:induction false} MaxCodeIdIsExported(cs: seq<GenCode>, bound: nat)
    requires 0 < bound && forall i | 0 <= i < |cs| :: cs[i].id < bound
    ensures MaxCodeId(cs) < bound
    decreases |cs|
  {
    if cs != [] { MaxCodeIdIsExported(cs[..|cs| - 1], bound); }
  }

  // contract state

  lemma {:induction false} PathsMembers(a: Addr, kvs: seq<KeyValue>, i: nat, p: Bytes)
    requires i <= |kvs|
    ensures p in Paths(a, kvs[..i]) <==> exists j :: 0 <= j < i && a + kvs[j].0 == p
    decreases i
  {
    if i > 0 {
      PathsMembers(a, kvs, i - 1, p);
      assert kvs[..i][..i - 1] == kvs[..i - 1];
    }
  }

  lemma AppendSame(a: Bytes, x: Bytes, y: Bytes)
    ensures a + x == a + y ==> x == y
  {
    assert (a + x)[|a|..] == x && (a + y)[|a|..] == y;
  }

  lemma {:induction false} StateImported(full: map<Bytes, Bytes>, s: map<Bytes, Bytes>, a: Addr, kvs: seq<KeyValue>, i: nat)
    requires IsStateExport(full, a, kvs) && i <= |kvs|
    requires forall p | p in full && a <= p :: p !in s
    ensures ImportState(s, a, kvs[..i]) == Some(s + Restrict(full, Paths(a, kvs[..i])))
    decreases i
  {
    if i == 0 {
      assert s + Restrict(full, {}) == s;
    } else {
      StateImported(full, s, a, kvs, i - 1);
      var ks, front, p := kvs[..i], kvs[..i - 1], a + kvs[i - 1].0;
      assert ks[..|ks| - 1] == front && ks[|ks| - 1] == kvs[i - 1];
      NewPath(a, kvs, i - 1);
      assert Lookup(full, p) == Some(kvs[i - 1].1);
      RestrictMore(full, Paths(a, front), p);
      PlusUpdate(s, Restrict(full, Paths(a, front)), p, full[p]);
    }
  }

  lemma NewPath(a: Addr, kvs: seq<KeyValue>, i: nat)
    requires i < |kvs| && forall j, k | 0 <= j < k < |kvs| :: Less(kvs[j].0, kvs[k].0)
    ensures a + kvs[i].0 !in Paths(a, kvs[..i])
  {
    PathsMembers(a, kvs, i, a + kvs[i].0);
    forall j | 0 <= j < i ensures a + kvs[j].0 != a + kvs[i].0 {
      LessTotal(kvs[j].0, kvs[i].0);
      AppendSame(a, kvs[j].0, kvs[i].0);
    }
  }

  lemma PlusUpdate(s: map<Bytes, Bytes>, r: map<Bytes, Bytes>, p: Bytes, v: Bytes)
    ensures (s + r)[p := v] == s + r[p := v]
  {
  }

  function StateOf(full: map<Bytes, Bytes>, a: Addr): map<Bytes, Bytes> {
    map p | p in full && a <= p :: full[p]
  }

  lemma AllStateImported(full: map<Bytes, Bytes>, s: map<Bytes, Bytes>, a: Addr, kvs: seq<KeyValue>)
    requires IsStateExport(full, a, kvs) && forall p | p in full && a <= p :: p !in s
    ensures ImportState(s, a, kvs) == Some(s + StateOf(full, a))
  {
    StateImported(full, s, a, kvs, |kvs|);
    assert kvs[..|kvs|] == kvs;
    assert Restrict(full, Paths(a, kvs)) == StateOf(full, a);
  }

  /** A successful import has put every listed path and found none of them before. */
  lemma {:induction false} ImportStateAdds(s: map<Bytes, Bytes>, a: Addr, kvs: seq<KeyValue>)
    requires ImportState(s, a, kvs).Some?
    ensures var r := ImportState(s, a, kvs).value;
      s.Keys <= r.Keys && forall i | 0 <= i < |kvs| :: a + kvs[i].0 in r && a + kvs[i].0 !in s
    decreases |kvs|
  {
    if kvs != [] {
      var front := kvs[..|kvs| - 1];
      ImportStateAdds(s, a, front);
      forall i | 0 <= i < |kvs| ensures a + kvs[i].0 in ImportState(s, a, kvs).value && a + kvs[i].0 !in s {
        if i < |kvs| - 1 { assert kvs[i] == front[i]; }
      }
    }
  }

  // contracts

  lemma {:induction false} AddrsMembers(cs: seq<GenContract>, i: nat, a: Addr)
    requires i <= |cs|
    ensures a in Addrs(cs[..i]) <==> exists j :: 0 <= j < i && cs[j].addr == a
    decreases i
  {
    if i > 0 {
      AddrsMembers(cs, i - 1, a);
      assert cs[..i][..i - 1] == cs[..i - 1];
    }
  }

  ghost predicate Covered(addrs: set<Addr>, p: Bytes) {
    exists a :: a in addrs && a <= p
  }

  ghost function Cover(state: map<Bytes, Bytes>, addrs: set<Addr>): map<Bytes, Bytes> {
    map p | p in state && Covered(addrs, p) :: state[p]
  }

  lemma CoverMore(state: map<Bytes, Bytes>, addrs: set<Addr>, a: Addr)
    ensures Cover(state, addrs + {a}) == Cover(state, addrs) + StateOf(state, a)
  {
  }

  lemma CoveredShares(reg: Registry, addrs: set<Addr>, a: Addr, p: Bytes)
    requires addrs <= reg.contracts.Keys && a in reg.contracts && a !in addrs && p in reg.state && a <= p && Covered(addrs, p)
    ensures exists x, y :: Shares(reg, x, y, p)
  {
    var b :| b in addrs && b <= p;
    assert b == p[..|b|] && a == p[..|a|];
    if |b| <= |a| {
      assert Shares(reg, b, a, p);
    } else {
      assert Shares(reg, a, b, p);
    }
  }

  /** Paths of a new contract are not yet there unless two addresses share them. */
  lemma Unshared(reg: Registry, addrs: set<Addr>, a: Addr, p: Bytes)
    requires NoSharedState(reg) && addrs <= reg.contracts.Keys && a in reg.contracts && a !in addrs && p in reg.state && a <= p
    ensures p !in Cover(reg.state, addrs)
  {
    if Covered(addrs, p) { CoveredShares(reg, addrs, a, p); }
  }

  ghost function Imported(reg: Registry, r0: Registry, addrs: set<Addr>): Registry {
    r0.(contracts := Restrict(reg.contracts, addrs), history := Restrict(reg.history, addrs), state := Cover(reg.state, addrs))
  }

  lemma ContractImported(chain: Chain, reg: Registry, n: nat, r0: Registry, addrs: set<Addr>, c: GenContract)
    requires Inv(chain, reg, n) && NoSharedState(reg) && IsContractExport(reg, c) && r0.codes == reg.codes
    requires addrs <= reg.contracts.Keys && c.addr !in addrs
    ensures ImportContract(Imported(reg, r0, addrs), c) == Some(Imported(reg, r0, addrs + {c.addr}))
  {
    var a, r := c.addr, Imported(reg, r0, addrs);
    assert Consistent(chain, reg, a);
    forall p | p in reg.state && a <= p ensures p !in r.state { Unshared(reg, addrs, a, p); }
    AllStateImported(reg.state, r.state, a, c.state);
    CoverMore(reg.state, addrs, a);
    RestrictMore(reg.contracts, addrs, a);
    RestrictMore(reg.history, addrs, a);
    assert HistoryOf(r, a) + c.history == c.history;
  }

  lemma {:induction false} ContractsImported(chain: Chain, reg: Registry, n: nat, r0: Registry, cs: seq<GenContract>, i: nat)
    requires Inv(chain, reg, n) && NoSharedState(reg) && r0.codes == reg.codes && i <= |cs|
    requires r0.contracts == map[] && r0.history == map[] && r0.state == map[]
    requires (forall j | 0 <= j < |cs| :: IsContractExport(reg, cs[j])) && forall j, k | 0 <= j < k < |cs| :: Less(cs[j].addr, cs[k].addr)
    ensures ImportContracts(r0, cs[..i]) == Some(Imported(reg, r0, Addrs(cs[..i])))
    decreases i
  {
    if i == 0 {
      assert Imported(reg, r0, {}) == r0;
    } else {
      ContractsImported(chain, reg, n, r0, cs, i - 1);
      var front, c := cs[..i - 1], cs[i - 1];
      assert cs[..i][..i - 1] == front;
      assert c.addr !in Addrs(front) by {
        AddrsMembers(cs, i - 1, c.addr);
        LessTotal(c.addr, c.addr);
      }
      assert Addrs(front) <= reg.contracts.Keys by {
        forall a | a in Addrs(front) ensures a in reg.contracts {
          AddrsMembers(cs, i - 1, a);
          var j :| 0 <= j < i - 1 && cs[j].addr == a;
          assert IsContractExport(reg, cs[j]);
        }
      }
      ContractImported(chain, reg, n, r0, Addrs(front), c);
    }
  }

  lemma AllContractsImported(chain: Chain, vm: Vm, reg: Registry, n: nat, g: GenState, r0: Registry)
    requires Inv(chain, reg, n) && NoSharedState(reg) && IsExport(vm, reg, g) && r0.codes == reg.codes
    requires r0.contracts == map[] && r0.history == map[] && r0.state == map[]
    ensures ImportContracts(r0, g.contracts) == Some(r0.(contracts := reg.contracts, history := reg.history, state := reg.state))
  {
    ContractsImported(chain, reg, n, r0, g.contracts, |g.contracts|);
    assert g.contracts[..|g.contracts|] == g.contracts;
    var addrs := Addrs(g.contracts);
    RestrictAll(reg.contracts, addrs);
    RestrictAll(reg.history, addrs);
    CoverAll(reg, addrs);
  }

  lemma CoverAll(reg: Registry, addrs: set<Addr>)
    requires AllOwned(reg) && addrs == reg.contracts.Keys
    ensures Cover(reg.state, addrs) == reg.state
  {
  }

  lemma SequencesImported(r: Registry, x: U64, y: U64)
    requires r.codeSeq.None? && r.instanceSeq.None?
    ensures ImportSequences(Loaded(r, map[]), BothSequences(x, y)) == Some(Loaded(r.(codeSeq := Some(x), instanceSeq := Some(y)), map[]))
  {
    ParseEnc(CodeSequence);
    ParseEnc(InstanceSequence);
    var both := BothSequences(x, y);
    assert both[..1][..0] == [] && both[..2] == both;
    assert ImportSequences(Loaded(r, map[]), both[..1]) == Some(Loaded(r.(codeSeq := Some(x)), map[]));
  }

  /** Without stray values the second check looks at the contracts alone. */
  lemma CheckedPlainly(chain: Chain, g: GenState, reg: Registry)
    ensures Checked(chain, g, Loaded(reg, map[])) <==> NextId(reg.codeSeq) > MaxCodeId(g.codes) && ProbedAddress(chain, reg) !in reg.contracts
  {
    ParseEnc(ContractKey(ProbedAddress(chain, reg)));
  }

  /** What importing an export comes to when no two registered addresses share state: all
      is rebuilt, and only the check of the instance sequence can still fail. */
  lemma ImportUndoesExport(chain: Chain, vm: Vm, reg: Registry, n: nat, g: GenState)
    requires Inv(chain, reg, n) && VmHolds(vm, reg) && IsExport(vm, reg, g) && NoSharedState(reg)
    ensures Import(chain, vm, g) == if ProbedAddress(chain, reg) in reg.contracts then None else Some(Loaded(Normal(reg), map[]))
  {
    var r0 := EMPTY.(params := Some(g.params));
    AllCodesImported(vm, reg, g);
    var r1 := r0.(codes := reg.codes, pinned := reg.pinned);
    AllContractsImported(chain, vm, reg, n, g, r1);
    SequencesImported(r1.(contracts := reg.contracts, history := reg.history, state := reg.state), NextId(reg.codeSeq), NextId(reg.instanceSeq));
    MaxCodeIdIsExported(g.codes, NextId(reg.codeSeq));
    CheckedPlainly(chain, g, Normal(reg));
  }

  /** A path imported for one contract stays, and blocks any later contract that exports it. */
  lemma {:induction false} ImportedPathsStay(r0: Registry, cs: seq<GenContract>, i: nat, j: nat, k: nat)
    requires j < i <= |cs| && ImportContracts(r0, cs[..i]).Some? && k < |cs[j].state|
    ensures cs[j].addr + cs[j].state[k].0 in ImportContracts(r0, cs[..i]).value.state
    decreases i
  {
    assert cs[..i][..i - 1] == cs[..i - 1];
    var r, c := ImportContracts(r0, cs[..i - 1]).value, cs[i - 1];
    ImportStateAdds(r.state, c.addr, c.state);
    if j < i - 1 { ImportedPathsStay(r0, cs, i - 1, j, k); }
  }

  lemma {:induction false} FailureStays(r0: Registry, cs: seq<GenContract>, i: nat)
    requires i <= |cs| && ImportContracts(r0, cs[..i]).None?
    ensures ImportContracts(r0, cs).None?
    decreases |cs|
  {
    if i < |cs| {
      assert cs[..|cs| - 1][..i] == cs[..i];
      FailureStays(r0, cs[..|cs| - 1], i);
    } else {
      assert cs[..i] == cs;
    }
  }

  lemma TakenPathFails(r0: Registry, cs: seq<GenContract>, i: nat, j: nat, x: nat, y: nat)
    requires i < j < |cs| && x < |cs[i].state| && y < |cs[j].state|
    requires cs[i].addr + cs[i].state[x].0 == cs[j].addr + cs[j].state[y].0
    ensures ImportContracts(r0, cs[..j + 1]).None?
  {
    assert cs[..j + 1][..j] == cs[..j];
    var before := ImportContracts(r0, cs[..j]);
    if before.Some? {
      ImportedPathsStay(r0, cs, j, i, x);
      if ImportState(before.value.state, cs[j].addr, cs[j].state).Some? {
        ImportStateAdds(before.value.state, cs[j].addr, cs[j].state);
      }
    }
  }

  /** Shared state makes the import fail: the longer address finds its own path taken. */
  lemma SharedStateBlocksImport(vm: Vm, reg: Registry, g: GenState, r0: Registry, a: Addr, b: Addr, p: Bytes)
    requires IsExport(vm, reg, g) && Shares(reg, a, b, p)
    ensures ImportContracts(r0, g.contracts).None?
  {
    var cs := g.contracts;
    var i, j := Positions(cs, a, b);
    assert IsContractExport(reg, cs[i]) && IsContractExport(reg, cs[j]);
    BothExport(reg, r0, cs, i, j, p);
  }

  /** A prefix of an address is exported before it. */
  lemma Positions(cs: seq<GenContract>, a: Addr, b: Addr) returns (i: nat, j: nat)
    requires a in Addrs(cs) && b in Addrs(cs) && a <= b && a != b
    requires forall k, l | 0 <= k < l < |cs| :: Less(cs[k].addr, cs[l].addr)
    ensures i < j < |cs| && cs[i].addr == a && cs[j].addr == b
  {
    i := IndexOf(cs, a);
    j := IndexOf(cs, b);
    PrefixLess(a, b);
    LessTotal(a, b);
  }

  lemma BothExport(reg: Registry, r0: Registry, cs: seq<GenContract>, i: nat, j: nat, p: Bytes)
    requires i < j < |cs| && IsContractExport(reg, cs[i]) && IsContractExport(reg, cs[j])
    requires p in reg.state && cs[i].addr <= p && cs[j].addr <= p
    ensures ImportContracts(r0, cs).None?
  {
    var x := ExportedAt(reg, cs[i], p);
    var y := ExportedAt(reg, cs[j], p);
    TakenPathFails(r0, cs, i, j, x, y);
    FailureStays(r0, cs, j + 1);
  }

  lemma IndexOf(cs: seq<GenContract>, a: Addr) returns (i: nat)
    requires a in Addrs(cs)
    ensures i < |cs| && cs[i].addr == a
  {
    assert cs[..|cs|] == cs;
    AddrsMembers(cs, |cs|, a);
    i :| 0 <= i < |cs| && cs[i].addr == a;
  }

  lemma ExportedAt(reg: Registry, c: GenContract, p: Bytes) returns (x: nat)
    requires IsContractExport(reg, c) && p in reg.state && c.addr <= p
    ensures x < |c.state| && c.addr + c.state[x].0 == p
  {
    assert c.state[..|c.state|] == c.state;
    PathsMembers(c.addr, c.state, |c.state|, p);
    x :| 0 <= x < |c.state| && c.addr + c.state[x].0 == p;
  }

  lemma {:induction false} PrefixLess(a: Bytes, b: Bytes)
    requires a <= b && a != b
    ensures Less(a, b)
  {
    if a != [] {
      assert a == b[..|a|];
      assert a[1..] == b[1..][..|a| - 1];
      PrefixLess(a[1..], b[1..]);
    }
  }

  /** Export and import undo each other if and only if no registered address is a proper
      prefix of another one that has state, and the probed address is not registered;
      otherwise the import fails. */
  lemma RoundTripIff(chain: Chain, vm: Vm, reg: Registry, n: nat, g: GenState)
    requires Inv(chain, reg, n) && VmHolds(vm, reg) && IsExport(vm, reg, g)
    ensures Import(chain, vm, g) ==
      if NoSharedState(reg) && ProbedAddress(chain, reg) !in reg.contracts then Some(Loaded(Normal(reg), map[])) else None
  {
    if NoSharedState(reg) {
      ImportUndoesExport(chain, vm, reg, n, g);
    } else {
      var a, b, p :| Shares(reg, a, b, p);
      AllCodesImported(vm, reg, g);
      SharedStateBlocksImport(vm, reg, g, EMPTY.(params := Some(g.params), codes := reg.codes, pinned := reg.pinned), a, b, p);
    }
  }

  // ---- a genesis that can be imported, but not again from its own export ----

  /** Addresses of the two lengths a chain accepts, 20 and 32 bytes. */
  const SHORT: Addr := [7, 7, 7, 7, 7, 7, 7, 7, 7, 7, 7, 7, 7, 7, 7, 7, 7, 7, 7, 7]
  const LONG: Addr := SHORT + [8, 8, 8, 8, 8, 8, 8, 8, 8, 8, 8, 8]

  const EMPTY_JSON: Bytes := [123, 125]

  function NestedContract(a: Addr, state: seq<KeyValue>): GenContract {
    GenContract(a, ContractInfo(1, SHORT, None, "nested", Pos(0, 0), None), state, [HistoryEntry(FromGenesis, 1, Pos(0, 0), EMPTY_JSON)])
  }

  /** Two contracts of one code; the address of one begins like the other's, which has state. */
  function NestedGenesis(info: CodeInfo, bytes: Bytes, params: Params): GenState {
    GenState(params, [GenCode(1, info, bytes, false)],
      [NestedContract(SHORT, []), NestedContract(LONG, [([9], [1])])], BothSequences(2, 1))
  }

  function Nested(info: CodeInfo, params: Params): Registry {
    var c := NestedContract(SHORT, []);
    EMPTY.(params := Some(params), codes := map[1 := info],
      contracts := map[SHORT := c.info, LONG := c.info], history := map[SHORT := c.history, LONG := c.history],
      state := map[LONG + [9] := [1]], codeSeq := Some(2), instanceSeq := Some(1))
  }

  /** Importing a contract that has no history yet. */
  lemma ImportFresh(r: Registry, c: GenContract)
    requires c.info.code in r.codes && c.addr !in r.contracts && c.addr !in r.history && c.history != []
    requires Accepted(c.addr) && Accepted(c.info.creator)
    ensures ImportContract(r, c) ==
      match ImportState(r.state, c.addr, c.state)
      case None => None
      case Some(state) =>
        Some(r.(history := r.history[c.addr := c.history], contracts := r.contracts[c.addr := c.info], state := state))
  {
    assert HistoryOf(r, c.addr) + c.history == c.history;
  }

  lemma ImportTwo(r: Registry, c: GenContract, d: GenContract)
    ensures ImportContracts(r, [c, d]) ==
      match ImportContract(r, c) case None => None case Some(r1) => ImportContract(r1, d)
  {
    var one: seq<GenContract>, two: seq<GenContract> := [c], [c, d];
    assert one[..0] == [] && two[..1] == one;
    assert ImportContracts(r, one) == ImportContract(r, c);
  }

  lemma OneState(s: map<Bytes, Bytes>, a: Addr, kv: KeyValue)
    ensures ImportState(s, a, [kv]) == if a + kv.0 in s then None else Some(s[a + kv.0 := kv.1])
  {
    var one: seq<KeyValue> := [kv];
    assert one[..0] == [];
  }

  lemma NestedContractsImported(r: Registry, info: CodeInfo)
    requires r == EMPTY.(params := r.params, codes := map[1 := info])
    ensures ImportContracts(r, [NestedContract(SHORT, []), NestedContract(LONG, [([9], [1])])])
      == Some(r.(contracts := Nested(info, Params(info.access, Nobody)).contracts,
                 history := Nested(info, Params(info.access, Nobody)).history, state := map[LONG + [9] := [1]]))
  {
    var c, d := NestedContract(SHORT, []), NestedContract(LONG, [([9], [1])]);
    assert |SHORT| != |LONG|;
    ImportTwo(r, c, d);
    ImportFresh(r, c);
    var r1 := r.(contracts := map[SHORT := c.info], history := map[SHORT := c.history]);
    ImportFresh(r1, d);
    OneState(r1.state, LONG, ([9], [1]));
  }

  /** The code accepts this genesis. */
  lemma NestedArises(chain: Chain, vm: Vm, info: CodeInfo, bytes: Bytes, params: Params)
    requires vm.checksum(bytes) == Some(info.hash) && chain.hash(ClassicKey(1, 1)) !in {SHORT, LONG}
    ensures Import(chain, vm, NestedGenesis(info, bytes, params)) == Some(Loaded(Nested(info, params), map[]))
  {
    var g, r0 := NestedGenesis(info, bytes, params), EMPTY.(params := Some(params));
    OneImport(vm, r0, g.codes[0], g.contracts[0]);
    var r1 := r0.(codes := map[1 := info]);
    assert ImportCode(vm, r0, g.codes[0]) == Some(r1);
    NestedContractsImported(r1, info);
    SequencesImported(ImportContracts(r1, g.contracts).value, 2, 1);
    CheckedPlainly(chain, g, Nested(info, params));
  }

  /** And then cannot import what it exports itself. */
  lemma NestedAddressesBreakTheRoundTrip(chain: Chain, vm: Vm, info: CodeInfo, params: Params, g: GenState)
    requires chain.report(info.hash) == Some(Report(false, None)) && VmHolds(vm, Nested(info, params)) && IsExport(vm, Nested(info, params), g)
    ensures Inv(chain, Nested(info, params), 1) && Import(chain, vm, g).None?
  {
    NestedConsistent(chain, info, params);
    NestedCounted(info, params);
    NestedShares(info, params);
    RoundTripIff(chain, vm, Nested(info, params), 1, g);
  }

  lemma NestedCounted(info: CodeInfo, params: Params)
    ensures Counted(Nested(info, params), 1)
  {
  }

  lemma NestedShares(info: CodeInfo, params: Params)
    ensures AllOwned(Nested(info, params)) && !NoSharedState(Nested(info, params))
  {
    var reg, p := Nested(info, params), LONG + [9];
    assert SHORT <= LONG && LONG <= p && LONG in reg.contracts && |SHORT| != |LONG|;
    assert Owned(reg.contracts, p);
    assert Shares(reg, SHORT, LONG, p);
  }

  lemma NestedConsistent(chain: Chain, info: CodeInfo, params: Params)
    requires chain.report(info.hash) == Some(Report(false, None))
    ensures AllConsistent(chain, Nested(info, params))
  {
  }

  /** Every registry a run from the empty one can reach is exported and imported without loss,
      whatever code and contracts it holds: addresses are of one length there, and the probed
      one is fresh unless the hash collides. */
  lemma ReachableRoundTrip(chain: Chain, vm: Vm, ops: seq<Op>, g: GenState)
    requires |ops| + 2 < TWO_64 && Unprobed(chain, ops)
    requires VmHolds(vm, Run(chain, EMPTY, ops)) && IsExport(vm, Run(chain, EMPTY, ops), g)
    ensures Import(chain, vm, g) == Some(Loaded(Normal(Run(chain, EMPTY, ops)), map[]))
  {
    var reg, keys := Run(chain, EMPTY, ops), Hashed(chain, EMPTY, ops);
    ReachableInv(chain, ops);
    RunDerived(chain, EMPTY, ops, 0);
    ClassicNeverFailsOnAddress(chain, ops, NextId(reg.instanceSeq));
    forall a, b, p ensures !Shares(reg, a, b, p) {
      if Shares(reg, a, b, p) { NoAddressPrefixes(chain, reg, keys, a, b); }
    }
    ImportUndoesExport(chain, vm, reg, |ops|, g);
  }

  /** No two of the keys the run hashed, and the key of the probed address, collide. */
  ghost predicate Unprobed(chain: Chain, ops: seq<Op>) {
    var next := NextId(Run(chain, EMPTY, ops).instanceSeq);
    CollisionFree(chain.hash, Hashed(chain, EMPTY, ops) + {ClassicKey(next, next)})
  }

  // ---- what the instance sequence check is worth ----

  /** One contract of code c, at the address that is next for that code. */
  function Taken(chain: Chain, c: U64, s: U64, info: CodeInfo, bytes: Bytes, params: Params): GenState
    requires c + 1 < TWO_64
  {
    var at := Pos(0, 0);
    GenState(params, [GenCode(c, info, bytes, false)],
      [GenContract(AddressOf(chain.hash, Classic(c, s)), ContractInfo(c, SHORT, None, "taken", at, None), [], [HistoryEntry(FromGenesis, c, at, EMPTY_JSON)])],
      BothSequences(c + 1, s))
  }

  lemma OneImport(vm: Vm, r: Registry, code: GenCode, c: GenContract)
    ensures ImportCodes(vm, r, [code]) == ImportCode(vm, r, code) && MaxCodeId([code]) == code.id
    ensures ImportContracts(r, [c]) == ImportContract(r, c)
  {
  }

  lemma TakenImports(chain: Chain, vm: Vm, c: U64, s: U64, info: CodeInfo, bytes: Bytes, params: Params)
    requires chain.hash(ClassicKey(c, s)) != chain.hash(ClassicKey(s, s)) && vm.checksum(bytes) == Some(info.hash) && c + 1 < TWO_64
    ensures var r := Import(chain, vm, Taken(chain, c, s, info, bytes, params));
      r.Some? && r.value.reg.instanceSeq == Some(s) && AddressOf(chain.hash, Classic(c, s)) in r.value.reg.contracts
  {
    var g := Taken(chain, c, s, info, bytes, params);
    var r0 := EMPTY.(params := Some(params));
    OneImport(vm, r0, g.codes[0], g.contracts[0]);
    var r1 := r0.(codes := map[c := info]);
    assert ImportCode(vm, r0, g.codes[0]) == Some(r1);
    OneImport(vm, r1, g.codes[0], g.contracts[0]);
    var r2 := ImportContract(r1, g.contracts[0]).value;
    SequencesImported(r2, c + 1, s);
    CheckedPlainly(chain, g, r2.(codeSeq := Some(c + 1), instanceSeq := Some(s)));
  }

  /** The check that the instance sequence is unused covers the next address of code c only
      if c equals the sequence value, or the hash of its key collides with the probed one. */
  lemma ProbeCoversOneCode(chain: Chain, vm: Vm, c: U64, s: U64, info: CodeInfo, bytes: Bytes, params: Params)
    requires vm.checksum(bytes) == Some(info.hash) && c + 1 < TWO_64
    ensures chain.hash(ClassicKey(c, s)) == chain.hash(ClassicKey(s, s)) <==>
      forall g | Import(chain, vm, g).Some? && NextId(Import(chain, vm, g).value.reg.instanceSeq) == s ::
        AddressOf(chain.hash, Classic(c, s)) !in Import(chain, vm, g).value.reg.contracts
  {
    forall g | Import(chain, vm, g).Some? && NextId(Import(chain, vm, g).value.reg.instanceSeq) == s
      ensures AddressOf(chain.hash, Classic(s, s)) !in Import(chain, vm, g).value.reg.contracts
    {
      ParseEnc(ContractKey(AddressOf(chain.hash, Classic(s, s))));
    }
    if chain.hash(ClassicKey(c, s)) != chain.hash(ClassicKey(s, s)) {
      TakenImports(chain, vm, c, s, info, bytes, params);
      var g := Taken(chain, c, s, info, bytes, params);
      assert Import(chain, vm, g).Some?;
    }
  }
}
