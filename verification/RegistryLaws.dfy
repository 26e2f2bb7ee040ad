/** What holds of every registry that any run of operations can reach. */
module RegistryLaws {
  import opened Bytes
  import opened Policy
  import opened Addresses
  import opened Registry

  lemma DerivedMonotone(chain: Chain, keys: set<Bytes>, more: set<Bytes>, a: Addr, m: U64, n: U64)
    requires Derived(chain, keys, a, m) && keys <= more && m <= n
    ensures Derived(chain, more, a, n)
  {
  }

  /** A contract is consistent as long as its own record and history, and the hash of
      its code, stay as they are. */
  lemma StillConsistent(chain: Chain, reg: Registry, reg': Registry, a: Addr)
    requires a in reg.contracts && Consistent(chain, reg, a)
    requires a in reg'.contracts && HistoryOf(reg', a) == HistoryOf(reg, a)
    requires reg'.contracts[a].(admin := None, name := "") == reg.contracts[a].(admin := None, name := "")
    requires forall id | id in reg.codes :: id in reg'.codes && reg'.codes[id].hash == reg.codes[id].hash
    ensures Consistent(chain, reg', a)
  {
  }

  // ---- sequences, histories, pins ----

  lemma GeneratedSequence(chain: Chain, reg: Registry, code: U64, hash: Bytes, creator: Addr, g: Generator, n: nat)
    requires NextId(reg.instanceSeq) <= n + 1 && n + 2 < TWO_64
    ensures var r := Generate(chain, reg, code, hash, creator, g);
      r.Some? ==> NextId(reg.instanceSeq) <= NextId(r.value.1) <= n + 2
  {
  }

  lemma PersistCounted(chain: Chain, reg: Registry, seq': Option<U64>, op: Op, a: Addr, hash: Bytes, n: nat)
    requires Counted(reg, n) && op.Instantiate? && NextId(seq') <= n + 2
    ensures var r := Persist(chain, reg.(instanceSeq := seq'), op, a, hash);
      r.Some? ==> Counted(r.value, n + 1) && r.value.instanceSeq == seq'
  {
  }

  lemma InstantiateCounted(chain: Chain, reg: Registry, op: Op, n: nat)
    requires Counted(reg, n) && n + 2 < TWO_64 && op.Instantiate? && DoInstantiate(chain, reg, op).Some?
    ensures Counted(DoInstantiate(chain, reg, op).value, n + 1)
    ensures NextId(reg.instanceSeq) <= NextId(DoInstantiate(chain, reg, op).value.instanceSeq)
  {
    var hash := reg.codes[op.code].hash;
    GeneratedSequence(chain, reg, op.code, hash, op.creator, op.generator, n);
    var (a, seq') := Generate(chain, reg, op.code, hash, op.creator, op.generator).value;
    PersistCounted(chain, reg, seq', op, a, hash, n);
  }

  lemma MigrateCounted(chain: Chain, reg: Registry, op: Op, n: nat)
    requires Counted(reg, n) && op.Migrate? && DoMigrate(chain, reg, op).Some?
    ensures Counted(DoMigrate(chain, reg, op).value, n + 1)
  {
  }

  lemma CreateCounted(reg: Registry, op: Op, n: nat)
    requires Counted(reg, n) && n + 2 < TWO_64 && op.Create? && DoCreate(reg, op).Some?
    ensures Counted(DoCreate(reg, op).value, n + 1)
  {
  }

  lemma StepCounted(chain: Chain, reg: Registry, op: Op, n: nat)
    requires Counted(reg, n) && n + 2 < TWO_64 && Step(chain, reg, op).Some?
    ensures Counted(Step(chain, reg, op).value, n + 1)
    ensures NextId(reg.instanceSeq) <= NextId(Step(chain, reg, op).value.instanceSeq)
  {
    match op
    case Create(_, _, _, _, _) => CreateCounted(reg, op, n);
    case Instantiate(_, _, _, _, _, _, _, _, _) => InstantiateCounted(chain, reg, op, n);
    case Migrate(_, _, _, _, _, _, _) => MigrateCounted(chain, reg, op, n);
    case _ =>
      var reg' := Step(chain, reg, op).value;
      assert reg'.contracts.Keys == reg.contracts.Keys && reg'.codes.Keys == reg.codes.Keys;
  }

  // ---- owners of contract state ----

  lemma WrittenOwned(state: map<Bytes, Bytes>, a: Addr, ws: seq<StateWrite>, before: map<Addr, ContractInfo>, contracts: map<Addr, ContractInfo>)
    requires forall p | p in state :: Owned(before, p)
    requires before.Keys <= contracts.Keys && a in contracts
    ensures forall p | p in WriteState(state, a, ws) :: Owned(contracts, p)
  {
    forall p | p in WriteState(state, a, ws) ensures Owned(contracts, p) {
      WriteStatePaths(state, a, ws, p);
      if !(a <= p) {
        var b :| b in before && b <= p;
        assert b in contracts;
      }
    }
  }

  lemma StepOwned(chain: Chain, reg: Registry, op: Op)
    requires AllOwned(reg) && Step(chain, reg, op).Some?
    ensures AllOwned(Step(chain, reg, op).value)
  {
    var reg' := Step(chain, reg, op).value;
    match op
    case Instantiate(_, _, _, _, _, _, _, _, _) =>
      var (a, _) := Generate(chain, reg, op.code, reg.codes[op.code].hash, op.creator, op.generator).value;
      WrittenOwned(reg.state, a, op.env.vm.value, reg.contracts, reg'.contracts);
    case Migrate(a, _, _, _, _, _, _) =>
      WrittenOwned(reg.state, a, if op.env.vm.Some? then op.env.vm.value else [], reg.contracts, reg'.contracts);
      WrittenOwned(reg.state, a, [], reg.contracts, reg'.contracts);
    case Execute(a, ws) => WrittenOwned(reg.state, a, ws, reg.contracts, reg'.contracts);
    case SetAdmin(a, _, _, _) => WrittenOwned(reg.state, a, [], reg.contracts, reg'.contracts);
    case SetLabel(a, _, _, _) => WrittenOwned(reg.state, a, [], reg.contracts, reg'.contracts);
    case _ =>
  }

  // ---- where addresses come from ----

  lemma GeneratedDerived(chain: Chain, reg: Registry, op: Op)
    requires op.Instantiate? && NextId(reg.instanceSeq) + 1 < TWO_64 && DoInstantiate(chain, reg, op).Some?
    ensures var g := Generate(chain, reg, op.code, reg.codes[op.code].hash, op.creator, op.generator);
      g.Some? && Derived(chain, KeysOf(reg, op), g.value.0, NextId(g.value.1))
  {
    var d := if op.generator.ClassicGenerator? then Classic(op.code, NextId(reg.instanceSeq))
             else Predictable(Origin(reg.codes[op.code].hash, op.creator, op.generator.salt, op.generator.msg));
    assert WellFormed(d) && KeyOf(d) in KeysOf(reg, op);
  }

  lemma StepDerived(chain: Chain, reg: Registry, op: Op, n: nat, keys: set<Bytes>, initial: set<Addr>)
    requires AllDerived(chain, reg, keys, initial) && Counted(reg, n) && n + 2 < TWO_64 && Step(chain, reg, op).Some?
    ensures AllDerived(chain, Step(chain, reg, op).value, keys + KeysOf(reg, op), initial)
  {
    var reg', more := Step(chain, reg, op).value, keys + KeysOf(reg, op);
    StepCounted(chain, reg, op, n);
    if op.Instantiate? { GeneratedDerived(chain, reg, op); }
    forall a | a in reg'.contracts && a !in initial ensures Derived(chain, more, a, NextId(reg'.instanceSeq)) {
      if a in reg.contracts {
        DerivedMonotone(chain, keys, more, a, NextId(reg.instanceSeq), NextId(reg'.instanceSeq));
      } else {
        DerivedMonotone(chain, KeysOf(reg, op), more, a, NextId(reg'.instanceSeq), NextId(reg'.instanceSeq));
      }
    }
  }

  // ---- record, history, code and port of each contract ----

  lemma PersistConsistent(chain: Chain, reg: Registry, op: Op, a: Addr, hash: Bytes)
    requires op.Instantiate? && Persist(chain, reg, op, a, hash).Some? && HistoryOf(reg, a) == []
    requires op.code in reg.codes && hash == reg.codes[op.code].hash && op.creator != [] && Accepted(a)
    ensures Consistent(chain, Persist(chain, reg, op, a, hash).value, a)
  {
  }

  lemma MigratedConsistent(chain: Chain, reg: Registry, op: Op)
    requires op.Migrate? && DoMigrate(chain, reg, op).Some? && Consistent(chain, reg, op.addr)
    ensures Consistent(chain, DoMigrate(chain, reg, op).value, op.addr)
  {
  }

  /** Hashes of stored codes never change, and no code disappears. */
  lemma CodesKept(chain: Chain, reg: Registry, op: Op, id: U64)
    requires (forall i | i in reg.codes :: i < NextId(reg.codeSeq)) && Step(chain, reg, op).Some? && id in reg.codes
    ensures var reg' := Step(chain, reg, op).value; id in reg'.codes && reg'.codes[id].hash == reg.codes[id].hash
  {
  }

  lemma OthersUntouched(chain: Chain, reg: Registry, op: Op, b: Addr)
    requires Step(chain, reg, op).Some? && b in Step(chain, reg, op).value.contracts
    requires op.Migrate? ==> b != op.addr
    requires op.Instantiate? ==> b in reg.contracts
    ensures var reg' := Step(chain, reg, op).value;
      && b in reg.contracts && HistoryOf(reg', b) == HistoryOf(reg, b)
      && reg'.contracts[b].(admin := None, name := "") == reg.contracts[b].(admin := None, name := "")
  {
  }

  lemma StepConsistent(chain: Chain, reg: Registry, op: Op, n: nat)
    requires AllConsistent(chain, reg) && Counted(reg, n) && Step(chain, reg, op).Some?
    ensures AllConsistent(chain, Step(chain, reg, op).value)
  {
    var reg' := Step(chain, reg, op).value;
    forall b | b in reg'.contracts ensures Consistent(chain, reg', b) {
      if op.Migrate? && b == op.addr {
        MigratedConsistent(chain, reg, op);
      } else if op.Instantiate? && b !in reg.contracts {
        var hash := reg.codes[op.code].hash;
        var (a, seq') := Generate(chain, reg, op.code, hash, op.creator, op.generator).value;
        PersistConsistent(chain, reg.(instanceSeq := seq'), op, a, hash);
      } else {
        OthersUntouched(chain, reg, op, b);
        forall id | id in reg.codes ensures id in reg'.codes && reg'.codes[id].hash == reg.codes[id].hash {
          CodesKept(chain, reg, op, id);
        }
        StillConsistent(chain, reg, reg', b);
      }
    }
  }

  lemma StepKeepsInv(chain: Chain, reg: Registry, op: Op, n: nat)
    requires Inv(chain, reg, n) && n + 2 < TWO_64 && Step(chain, reg, op).Some?
    ensures Inv(chain, Step(chain, reg, op).value, n + 1)
  {
    StepCounted(chain, reg, op, n);
    StepOwned(chain, reg, op);
    StepConsistent(chain, reg, op, n);
  }

  /** Every run from a registry in order, as long as the 64-bit counters suffice: record,
      history, code and IBC port of each contract agree, and state has an owner. */
  lemma {:induction false} RunKeepsInv(chain: Chain, reg: Registry, ops: seq<Op>, n: nat)
    requires Inv(chain, reg, n) && n + |ops| + 2 < TWO_64
    ensures Inv(chain, Run(chain, reg, ops), n + |ops|)
    decreases |ops|
  {
    if ops != [] {
      RunKeepsInv(chain, reg, ops[..|ops| - 1], n);
      var before, op := Run(chain, reg, ops[..|ops| - 1]), ops[|ops| - 1];
      if Step(chain, before, op).Some? {
        StepKeepsInv(chain, before, op, n + |ops| - 1);
      }
    }
  }

  /** The same from the empty registry. */
  lemma ReachableInv(chain: Chain, ops: seq<Op>)
    requires |ops| + 2 < TWO_64
    ensures Inv(chain, Run(chain, EMPTY, ops), |ops|)
  {
    RunKeepsInv(chain, EMPTY, ops, 0);
  }

  /** A contract has an IBC port exactly when its current code has IBC entry points,
      the port is the one of its address, and its code is stored. */
  lemma PortsFollowCode(chain: Chain, reg: Registry, ops: seq<Op>, n: nat, a: Addr)
    requires Inv(chain, reg, n) && n + |ops| + 2 < TWO_64 && a in Run(chain, reg, ops).contracts
    ensures var end := Run(chain, reg, ops);
      var info := end.contracts[a];
      && info.code in end.codes && chain.report(end.codes[info.code].hash).Some?
      && (info.port.Some? <==> chain.report(end.codes[info.code].hash).value.ibc)
      && (info.port.Some? ==> info.port.value == PortFor(a))
  {
    RunKeepsInv(chain, reg, ops, n);
    assert Consistent(chain, Run(chain, reg, ops), a);
  }

  // ---- addresses of a run ----

  /** New contracts of a run have addresses derived from what the run hashed. */
  lemma {:induction false} RunDerived(chain: Chain, reg: Registry, ops: seq<Op>, n: nat)
    requires Counted(reg, n) && n + |ops| + 2 < TWO_64
    ensures var end := Run(chain, reg, ops);
      Counted(end, n + |ops|) && AllDerived(chain, end, Hashed(chain, reg, ops), reg.contracts.Keys)
    decreases |ops|
  {
    if ops != [] {
      var front, op := ops[..|ops| - 1], ops[|ops| - 1];
      RunDerived(chain, reg, front, n);
      var before, keys := Run(chain, reg, front), Hashed(chain, reg, front);
      if Step(chain, before, op).Some? {
        StepCounted(chain, before, op, n + |front|);
        StepDerived(chain, before, op, n + |front|, keys, reg.contracts.Keys);
      } else {
        forall a | a in before.contracts && a !in reg.contracts ensures Derived(chain, Hashed(chain, reg, ops), a, NextId(before.instanceSeq)) {
          DerivedMonotone(chain, keys, Hashed(chain, reg, ops), a, NextId(before.instanceSeq), NextId(before.instanceSeq));
        }
      }
    }
  }

  /** A fresh counter-based address is none of the generated ones. */
  lemma ClassicNeverDuplicate(chain: Chain, reg: Registry, keys: set<Bytes>, initial: set<Addr>, code: U64)
    requires AllDerived(chain, reg, keys, initial)
    requires CollisionFree(chain.hash, keys + {ClassicKey(code, NextId(reg.instanceSeq))})
    ensures var a := AddressOf(chain.hash, Classic(code, NextId(reg.instanceSeq))); a in reg.contracts ==> a in initial
  {
    var d := Classic(code, NextId(reg.instanceSeq));
    var a := AddressOf(chain.hash, d);
    if a in reg.contracts && a !in initial {
      assert Derived(chain, keys, a, NextId(reg.instanceSeq));
      var e: Derivation :| WellFormed(e) && KeyOf(e) in keys && a == AddressOf(chain.hash, e) && (e.Classic? ==> e.instanceId < NextId(reg.instanceSeq));
      AddressInjective(chain.hash, keys + {KeyOf(d)}, d, e);
    }
  }

  /** After any run, if what it hashed and the next key do not collide, a counter-based
      instantiation of any code can meet the address of an initial contract only. */
  lemma ClassicMeetsOnlyInitial(chain: Chain, reg: Registry, ops: seq<Op>, n: nat, code: U64)
    requires Counted(reg, n) && n + |ops| + 2 < TWO_64
    requires CollisionFree(chain.hash, Hashed(chain, reg, ops) + {ClassicKey(code, NextId(Run(chain, reg, ops).instanceSeq))})
    ensures var end := Run(chain, reg, ops); var a := AddressOf(chain.hash, Classic(code, NextId(end.instanceSeq)));
      a in end.contracts ==> a in reg.contracts
  {
    RunDerived(chain, reg, ops, n);
    ClassicNeverDuplicate(chain, Run(chain, reg, ops), Hashed(chain, reg, ops), reg.contracts.Keys, code);
  }

  /** And none at all on a chain that started empty. */
  lemma ClassicNeverFailsOnAddress(chain: Chain, ops: seq<Op>, code: U64)
    requires |ops| + 2 < TWO_64
    requires CollisionFree(chain.hash, Hashed(chain, EMPTY, ops) + {ClassicKey(code, NextId(Run(chain, EMPTY, ops).instanceSeq))})
    ensures var reg := Run(chain, EMPTY, ops);
      AddressOf(chain.hash, Classic(code, NextId(reg.instanceSeq))) !in reg.contracts
  {
    ClassicMeetsOnlyInitial(chain, EMPTY, ops, 0, code);
  }

  /** Generated addresses have one length, so none is a proper prefix of another. */
  lemma NoAddressPrefixes(chain: Chain, reg: Registry, keys: set<Bytes>, a: Addr, b: Addr)
    requires AllDerived(chain, reg, keys, {}) && a in reg.contracts && b in reg.contracts && a <= b
    ensures a == b
  {
    assert Derived(chain, keys, a, NextId(reg.instanceSeq)) && Derived(chain, keys, b, NextId(reg.instanceSeq));
    assert |a| == 32 && |b| == 32;
  }

  // ---- the assumptions on the hash can be met ----

  lemma {:induction false} ClassicKeysAreShort(chain: Chain, reg: Registry, ops: seq<Op>)
    requires forall i | 0 <= i < |ops| :: ops[i].Instantiate? ==> ops[i].generator.ClassicGenerator?
    ensures forall k | k in Hashed(chain, reg, ops) :: |k| == 16
    decreases |ops|
  {
    if ops != [] { ClassicKeysAreShort(chain, reg, ops[..|ops| - 1]); }
  }

  /** A chain on which no run of counter-based instantiations, however
      long, has a collision. */
  lemma PaddedChainMeetsAll(report: Bytes -> Option<Report>, ops: seq<Op>, key: Bytes)
    requires (forall i | 0 <= i < |ops| :: ops[i].Instantiate? ==> ops[i].generator.ClassicGenerator?) && |key| == 16
    ensures var chain := Chain(Padded, report);
      CollisionFree(chain.hash, Hashed(chain, EMPTY, ops) + {key})
  {
    var chain := Chain(Padded, report);
    ClassicKeysAreShort(chain, EMPTY, ops);
    PaddedCollisionFree(Hashed(chain, EMPTY, ops) + {key});
  }

  // ---- what ordinary users cannot do ----

  /** Messages of ordinary users run under the default policy. */
  predicate Ordinary(op: Op) {
    (op.Create? || op.Instantiate? || op.Migrate? || op.SetAdmin? || op.SetLabel? || op.SetAccess?) ==> op.policy.Default?
  }

  /** Without an admin a contract keeps its code, label and history for good, whatever
      ordinary users do. */
  lemma {:induction false} AdminlessContractsStay(chain: Chain, reg: Registry, ops: seq<Op>, a: Addr)
    requires a in reg.contracts && reg.contracts[a].admin.None? && forall i | 0 <= i < |ops| :: Ordinary(ops[i])
    ensures var end := Run(chain, reg, ops);
      a in end.contracts && end.contracts[a] == reg.contracts[a] && HistoryOf(end, a) == HistoryOf(reg, a)
    decreases |ops|
  {
    if ops != [] {
      var front, op := ops[..|ops| - 1], ops[|ops| - 1];
      AdminlessContractsStay(chain, reg, front, a);
      AdminlessStep(chain, Run(chain, reg, front), op, a);
    }
  }

  lemma AdminlessStep(chain: Chain, reg: Registry, op: Op, a: Addr)
    requires a in reg.contracts && reg.contracts[a].admin.None? && Ordinary(op)
    ensures Step(chain, reg, op).Some? ==>
      var reg' := Step(chain, reg, op).value;
      a in reg'.contracts && reg'.contracts[a] == reg.contracts[a] && HistoryOf(reg', a) == HistoryOf(reg, a)
  {
  }

  /** Every code is at most as open to instantiation as the chain's default. */
  ghost predicate WithinDefault(reg: Registry) {
    reg.params.Some? && forall id | id in reg.codes :: TypeIsSubset(reg.codes[id].access.permission, reg.params.value.instantiateDefault)
  }

  lemma WithinDefaultStep(chain: Chain, reg: Registry, op: Op)
    requires WithinDefault(reg) && Ordinary(op) && !op.SetParams? && Step(chain, reg, op).Some?
    ensures WithinDefault(Step(chain, reg, op).value)
  {
  }

  /** While the parameters stay, ordinary users never open a code further than that. */
  lemma {:induction false} CodesStayWithinDefault(chain: Chain, reg: Registry, ops: seq<Op>)
    requires WithinDefault(reg) && forall i | 0 <= i < |ops| :: Ordinary(ops[i]) && !ops[i].SetParams?
    ensures WithinDefault(Run(chain, reg, ops))
    decreases |ops|
  {
    if ops != [] {
      var front, op := ops[..|ops| - 1], ops[|ops| - 1];
      CodesStayWithinDefault(chain, reg, front);
      if Step(chain, Run(chain, reg, front), op).Some? { WithinDefaultStep(chain, Run(chain, reg, front), op); }
    }
  }
}
