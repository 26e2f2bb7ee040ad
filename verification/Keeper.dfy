/** The keeper's registry operations on the flat store. Each method is proved to take a
    store that represents a registry to one that represents the registry after Step. */
module WasmKeeper {
  import opened Bytes
  import opened Keys
  import opened Scans
  import opened Policy
  import opened Addresses
  import opened Registry
  import opened KeeperStore
  import opened ContractIndexes
  import opened RegistryLaws

  class Keeper {
    const chain: Chain
    var store: Flat

    constructor (chain: Chain)
      ensures this.chain == chain && store == map[]
      ensures Represents(store, EMPTY)
    {
      this.chain := chain;
      store := map[];
    }

    method Set(k: Key, v: Val, ghost f: Image)
      requires Proper(k) && Holds(store, f)
      modifies this
      ensures store == old(store)[Enc(k) := v] && Holds(store, Upd(f, k, Some(v)))
      ensures Outside(store) == old(Outside(store))
    {
      OutsideKept(store, k, v);
      PutHolds(store, f, k, v);
      store := store[Enc(k) := v];
    }

    method Delete(k: Key, ghost f: Image)
      requires Proper(k) && Holds(store, f)
      modifies this
      ensures store == old(store) - {Enc(k)} && Holds(store, Upd(f, k, None))
      ensures Outside(store) == old(Outside(store))
    {
      OutsideKept(store, k, Mark);
      DropHolds(store, f, k);
      store := store - {Enc(k)};
    }

    method Get(k: Key, ghost f: Image) returns (v: Option<Val>)
      requires Proper(k) && Holds(store, f)
      ensures v == f(k)
    {
      At(store, f, k);
      v := Lookup(store, Enc(k));
    }

    /** mustAutoIncrementID */
    method AutoIncrement(k: Key, ghost f: Image) returns (id: U64)
      requires (k.CodeSequence? || k.InstanceSequence?) && Holds(store, f) && (f(k).Some? ==> f(k).value.SequenceV?)
      modifies this
      ensures id == NextId(if f(k).Some? then Some(f(k).value.next) else None)
      ensures Holds(store, Upd(f, k, Some(SequenceV((id + 1) % TWO_64))))
      ensures Outside(store) == old(Outside(store))
    {
      var v := Get(k, f);
      id := 1;
      if v.Some? { id := v.value.next; }
      Set(k, SequenceV((id + 1) % TWO_64), f);
    }

    method NextCodeId(ghost reg: Registry) returns (id: U64)
      requires Represents(store, reg)
      modifies this
      ensures id == NextId(reg.codeSeq) && Represents(store, reg.(codeSeq := Some(Bumped(reg.codeSeq))))
      ensures Outside(store) == old(Outside(store))
    {
      id := AutoIncrement(CodeSequence, ImageOf(reg));
      ghost var next: U64 := (id + 1) % TWO_64;
      SequenceImage(reg, next);
      SameImage(store, Upd(ImageOf(reg), CodeSequence, Some(SequenceV(next))), ImageOf(reg.(codeSeq := Some(next))));
    }

    method NextInstanceId(ghost reg: Registry) returns (id: U64)
      requires Represents(store, reg)
      modifies this
      ensures id == NextId(reg.instanceSeq) && Represents(store, reg.(instanceSeq := Some(Bumped(reg.instanceSeq))))
      ensures Outside(store) == old(Outside(store))
    {
      id := AutoIncrement(InstanceSequence, ImageOf(reg));
      ghost var next: U64 := (id + 1) % TWO_64;
      SequenceImage(reg, next);
      SameImage(store, Upd(ImageOf(reg), InstanceSequence, Some(SequenceV(next))), ImageOf(reg.(instanceSeq := Some(next))));
    }

    method StoreCodeInfo(id: U64, info: CodeInfo, ghost reg: Registry)
      requires Represents(store, reg)
      modifies this
      ensures Represents(store, reg.(codes := reg.codes[id := info]))
      ensures Outside(store) == old(Outside(store))
    {
      Set(CodeKey(id), CodeV(info), ImageOf(reg));
      SameImage(store, Upd(ImageOf(reg), CodeKey(id), Some(CodeV(info))), ImageOf(reg.(codes := reg.codes[id := info])));
    }

    /** create, after bytecode was stored and analyzed. */
    method Create(op: Op, ghost reg: Registry) returns (ok: bool)
      requires op.Create? && Represents(store, reg)
      modifies this
      ensures ok == DoCreate(reg, op).Some?
      ensures ok ==> Represents(store, DoCreate(reg, op).value)
      ensures Outside(store) == old(Outside(store))
    {
      var p := Get(ParamsKey, ImageOf(reg));
      if p.None? || p.value.params.instantiateDefault.Unspecified? { return false; }
      var default := With(p.value.params.instantiateDefault, op.creator);
      var access := if op.access.Some? then op.access.value else default;
      if !Permits(op.policy, CreateCode(p.value.params.upload, default, op.creator, access)) { return false; }
      if !op.vmOk { return false; }
      var id := NextCodeId(reg);
      StoreCodeInfo(id, CodeInfo(op.hash, op.creator, access), reg.(codeSeq := Some(Bumped(reg.codeSeq))));
      return true;
    }

    method WriteStateKey(path: Bytes, v: Option<Bytes>, ghost reg: Registry)
      requires Represents(store, reg)
      modifies this
      ensures Represents(store, reg.(state := if v.Some? then reg.state[path := v.value] else reg.state - {path}))
      ensures Outside(store) == old(Outside(store))
    {
      if v.Some? {
        Set(StateKey(path), StateV(v.value), ImageOf(reg));
        SameImage(store, Upd(ImageOf(reg), StateKey(path), Some(StateV(v.value))), ImageOf(reg.(state := reg.state[path := v.value])));
      } else {
        Delete(StateKey(path), ImageOf(reg));
        SameImage(store, Upd(ImageOf(reg), StateKey(path), None), ImageOf(reg.(state := reg.state - {path})));
      }
    }

    /** State writes of the contract's VM run, under 0x03 | address. */
    method WriteContractState(a: Addr, ws: seq<StateWrite>, ghost reg: Registry)
      requires Represents(store, reg)
      modifies this
      ensures Represents(store, reg.(state := WriteState(reg.state, a, ws)))
      ensures Outside(store) == old(Outside(store))
    {
      for i := 0 to |ws|
        invariant Represents(store, reg.(state := WriteState(reg.state, a, ws[..i]))) && Outside(store) == old(Outside(store))
      {
        WriteStateSnoc(reg.state, a, ws, i);
        WriteStateKey(a + ws[i].0, ws[i].1, reg.(state := WriteState(reg.state, a, ws[..i])));
      }
      assert ws[..|ws|] == ws;
    }

    /** appendToContractHistory for one entry. */
    method AppendToContractHistory(a: Addr, e: HistoryEntry, ghost f: Image, ghost history: map<Addr, seq<HistoryEntry>>) returns (pos: U64)
      requires Holds(store, f) && HistoryLike(f, history) && |EntriesOf(history, a)| + 1 < TWO_64
      modifies this
      ensures pos == |EntriesOf(history, a)| + 1
      ensures Holds(store, Upd(f, HistoryKey(a, pos), Some(HistoryV(e))))
      ensures Outside(store) == old(Outside(store))
    {
      pos := LastPosition(store, a, f, history);
      pos := pos + 1;
      Set(HistoryKey(a, pos), HistoryV(e), f);
    }

    /** The address an instantiation gets. None is a panic of the generator. */
    method GenerateAddress(code: U64, hash: Bytes, creator: Addr, g: Generator, ghost reg: Registry) returns (r: Option<Addr>)
      requires Represents(store, reg)
      modifies this
      ensures match Generate(chain, reg, code, hash, creator, g)
        case None => r.None?
        case Some((a, seq')) => r == Some(a) && Represents(store, reg.(instanceSeq := seq'))
      ensures Outside(store) == old(Outside(store))
    {
      if g.ClassicGenerator? {
        var id := NextInstanceId(reg);
        return Some(AddressOf(chain.hash, Classic(code, id)));
      }
      var o := Origin(hash, creator, g.salt, g.msg);
      if Valid(o) {
        assert reg.(instanceSeq := reg.instanceSeq) == reg;
        return Some(AddressOf(chain.hash, Predictable(o)));
      }
      return None;
    }

    /** addToContractCodeSecondaryIndex and addToContractCreatorSecondaryIndex */
    method AddToIndexes(a: Addr, creator: Addr, e: HistoryEntry, ghost f: Image)
      requires Holds(store, f) && |creator| <= 255
      modifies this
      ensures Holds(store, Indexed(f, a, creator, e))
      ensures Outside(store) == old(Outside(store))
    {
      Set(ByCodeKey(e.code, e.updated, a), Mark, f);
      Set(ByCreatorKey(creator, e.updated, a), Mark, Upd(f, ByCodeKey(e.code, e.updated, a), Some(Mark)));
    }

    /** The records instantiate writes: both indexes, the history, the contract. */
    method StoreInstance(a: Addr, info: ContractInfo, e: HistoryEntry, ghost reg: Registry)
      requires Represents(store, reg) && a !in reg.contracts && HistoryOf(reg, a) == []
      requires |info.creator| <= 255 && e.code == info.code && e.updated == info.created
      modifies this
      ensures Represents(store, reg.(history := reg.history[a := HistoryOf(reg, a) + [e]], contracts := reg.contracts[a := info]))
      ensures Outside(store) == old(Outside(store))
    {
      ghost var f0 := ImageOf(reg);
      AddToIndexes(a, info.creator, e, f0);
      ghost var f2 := Indexed(f0, a, info.creator, e);
      var pos := AppendToContractHistory(a, e, f2, reg.history);
      ghost var f3 := Upd(f2, HistoryKey(a, pos), Some(HistoryV(e)));
      Set(ContractKey(a), ContractV(info), f3);
      InstanceStored(store, reg, a, info, e);
    }

    /** instantiate: from the code lookup to the stored contract. */
    method Instantiate(op: Op, ghost reg: Registry) returns (ok: bool)
      requires op.Instantiate? && Represents(store, reg) && reg.history.Keys == reg.contracts.Keys
      modifies this
      ensures ok == DoInstantiate(chain, reg, op).Some?
      ensures ok ==> Represents(store, DoInstantiate(chain, reg, op).value)
      ensures Outside(store) == old(Outside(store))
    {
      if op.creator == [] { return false; }
      var c := Get(CodeKey(op.code), ImageOf(reg));
      if c.None? { return false; }
      var code := c.value.code;
      if !Permits(op.policy, UseCode(code.access, op.creator)) { return false; }
      var r := GenerateAddress(op.code, code.hash, op.creator, op.generator, reg);
      if r.None? { return false; }
      var a := r.value;
      ghost var reg1 := reg.(instanceSeq := Generate(chain, reg, op.code, code.hash, op.creator, op.generator).value.1);
      assert DoInstantiate(chain, reg, op) == Persist(chain, reg1, op, a, code.hash);
      ok := PersistInstance(op, a, code.hash, reg1);
    }

    method PersistInstance(op: Op, a: Addr, hash: Bytes, ghost reg: Registry) returns (ok: bool)
      requires op.Instantiate? && Represents(store, reg) && reg.history.Keys == reg.contracts.Keys
      modifies this
      ensures ok == Persist(chain, reg, op, a, hash).Some?
      ensures ok ==> Represents(store, Persist(chain, reg, op, a, hash).value)
      ensures Outside(store) == old(Outside(store))
    {
      var existing := Get(ContractKey(a), ImageOf(reg));
      if existing.Some? { return false; }
      if !op.env.accountOk || op.env.vm.None? { return false; }
      WriteContractState(a, op.env.vm.value, reg);
      ghost var reg1 := reg.(state := WriteState(reg.state, a, op.env.vm.value));
      var report := chain.report(hash);
      if report.None? { return false; }
      if report.value.ibc && !op.env.bindOk { return false; }
      if |op.creator| > MAX_ADDR_LEN { return false; }
      var info := ContractInfo(op.code, op.creator, op.admin, op.name, op.at, if report.value.ibc then Some(PortFor(a)) else None);
      StoreInstance(a, info, HistoryEntry(Init, op.code, op.at, op.msg), reg1);
      return true;
    }

    /** mustGetLastContractHistoryEntry; None stands for its panic. */
    method LastHistoryEntry(a: Addr, ghost f: Image, ghost history: map<Addr, seq<HistoryEntry>>) returns (e: Option<HistoryEntry>)
      requires Holds(store, f) && HistoryLike(f, history) && |EntriesOf(history, a)| < TWO_64
      ensures e == if EntriesOf(history, a) == [] then None else Some(Last(EntriesOf(history, a)))
    {
      var pos := LastPosition(store, a, f, history);
      if pos == 0 { return None; }
      return Some(store[Enc(HistoryKey(a, pos))].entry);
    }

    /** The records migrate writes: the old index entry goes, history and record follow,
        and the index gets an entry for the new last position. */
    method MoveInstance(a: Addr, info: ContractInfo, was: HistoryEntry, e: HistoryEntry, ghost reg: Registry)
      requires Represents(store, reg) && a in reg.contracts && HistoryOf(reg, a) != [] && Last(HistoryOf(reg, a)) == was
      requires info.creator == reg.contracts[a].creator && |HistoryOf(reg, a)| + 1 < TWO_64
      modifies this
      ensures Represents(store, reg.(history := reg.history[a := HistoryOf(reg, a) + [e]], contracts := reg.contracts[a := info]))
      ensures Outside(store) == old(Outside(store))
    {
      ghost var f0 := ImageOf(reg);
      Delete(ByCodeKey(was.code, was.updated, a), f0);
      ghost var f1 := Upd(f0, ByCodeKey(was.code, was.updated, a), None);
      var pos := AppendToContractHistory(a, e, f1, reg.history);
      ghost var f2 := Upd(f1, HistoryKey(a, pos), Some(HistoryV(e)));
      Set(ByCodeKey(e.code, e.updated, a), Mark, f2);
      ghost var f3 := Upd(f2, ByCodeKey(e.code, e.updated, a), Some(Mark));
      Set(ContractKey(a), ContractV(info), f3);
      MovedImage(reg, a, info, was, e);
      SameImage(store, Upd(f3, ContractKey(a), Some(ContractV(info))),
                ImageOf(reg.(history := reg.history[a := HistoryOf(reg, a) + [e]], contracts := reg.contracts[a := info])));
    }

    /** migrate */
    method Migrate(op: Op, ghost reg: Registry) returns (ok: bool)
      requires op.Migrate? && Represents(store, reg) && |HistoryOf(reg, op.addr)| + 1 < TWO_64
      modifies this
      ensures ok == DoMigrate(chain, reg, op).Some?
      ensures ok ==> Represents(store, DoMigrate(chain, reg, op).value)
      ensures Outside(store) == old(Outside(store))
    {
      var r := Get(ContractKey(op.addr), ImageOf(reg));
      if r.None? { return false; }
      var info := r.value.contract;
      if !Permits(op.policy, ModifyContract(info.admin, op.caller)) { return false; }
      var c := Get(CodeKey(op.newCode), ImageOf(reg));
      if c.None? { return false; }
      if !Permits(op.policy, UseCode(c.value.code.access, op.caller)) { return false; }
      var report := chain.report(c.value.code.hash);
      if report.None? { return false; }
      var port := MigratedPort(info.port, op.addr, report.value.ibc, op.env.bindOk);
      if port.None? { return false; }
      var o := Get(CodeKey(info.code), ImageOf(reg));
      if o.None? { return false; }
      var oldReport := chain.report(o.value.code.hash);
      if oldReport.None? { return false; }
      var calls := CallsEntryPoint(oldReport.value, report.value);
      if calls && op.env.vm.None? { return false; }
      ok := FinishMigration(op, info.(code := op.newCode, port := port.value), calls, reg);
    }

    method FinishMigration(op: Op, info: ContractInfo, calls: bool, ghost reg: Registry) returns (ok: bool)
      requires op.Migrate? && Represents(store, reg) && op.addr in reg.contracts && |HistoryOf(reg, op.addr)| + 1 < TWO_64
      requires info.creator == reg.contracts[op.addr].creator && (calls ==> op.env.vm.Some?)
      modifies this
      ensures ok == (HistoryOf(reg, op.addr) != [])
      ensures ok ==> Represents(store, reg.(
        state := if calls then WriteState(reg.state, op.addr, op.env.vm.value) else reg.state,
        history := reg.history[op.addr := HistoryOf(reg, op.addr) + [HistoryEntry(Migration, op.newCode, op.at, op.msg)]],
        contracts := reg.contracts[op.addr := info]))
      ensures Outside(store) == old(Outside(store))
    {
      ghost var reg1 := reg;
      if calls {
        WriteContractState(op.addr, op.env.vm.value, reg);
        reg1 := reg.(state := WriteState(reg.state, op.addr, op.env.vm.value));
      }
      var was := LastHistoryEntry(op.addr, ImageOf(reg1), reg1.history);
      if was.None? { return false; }
      MoveInstance(op.addr, info, was.value, HistoryEntry(Migration, op.newCode, op.at, op.msg), reg1);
      return true;
    }

    /** setContractAdmin and setContractLabel store the changed record; no index is touched. */
    method UpdateContractInfo(a: Addr, caller: Addr, policy: Policy, admin: Option<Option<Addr>>, name: Option<string>, ghost reg: Registry) returns (ok: bool)
      requires Represents(store, reg)
      modifies this
      ensures ok == (a in reg.contracts && Permits(policy, ModifyContract(reg.contracts[a].admin, caller)))
      ensures ok ==> Represents(store, reg.(contracts := reg.contracts[a := Changed(reg.contracts[a], admin, name)]))
      ensures Outside(store) == old(Outside(store))
    {
      var r := Get(ContractKey(a), ImageOf(reg));
      if r.None? || !Permits(policy, ModifyContract(r.value.contract.admin, caller)) { return false; }
      var info := Changed(r.value.contract, admin, name);
      Set(ContractKey(a), ContractV(info), ImageOf(reg));
      SameImage(store, Upd(ImageOf(reg), ContractKey(a), Some(ContractV(info))), ImageOf(reg.(contracts := reg.contracts[a := info])));
      return true;
    }

    /** setAccessConfig */
    method SetAccessConfig(op: Op, ghost reg: Registry) returns (ok: bool)
      requires op.SetAccess? && Represents(store, reg)
      modifies this
      ensures ok == DoSetAccess(reg, op).Some?
      ensures ok ==> Represents(store, DoSetAccess(reg, op).value)
      ensures Outside(store) == old(Outside(store))
    {
      var c := Get(CodeKey(op.id), ImageOf(reg));
      if c.None? { return false; }
      var p := Get(ParamsKey, ImageOf(reg));
      if p.None? { return false; }
      var isSubset := TypeIsSubset(op.config.permission, p.value.params.instantiateDefault);
      if !Permits(op.policy, ModifyCodeAccess(Some(c.value.code.creator), op.caller, isSubset)) { return false; }
      StoreCodeInfo(op.id, c.value.code.(access := op.config), reg);
      return true;
    }

    /** pinCode and unpinCode */
    method SetPinned(id: U64, pin: bool, vmOk: bool, ghost reg: Registry) returns (ok: bool)
      requires Represents(store, reg)
      modifies this
      ensures ok == (id in reg.codes && vmOk)
      ensures ok ==> Represents(store, reg.(pinned := if pin then reg.pinned + {id} else reg.pinned - {id}))
      ensures Outside(store) == old(Outside(store))
    {
      var c := Get(CodeKey(id), ImageOf(reg));
      if c.None? || !vmOk { return false; }
      if pin {
        Set(PinnedKey(id), Mark, ImageOf(reg));
        SameImage(store, Upd(ImageOf(reg), PinnedKey(id), Some(Mark)), ImageOf(reg.(pinned := reg.pinned + {id})));
      } else {
        Delete(PinnedKey(id), ImageOf(reg));
        SameImage(store, Upd(ImageOf(reg), PinnedKey(id), None), ImageOf(reg.(pinned := reg.pinned - {id})));
      }
      return true;
    }

    method StoreParams(p: Params, ghost reg: Registry)
      requires Represents(store, reg)
      modifies this
      ensures Represents(store, reg.(params := Some(p)))
      ensures Outside(store) == old(Outside(store))
    {
      Set(ParamsKey, ParamsV(p), ImageOf(reg));
      SameImage(store, Upd(ImageOf(reg), ParamsKey, Some(ParamsV(p))), ImageOf(reg.(params := Some(p))));
    }

    /** contractInstance and the state writes of an execution. */
    method ExecuteContract(op: Op, ghost reg: Registry) returns (ok: bool)
      requires op.Execute? && Represents(store, reg)
      modifies this
      ensures ok == Step(chain, reg, op).Some?
      ensures ok ==> Represents(store, Step(chain, reg, op).value)
      ensures Outside(store) == old(Outside(store))
    {
      var r := Get(ContractKey(op.addr), ImageOf(reg));
      if r.None? { return false; }
      var c := Get(CodeKey(r.value.contract.code), ImageOf(reg));
      if c.None? { return false; }
      WriteContractState(op.addr, op.writes, reg);
      return true;
    }

    /** Any operation inside its cached context: an error leaves the store as it was. */
    method Perform(op: Op, ghost reg: Registry) returns (ok: bool)
      requires Represents(store, reg) && reg.history.Keys == reg.contracts.Keys
      requires forall a | a in reg.history :: |reg.history[a]| + 1 < TWO_64
      modifies this
      ensures ok == Step(chain, reg, op).Some?
      ensures Represents(store, if ok then Step(chain, reg, op).value else reg)
      ensures !ok ==> store == old(store)
      ensures Outside(store) == old(Outside(store))
    {
      var saved := store;
      match op {
        case Create(_, _, _, _, _) => ok := Create(op, reg);
        case Instantiate(_, _, _, _, _, _, _, _, _) => ok := Instantiate(op, reg);
        case Migrate(_, _, _, _, _, _, _) => ok := Migrate(op, reg);
        case SetAdmin(a, caller, admin, policy) => ok := UpdateContractInfo(a, caller, policy, Some(admin), None, reg);
        case SetLabel(a, caller, name, policy) => ok := UpdateContractInfo(a, caller, policy, None, Some(name), reg);
        case SetAccess(_, _, _, _) => ok := SetAccessConfig(op, reg);
        case Pin(id, vmOk) => ok := SetPinned(id, true, vmOk, reg);
        case Unpin(id, vmOk) => ok := SetPinned(id, false, vmOk, reg);
        case Execute(_, _) => ok := ExecuteContract(op, reg);
        case SetParams(p) =>
          StoreParams(p, reg);
          ok := true;
      }
      if !ok {
        store := saved;
      }
    }

    /** Any run from a store in order ends in a store that represents the run's registry. */
    method PerformAll(ops: seq<Op>, ghost reg: Registry, ghost n: nat)
      requires Represents(store, reg) && Inv(chain, reg, n) && n + |ops| + 2 < TWO_64
      modifies this
      ensures Represents(store, Run(chain, reg, ops))
      ensures Outside(store) == old(Outside(store))
    {
      for i := 0 to |ops|
        invariant Represents(store, Run(chain, reg, ops[..i])) && Outside(store) == old(Outside(store))
      {
        RunKeepsInv(chain, reg, ops[..i], n);
        assert ops[..i + 1][..i] == ops[..i];
        var _ := Perform(ops[i], Run(chain, reg, ops[..i]));
      }
      assert ops[..|ops|] == ops;
    }

    /** IterateContractsByCode: the indexed contracts of the code, in order of update time. */
    method ContractsByCode(id: U64, ghost reg: Registry) returns (addrs: seq<Addr>)
      requires Represents(store, reg)
      ensures forall a :: a in addrs <==> exists at :: IndexedByCode(reg, id, at, a)
      ensures forall i, j | 0 <= i < j < |addrs| :: Before(UpdatedAt(reg, addrs[i]), addrs[i], UpdatedAt(reg, addrs[j]), addrs[j])
    {
      ByCodeKeysComplete(store, reg, id);
      addrs := List(store, ByCodePrefix(id));
      ghost var ats :| IsListing(store, ByCodePrefix(id), ats, addrs);
      ListedByCode(store, reg, id, ats, addrs);
    }

    /** IterateContractsByCreator, in order of creation time; None is the panic of the prefix. */
    method ContractsByCreator(creator: Addr, ghost reg: Registry) returns (addrs: Option<seq<Addr>>)
      requires Represents(store, reg)
      ensures addrs.Some? <==> |creator| <= 255
      ensures addrs.Some? ==> forall a :: a in addrs.value <==> exists at :: IndexedByCreator(reg, creator, at, a)
      ensures addrs.Some? ==> forall i, j | 0 <= i < j < |addrs.value| ::
        Before(CreatedAt(reg, addrs.value[i]), addrs.value[i], CreatedAt(reg, addrs.value[j]), addrs.value[j])
    {
      if |creator| > 255 { return None; }
      ByCreatorKeysComplete(store, reg, creator);
      var found := List(store, ByCreatorPrefix(creator));
      ghost var ats :| IsListing(store, ByCreatorPrefix(creator), ats, found);
      ListedByCreator(store, reg, creator, ats, found);
      return Some(found);
    }

    /** After any run, iterating by code returns exactly the contracts whose record names the
        code, each once, in order of the last code update. */
    method ContractsByCodeOfRun(id: U64, ghost reg: Registry, ghost ops: seq<Op>, ghost n: nat) returns (addrs: seq<Addr>)
      requires Inv(chain, reg, n) && n + |ops| + 2 < TWO_64 && Represents(store, Run(chain, reg, ops))
      ensures var end := Run(chain, reg, ops);
        && (forall a :: a in addrs <==> a in end.contracts && end.contracts[a].code == id)
        && forall i, j | 0 <= i < j < |addrs| ::
          addrs[i] != addrs[j] && Before(UpdatedAt(end, addrs[i]), addrs[i], UpdatedAt(end, addrs[j]), addrs[j])
    {
      ghost var end := Run(chain, reg, ops);
      RunKeepsInv(chain, reg, ops, n);
      addrs := ContractsByCode(id, end);
      forall a ensures (exists at :: IndexedByCode(end, id, at, a)) <==> a in end.contracts && end.contracts[a].code == id {
        if a in end.contracts { assert Consistent(chain, end, a); }
        ByCodeMatchesRecord(end, id, a);
      }
      forall i, j | 0 <= i < j < |addrs| ensures addrs[i] != addrs[j] { BeforeTotal(UpdatedAt(end, addrs[i]), addrs[i], Pos(0, 0), []); }
    }

    /** And iterating by creator, exactly the contracts the creator has instantiated, each
        once, in order of creation. */
    method ContractsByCreatorOfRun(creator: Addr, ghost reg: Registry, ghost ops: seq<Op>, ghost n: nat) returns (addrs: seq<Addr>)
      requires Inv(chain, reg, n) && n + |ops| + 2 < TWO_64 && Represents(store, Run(chain, reg, ops)) && |creator| <= 255
      ensures var end := Run(chain, reg, ops);
        && (forall a :: a in addrs <==> a in end.contracts && end.contracts[a].creator == creator)
        && forall i, j | 0 <= i < j < |addrs| ::
          addrs[i] != addrs[j] && Before(end.contracts[addrs[i]].created, addrs[i], end.contracts[addrs[j]].created, addrs[j])
    {
      ghost var end := Run(chain, reg, ops);
      RunKeepsInv(chain, reg, ops, n);
      var found := ContractsByCreator(creator, end);
      addrs := found.value;
      forall a ensures (exists at :: IndexedByCreator(end, creator, at, a)) <==> a in end.contracts && end.contracts[a].creator == creator {
        if a in end.contracts {
          assert Consistent(chain, end, a);
          assert IndexedByCreator(end, end.contracts[a].creator, end.contracts[a].created, a);
        }
      }
      forall i | 0 <= i < |addrs| ensures addrs[i] in end.contracts { assert addrs[i] in addrs; }
      CreatedInOrder(chain, end, addrs);
    }
  }

  ghost function Indexed(f: Image, a: Addr, creator: Addr, e: HistoryEntry): Image {
    Upd(Upd(f, ByCodeKey(e.code, e.updated, a), Some(Mark)), ByCreatorKey(creator, e.updated, a), Some(Mark))
  }

  /** Changing a sequence changes what one key holds. */
  lemma SequenceImage(reg: Registry, next: U64)
    ensures forall k :: Expect(reg.(codeSeq := Some(next)), k) == if k.CodeSequence? then Some(SequenceV(next)) else Expect(reg, k)
    ensures forall k :: Expect(reg.(instanceSeq := Some(next)), k) == if k.InstanceSequence? then Some(SequenceV(next)) else Expect(reg, k)
  {
  }

  function Changed(info: ContractInfo, admin: Option<Option<Addr>>, name: Option<string>): ContractInfo {
    info.(admin := if admin.Some? then admin.value else info.admin, name := if name.Some? then name.value else info.name)
  }

  /** When a contract got its current code, and when it was created. */
  function UpdatedAt(reg: Registry, a: Addr): Pos {
    var h := HistoryOf(reg, a);
    if h == [] then Pos(0, 0) else Last(h).updated
  }

  function CreatedAt(reg: Registry, a: Addr): Pos {
    var h := HistoryOf(reg, a);
    if h == [] then Pos(0, 0) else h[0].updated
  }

  lemma CreatedInOrder(chain: Chain, reg: Registry, addrs: seq<Addr>)
    requires AllConsistent(chain, reg) && forall i | 0 <= i < |addrs| :: addrs[i] in reg.contracts
    requires forall i, j | 0 <= i < j < |addrs| :: Before(CreatedAt(reg, addrs[i]), addrs[i], CreatedAt(reg, addrs[j]), addrs[j])
    ensures forall i, j | 0 <= i < j < |addrs| ::
      addrs[i] != addrs[j] && Before(reg.contracts[addrs[i]].created, addrs[i], reg.contracts[addrs[j]].created, addrs[j])
  {
    forall i, j | 0 <= i < j < |addrs|
      ensures addrs[i] != addrs[j] && Before(reg.contracts[addrs[i]].created, addrs[i], reg.contracts[addrs[j]].created, addrs[j])
    {
      assert Consistent(chain, reg, addrs[i]) && Consistent(chain, reg, addrs[j]);
      BeforeTotal(CreatedAt(reg, addrs[i]), addrs[i], Pos(0, 0), []);
    }
  }

  lemma ByCodeKeysComplete(store: Flat, reg: Registry, id: U64)
    requires Represents(store, reg)
    ensures forall k | k in store && ByCodePrefix(id) <= k :: |k| >= |ByCodePrefix(id)| + 16
  {
    forall k | k in store && ByCodePrefix(id) <= k ensures |k| >= |ByCodePrefix(id)| + 16 {
      assert k[0] == 6 && Lookup(store, k) == Expect(reg, Parse(k));
      ByCodePrefixExact(k, id);
    }
  }

  lemma ByCreatorKeysComplete(store: Flat, reg: Registry, creator: Addr)
    requires Represents(store, reg) && |creator| <= 255
    ensures forall k | k in store && ByCreatorPrefix(creator) <= k :: |k| >= |ByCreatorPrefix(creator)| + 16
  {
    forall k | k in store && ByCreatorPrefix(creator) <= k ensures |k| >= |ByCreatorPrefix(creator)| + 16 {
      assert k[0] == 9 && Lookup(store, k) == Expect(reg, Parse(k));
      ByCreatorPrefixExact(k, creator);
    }
  }

  lemma ListedByCode(store: Flat, reg: Registry, id: U64, ats: seq<Pos>, addrs: seq<Addr>)
    requires Represents(store, reg) && IsListing(store, ByCodePrefix(id), ats, addrs)
    ensures forall a :: a in addrs <==> exists at :: IndexedByCode(reg, id, at, a)
    ensures forall i, j | 0 <= i < j < |addrs| :: Before(UpdatedAt(reg, addrs[i]), addrs[i], UpdatedAt(reg, addrs[j]), addrs[j])
  {
    forall i | 0 <= i < |addrs| ensures IndexedByCode(reg, id, ats[i], addrs[i]) && ats[i] == UpdatedAt(reg, addrs[i]) {
      At(store, ImageOf(reg), ByCodeKey(id, ats[i], addrs[i]));
      assert EntryKey(ByCodePrefix(id), ats[i], addrs[i]) == Enc(ByCodeKey(id, ats[i], addrs[i]));
    }
    forall a, at | IndexedByCode(reg, id, at, a) ensures a in addrs {
      At(store, ImageOf(reg), ByCodeKey(id, at, a));
      assert EntryKey(ByCodePrefix(id), at, a) in store;
      assert Listed(ats, addrs, at, a);
    }
  }

  lemma ListedByCreator(store: Flat, reg: Registry, creator: Addr, ats: seq<Pos>, addrs: seq<Addr>)
    requires Represents(store, reg) && |creator| <= 255 && IsListing(store, ByCreatorPrefix(creator), ats, addrs)
    ensures forall a :: a in addrs <==> exists at :: IndexedByCreator(reg, creator, at, a)
    ensures forall i, j | 0 <= i < j < |addrs| :: Before(CreatedAt(reg, addrs[i]), addrs[i], CreatedAt(reg, addrs[j]), addrs[j])
  {
    forall i | 0 <= i < |addrs| ensures IndexedByCreator(reg, creator, ats[i], addrs[i]) && ats[i] == CreatedAt(reg, addrs[i]) {
      At(store, ImageOf(reg), ByCreatorKey(creator, ats[i], addrs[i]));
      assert EntryKey(ByCreatorPrefix(creator), ats[i], addrs[i]) == Enc(ByCreatorKey(creator, ats[i], addrs[i]));
    }
    forall a, at | IndexedByCreator(reg, creator, at, a) ensures a in addrs {
      At(store, ImageOf(reg), ByCreatorKey(creator, at, a));
      assert EntryKey(ByCreatorPrefix(creator), at, a) in store;
      assert Listed(ats, addrs, at, a);
    }
  }

  /** In any registry the store represents, however it came about: the indexes hold exactly
      one entry per contract with a history, by code for its last entry, by creator for its
      first. Where record and history agree these are current code and creation. */
  lemma IndexesAgree(store: Flat, chain: Chain, reg: Registry, k: Key)
    requires Represents(store, reg) && Proper(k)
    ensures k.ByCodeKey? ==> (Enc(k) in store <==> IndexedByCode(reg, k.id, k.at, k.addr))
    ensures k.ByCreatorKey? ==> (Enc(k) in store <==> IndexedByCreator(reg, k.creator, k.at, k.addr))
    ensures k.ByCodeKey? && k.addr in reg.contracts && Consistent(chain, reg, k.addr) ==>
      (Enc(k) in store <==> k.id == reg.contracts[k.addr].code && k.at == Last(HistoryOf(reg, k.addr)).updated)
    ensures k.ByCreatorKey? && k.addr in reg.contracts && Consistent(chain, reg, k.addr) ==>
      (Enc(k) in store <==> k.creator == reg.contracts[k.addr].creator && k.at == reg.contracts[k.addr].created)
  {
    At(store, ImageOf(reg), k);
  }

  /** A contract is indexed under one code, that of its last history entry; so it is indexed
      under the code its record names if and only if the two agree. */
  lemma ByCodeMatchesRecord(reg: Registry, id: U64, a: Addr)
    ensures (exists at :: IndexedByCode(reg, id, at, a)) <==>
      a in reg.contracts && HistoryOf(reg, a) != [] && id == Last(HistoryOf(reg, a)).code
    ensures a in reg.contracts ==>
      ((exists at :: IndexedByCode(reg, reg.contracts[a].code, at, a)) <==>
        HistoryOf(reg, a) != [] && reg.contracts[a].code == Last(HistoryOf(reg, a)).code)
  {
    var h := HistoryOf(reg, a);
    if a in reg.contracts && h != [] {
      assert IndexedByCode(reg, Last(h).code, Last(h).updated, a);
    }
  }

  /** migrate finds a history and the old code of every registered contract of every run. */
  lemma MigrateNeverPanics(chain: Chain, reg: Registry, ops: seq<Op>, n: nat, a: Addr)
    requires Inv(chain, reg, n) && n + |ops| + 2 < TWO_64 && a in Run(chain, reg, ops).contracts
    ensures var end := Run(chain, reg, ops);
      HistoryOf(end, a) != [] && end.contracts[a].code in end.codes
  {
    RunKeepsInv(chain, reg, ops, n);
    assert Consistent(chain, Run(chain, reg, ops), a);
  }

  lemma MovedImage(reg: Registry, a: Addr, info: ContractInfo, was: HistoryEntry, e: HistoryEntry)
    requires a in reg.contracts && HistoryOf(reg, a) != [] && Last(HistoryOf(reg, a)) == was && info.creator == reg.contracts[a].creator
    requires |HistoryOf(reg, a)| + 1 < TWO_64
    ensures var reg' := reg.(history := reg.history[a := HistoryOf(reg, a) + [e]], contracts := reg.contracts[a := info]);
      forall k :: Expect(reg', k) ==
        if k == ContractKey(a) then Some(ContractV(info))
        else if k == ByCodeKey(e.code, e.updated, a) then Some(Mark)
        else if k == HistoryKey(a, |HistoryOf(reg, a)| + 1) then Some(HistoryV(e))
        else if k == ByCodeKey(was.code, was.updated, a) then None
        else Expect(reg, k)
  {
  }

  lemma {:induction false} WriteStateConcat(state: map<Bytes, Bytes>, a: Addr, ws: seq<StateWrite>, vs: seq<StateWrite>)
    ensures WriteState(state, a, ws + vs) == WriteState(WriteState(state, a, ws), a, vs)
    decreases ws
  {
    if ws == [] {
      assert ws + vs == vs;
    } else {
      assert (ws + vs)[1..] == ws[1..] + vs;
      var (k, v) := ws[0];
      WriteStateConcat(if v.Some? then state[a + k := v.value] else state - {a + k}, a, ws[1..], vs);
    }
  }

  lemma WriteStateSnoc(state: map<Bytes, Bytes>, a: Addr, ws: seq<StateWrite>, i: nat)
    requires i < |ws|
    ensures var s := WriteState(state, a, ws[..i]);
      WriteState(state, a, ws[..i + 1])
        == if ws[i].1.Some? then s[a + ws[i].0 := ws[i].1.value] else s - {a + ws[i].0}
  {
    var one: seq<StateWrite> := [ws[i]];
    assert ws[..i + 1] == ws[..i] + one && one[1..] == [];
    WriteStateConcat(state, a, ws[..i], one);
  }

  lemma InstanceStored(store: Flat, reg: Registry, a: Addr, info: ContractInfo, e: HistoryEntry)
    requires a !in reg.contracts && HistoryOf(reg, a) == [] && e.code == info.code && e.updated == info.created
    requires Holds(store, Upd(Upd(Indexed(ImageOf(reg), a, info.creator, e), HistoryKey(a, 1), Some(HistoryV(e))), ContractKey(a), Some(ContractV(info))))
    ensures Represents(store, reg.(history := reg.history[a := HistoryOf(reg, a) + [e]], contracts := reg.contracts[a := info]))
  {
    InstanceImage(reg, a, info, e);
    SameImage(store, Upd(Upd(Indexed(ImageOf(reg), a, info.creator, e), HistoryKey(a, 1), Some(HistoryV(e))), ContractKey(a), Some(ContractV(info))),
              ImageOf(reg.(history := reg.history[a := HistoryOf(reg, a) + [e]], contracts := reg.contracts[a := info])));
  }

  /** The four writes of an instantiation give exactly the image of the new registry. */
  lemma InstanceImage(reg: Registry, a: Addr, info: ContractInfo, e: HistoryEntry)
    requires a !in reg.contracts && HistoryOf(reg, a) == [] && e.code == info.code && e.updated == info.created
    ensures var reg' := reg.(history := reg.history[a := HistoryOf(reg, a) + [e]], contracts := reg.contracts[a := info]);
      forall k :: Expect(reg', k) ==
        if k == ContractKey(a) then Some(ContractV(info))
        else if k == HistoryKey(a, 1) then Some(HistoryV(e))
        else if k == ByCreatorKey(info.creator, e.updated, a) || k == ByCodeKey(e.code, e.updated, a) then Some(Mark)
        else Expect(reg, k)
  {
  }
}
