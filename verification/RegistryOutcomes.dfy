/** What each registry operation needs and what it leaves, said of its inputs alone: when the
    migrate entry point runs, the record of a new contract, and whose consent a change takes. */
module RegistryOutcomes {
  import opened Bytes
  import opened Scans
  import opened Policy
  import opened Addresses
  import opened Registry
  import opened RegistryLaws

  // ---- contract state after a VM run ----

  /** The last write to a key, if there is one: a value, or a deletion. */
  function LastWrite(ws: seq<StateWrite>, k: Bytes): Option<Option<Bytes>>
    decreases |ws|
  {
    if ws == [] then None
    else if ws[|ws| - 1].0 == k then Some(ws[|ws| - 1].1)
    else LastWrite(ws[..|ws| - 1], k)
  }

  /** Every key of the contract holds its last write, else its old value; nothing else changed. */
  ghost predicate Wrote(before: map<Bytes, Bytes>, after: map<Bytes, Bytes>, a: Addr, ws: seq<StateWrite>) {
    && (forall k :: Lookup(after, a + k) == if LastWrite(ws, k).Some? then LastWrite(ws, k).value else Lookup(before, a + k))
    && (forall p | !(a <= p) :: Lookup(after, p) == Lookup(before, p))
  }

  lemma {:induction false} LastWriteFirst(ws: seq<StateWrite>, k: Bytes)
    requires ws != []
    ensures LastWrite(ws, k) ==
      if LastWrite(ws[1..], k).Some? then LastWrite(ws[1..], k) else if ws[0].0 == k then Some(ws[0].1) else None
    decreases |ws|
  {
    if |ws| > 1 {
      assert ws[..|ws| - 1][1..] == ws[1..][..|ws| - 2];
      LastWriteFirst(ws[..|ws| - 1], k);
    }
  }

  lemma SameSuffix(a: Bytes, x: Bytes, y: Bytes)
    ensures a + x == a + y <==> x == y
  {
    assert (a + x)[|a|..] == x && (a + y)[|a|..] == y;
  }

  lemma {:induction false} WritesKey(state: map<Bytes, Bytes>, a: Addr, ws: seq<StateWrite>, k: Bytes)
    ensures Lookup(WriteState(state, a, ws), a + k) ==
      if LastWrite(ws, k).Some? then LastWrite(ws, k).value else Lookup(state, a + k)
    decreases ws
  {
    if ws != [] {
      var (x, v) := ws[0];
      WritesKey(if v.Some? then state[a + x := v.value] else state - {a + x}, a, ws[1..], k);
      LastWriteFirst(ws, k);
      SameSuffix(a, x, k);
    }
  }

  lemma StateWritten(state: map<Bytes, Bytes>, a: Addr, ws: seq<StateWrite>)
    ensures Wrote(state, WriteState(state, a, ws), a, ws)
  {
    forall k { WritesKey(state, a, ws, k); }
    forall p | !(a <= p) ensures Lookup(WriteState(state, a, ws), p) == Lookup(state, p) { WriteStatePaths(state, a, ws, p); }
  }

  // ---- migration ----

  /** Both codes have a migrate version, and the same one. */
  predicate SameVersion(was: Report, now: Report) {
    match (was.migrateVersion, now.migrateVersion)
    case (Some(x), Some(y)) => x == y
    case _ => false
  }

  /** The reports of the old and the new code of a migration. */
  predicate Analyzed(chain: Chain, reg: Registry, op: Op)
    requires op.Migrate?
  {
    && op.addr in reg.contracts && reg.contracts[op.addr].code in reg.codes && op.newCode in reg.codes
    && chain.report(reg.codes[op.newCode].hash).Some? && chain.report(reg.codes[reg.contracts[op.addr].code].hash).Some?
  }

  function OldReport(chain: Chain, reg: Registry, op: Op): Report
    requires op.Migrate? && Analyzed(chain, reg, op)
  {
    chain.report(reg.codes[reg.contracts[op.addr].code].hash).value
  }

  function NewReport(chain: Chain, reg: Registry, op: Op): Report
    requires op.Migrate? && Analyzed(chain, reg, op)
  {
    chain.report(reg.codes[op.newCode].hash).value
  }

  /** A migration succeeds if and only if contract and codes are there and have a report, the
      policy permits changing the contract and using the new code, IBC entry points do not get
      lost, a new port can be bound, and the VM answers unless both codes have one version. */
  lemma MigrateSucceedsIff(chain: Chain, reg: Registry, op: Op)
    requires op.Migrate?
    ensures Step(chain, reg, op).Some? <==>
      && Analyzed(chain, reg, op) && HistoryOf(reg, op.addr) != []
      && Permits(op.policy, ModifyContract(reg.contracts[op.addr].admin, op.caller))
      && Permits(op.policy, UseCode(reg.codes[op.newCode].access, op.caller))
      && (reg.contracts[op.addr].port.Some? ==> NewReport(chain, reg, op).ibc)
      && (reg.contracts[op.addr].port.None? && NewReport(chain, reg, op).ibc ==> op.env.bindOk)
      && (!SameVersion(OldReport(chain, reg, op), NewReport(chain, reg, op)) ==> op.env.vm.Some?)
  {
  }

  /** What it leaves. If one code has no version or they differ, the entry point has run: every
      key of the contract holds its last write. If both have one version the state is what it
      was. In both cases record and history name the new code, and nothing else has changed. */
  lemma MigrateLeaves(chain: Chain, reg: Registry, op: Op)
    requires op.Migrate? && Step(chain, reg, op).Some?
    ensures var r, info := Step(chain, reg, op).value, reg.contracts[op.addr];
      && Analyzed(chain, reg, op)
      && (if SameVersion(OldReport(chain, reg, op), NewReport(chain, reg, op)) then r.state == reg.state
          else op.env.vm.Some? && Wrote(reg.state, r.state, op.addr, op.env.vm.value))
      && op.addr in r.contracts && r.contracts[op.addr].code == op.newCode
      && r.contracts[op.addr].(code := 0, port := None) == info.(code := 0, port := None)
      && r.contracts[op.addr].port == (if info.port.None? && NewReport(chain, reg, op).ibc then Some(PortFor(op.addr)) else info.port)
      && HistoryOf(r, op.addr) == HistoryOf(reg, op.addr) + [HistoryEntry(Migration, op.newCode, op.at, op.msg)]
      && (forall b | b != op.addr :: Lookup(r.contracts, b) == Lookup(reg.contracts, b) && Lookup(r.history, b) == Lookup(reg.history, b))
      && r == reg.(contracts := r.contracts, history := r.history, state := r.state)
  {
    if op.env.vm.Some? { StateWritten(reg.state, op.addr, op.env.vm.value); }
  }

  /** Where both codes have one version the VM's answer does not matter at all. */
  lemma SameVersionIgnoresVm(chain: Chain, reg: Registry, op: Op, vm: Option<seq<StateWrite>>)
    requires op.Migrate? && Analyzed(chain, reg, op) && SameVersion(OldReport(chain, reg, op), NewReport(chain, reg, op))
    ensures Step(chain, reg, op.(env := op.env.(vm := vm))) == Step(chain, reg, op)
  {
  }

  // ---- instantiation ----

  /** The address a new contract gets: from the counter, or from the four fields of its origin. */
  function NewAddress(chain: Chain, reg: Registry, op: Op): Option<Addr>
    requires op.Instantiate? && op.code in reg.codes
  {
    match op.generator
    case ClassicGenerator => Some(chain.hash(ClassicKey(op.code, if reg.instanceSeq.Some? then reg.instanceSeq.value else 1)))
    case PredictableGenerator(salt, msg) =>
      var hash := reg.codes[op.code].hash;
      if |hash| == 32 && 0 < |op.creator| <= 255 && 0 < |salt| <= 64 && |msg| < TWO_64
      then Some(chain.hash(PredictableKey(Origin(hash, op.creator, salt, msg)))) else None
  }

  /** An instantiation succeeds if and only if there is a creator, the code is stored, has a
      report and may be used, the address can be built and is free, and VM, account checks and
      port binding agree. */
  lemma InstantiateSucceedsIff(chain: Chain, reg: Registry, op: Op)
    requires op.Instantiate?
    ensures Step(chain, reg, op).Some? <==>
      && 0 < |op.creator| <= 255 && op.code in reg.codes && chain.report(reg.codes[op.code].hash).Some?
      && Permits(op.policy, UseCode(reg.codes[op.code].access, op.creator))
      && NewAddress(chain, reg, op).Some? && NewAddress(chain, reg, op).value !in reg.contracts
      && op.env.accountOk && op.env.vm.Some?
      && (chain.report(reg.codes[op.code].hash).value.ibc ==> op.env.bindOk)
  {
  }

  /** What it leaves: the record with exactly the code, creator, admin, label and position given,
      and a port if the code has IBC entry points; one history entry; the state the VM wrote;
      and the counter one further if the address was taken from it. */
  lemma InstantiateLeaves(chain: Chain, reg: Registry, op: Op)
    requires op.Instantiate? && Step(chain, reg, op).Some?
    ensures op.code in reg.codes && NewAddress(chain, reg, op).Some? && chain.report(reg.codes[op.code].hash).Some?
    ensures var r, a := Step(chain, reg, op).value, NewAddress(chain, reg, op).value;
      && r.contracts == reg.contracts[a := ContractInfo(op.code, op.creator, op.admin, op.name, op.at,
           if chain.report(reg.codes[op.code].hash).value.ibc then Some(PortFor(a)) else None)]
      && r.history == reg.history[a := HistoryOf(reg, a) + [HistoryEntry(Init, op.code, op.at, op.msg)]]
      && op.env.vm.Some? && Wrote(reg.state, r.state, a, op.env.vm.value)
      && (op.generator.PredictableGenerator? ==> r.instanceSeq == reg.instanceSeq)
      && (op.generator.ClassicGenerator? && NextId(reg.instanceSeq) + 1 < TWO_64 ==> r.instanceSeq == Some(NextId(reg.instanceSeq) + 1))
      && r == reg.(contracts := r.contracts, history := r.history, state := r.state, instanceSeq := r.instanceSeq)
  {
    StateWritten(reg.state, NewAddress(chain, reg, op).value, op.env.vm.value);
  }

  // ---- the other operations ----

  /** Executing a registered contract writes its state and nothing else. */
  lemma ExecuteLeaves(chain: Chain, reg: Registry, op: Op)
    requires op.Execute?
    ensures Step(chain, reg, op).Some? <==> op.addr in reg.contracts && reg.contracts[op.addr].code in reg.codes
    ensures Step(chain, reg, op).Some? ==>
      var r := Step(chain, reg, op).value; r == reg.(state := r.state) && Wrote(reg.state, r.state, op.addr, op.writes)
  {
    StateWritten(reg.state, op.addr, op.writes);
  }

  /** A new code gets the next id, with the given hash, creator and access, or the default access
      if none is given; uploading must be permitted. */
  lemma CreateLeaves(chain: Chain, reg: Registry, op: Op)
    requires op.Create? && NextId(reg.codeSeq) + 1 < TWO_64
    ensures reg.params.None? ==> Step(chain, reg, op).None?
    ensures reg.params.Some? ==>
      var p := reg.params.value;
      var default := AccessConfig(p.instantiateDefault, if p.instantiateDefault.AnyOfAddresses? then [op.creator] else []);
      var access := if op.access.Some? then op.access.value else default;
      && (Step(chain, reg, op).Some? <==>
           !p.instantiateDefault.Unspecified? && op.vmOk && Permits(op.policy, CreateCode(p.upload, default, op.creator, access)))
      && (Step(chain, reg, op).Some? ==>
           Step(chain, reg, op).value == reg.(codeSeq := Some(NextId(reg.codeSeq) + 1),
             codes := reg.codes[NextId(reg.codeSeq) := CodeInfo(op.hash, op.creator, access)]))
  {
  }

  /** When the operations on one record succeed. */
  lemma UpdatesSucceedIff(chain: Chain, reg: Registry, op: Op)
    ensures op.SetAdmin? || op.SetLabel? ==>
      (Step(chain, reg, op).Some? <==> op.addr in reg.contracts && Permits(op.policy, ModifyContract(reg.contracts[op.addr].admin, op.caller)))
    ensures op.SetAccess? ==>
      (Step(chain, reg, op).Some? <==>
        && op.id in reg.codes && reg.params.Some?
        && Permits(op.policy, ModifyCodeAccess(Some(reg.codes[op.id].creator), op.caller,
                                               TypeIsSubset(op.config.permission, reg.params.value.instantiateDefault))))
    ensures op.Pin? || op.Unpin? ==> (Step(chain, reg, op).Some? <==> op.id in reg.codes && op.vmOk)
    ensures op.SetParams? ==> Step(chain, reg, op).Some?
  {
  }

  // ---- whose consent a change takes ----

  /** What ordinary users can bring about: uploads and instantiations by those who are let in,
      changes of a contract by its admin, changes of a code's access by its creator. */
  lemma OrdinaryNeedsConsent(chain: Chain, reg: Registry, op: Op)
    requires Ordinary(op) && Step(chain, reg, op).Some?
    ensures op.Create? ==> reg.params.Some? && MayUse(reg.params.value.upload, op.creator)
    ensures op.Instantiate? ==> op.code in reg.codes && MayUse(reg.codes[op.code].access, op.creator)
    ensures op.Migrate? ==>
      && op.addr in reg.contracts && reg.contracts[op.addr].admin == Some(op.caller)
      && op.newCode in reg.codes && MayUse(reg.codes[op.newCode].access, op.caller)
    ensures op.SetAdmin? || op.SetLabel? ==> op.addr in reg.contracts && reg.contracts[op.addr].admin == Some(op.caller)
    ensures op.SetAccess? ==> op.id in reg.codes && reg.codes[op.id].creator == op.caller
  {
    if op.Create? { AccessIsNeeded(reg.params.value.upload, op.creator); }
    if op.Instantiate? { AccessIsNeeded(reg.codes[op.code].access, op.creator); }
    if op.Migrate? { AccessIsNeeded(reg.codes[op.newCode].access, op.caller); }
  }

  /** Which operation can change what: the code of a contract only migrates, its admin and label
      are set by nothing else than their own operations and to what those say, creator and
      creation stay; hash and creator of a code stay, its access is set by its own operation;
      pins and parameters likewise. */
  lemma OnlyTheirOperations(chain: Chain, reg: Registry, op: Op, a: Addr, id: U64)
    requires Step(chain, reg, op).Some? && forall i | i in reg.codes :: i < NextId(reg.codeSeq)
    ensures var r := Step(chain, reg, op).value;
      && (a in reg.contracts ==>
           && a in r.contracts && r.contracts[a].creator == reg.contracts[a].creator && r.contracts[a].created == reg.contracts[a].created
           && r.contracts[a].code == (if op.Migrate? && op.addr == a then op.newCode else reg.contracts[a].code)
           && r.contracts[a].admin == (if op.SetAdmin? && op.addr == a then op.newAdmin else reg.contracts[a].admin)
           && r.contracts[a].name == (if op.SetLabel? && op.addr == a then op.newLabel else reg.contracts[a].name))
      && (a !in reg.contracts && a in r.contracts ==> op.Instantiate?)
      && (id in reg.codes ==>
           && id in r.codes && r.codes[id].hash == reg.codes[id].hash && r.codes[id].creator == reg.codes[id].creator
           && r.codes[id].access == (if op.SetAccess? && op.id == id then op.config else reg.codes[id].access))
      && (id !in reg.codes && id in r.codes ==> op.Create?)
      && (id in r.pinned <==> (op.Pin? && op.id == id) || (id in reg.pinned && !(op.Unpin? && op.id == id)))
      && r.params == (if op.SetParams? then Some(op.params) else reg.params)
  {
  }

  /** Over a whole run: the admin a contract ends up with was set by the last successful update
      of its admin, or it is the one it had. */
  function LastAdmin(chain: Chain, reg: Registry, ops: seq<Op>, a: Addr): Option<Addr>
    requires a in reg.contracts
    decreases |ops|
  {
    if ops == [] then reg.contracts[a].admin
    else
      var front, op := ops[..|ops| - 1], ops[|ops| - 1];
      if op.SetAdmin? && op.addr == a && Step(chain, Run(chain, reg, front), op).Some? then op.newAdmin
      else LastAdmin(chain, reg, front, a)
  }

  lemma {:induction false} AdminOfRun(chain: Chain, reg: Registry, ops: seq<Op>, n: nat, a: Addr)
    requires Counted(reg, n) && n + |ops| + 2 < TWO_64 && a in reg.contracts
    ensures var end := Run(chain, reg, ops); a in end.contracts && end.contracts[a].admin == LastAdmin(chain, reg, ops, a)
    decreases |ops|
  {
    if ops != [] {
      var front, op := ops[..|ops| - 1], ops[|ops| - 1];
      AdminOfRun(chain, reg, front, n, a);
      RunDerived(chain, reg, front, n);
      var before := Run(chain, reg, front);
      if Step(chain, before, op).Some? { OnlyTheirOperations(chain, before, op, a, 0); }
    }
  }
}
