/** The contract registry as plain data: codes, contracts, histories, sequences, and
    every operation that changes them. */
module Registry {
  import opened Bytes
  import opened Keys
  import opened Policy
  import opened Addresses

  datatype CodeInfo = CodeInfo(hash: Bytes, creator: Addr, access: AccessConfig)

  datatype ContractInfo = ContractInfo(
    code: U64, creator: Addr, admin: Option<Addr>, name: string, created: Pos, port: Option<Bytes>)

  datatype Origination = Init | Migration | FromGenesis
  datatype HistoryEntry = HistoryEntry(operation: Origination, code: U64, updated: Pos, msg: Bytes)

  datatype Params = Params(upload: AccessConfig, instantiateDefault: AccessType)

  datatype Registry = Registry(
    codes: map<U64, CodeInfo>,
    contracts: map<Addr, ContractInfo>,
    history: map<Addr, seq<HistoryEntry>>,
    state: map<Bytes, Bytes>,
    pinned: set<U64>,
    codeSeq: Option<U64>,
    instanceSeq: Option<U64>,
    params: Option<Params>)

  const EMPTY := Registry(map[], map[], map[], map[], {}, None, None, None)

  // ---- the VM and the hash, as parameters ----

  datatype Report = Report(ibc: bool, migrateVersion: Option<U64>)

  datatype Chain = Chain(hash: Hash, report: Bytes -> Option<Report>)

  /** PortIDForContract: "wasm." before the address. */
  function PortFor(a: Addr): Bytes { [119, 97, 115, 109, 46] + a }

  type StateWrite = (Bytes, Option<Bytes>)

  /** What the environment answers during an operation: account and deposit checks,
      the VM's state writes or its failure, and port binding. */
  datatype Env = Env(accountOk: bool, vm: Option<seq<StateWrite>>, bindOk: bool)

  datatype Generator = ClassicGenerator | PredictableGenerator(salt: Bytes, msg: Bytes)

  datatype Op =
    | Create(creator: Addr, hash: Bytes, access: Option<AccessConfig>, policy: Policy, vmOk: bool)
    | Instantiate(code: U64, creator: Addr, admin: Option<Addr>, name: string, msg: Bytes,
                  generator: Generator, at: Pos, policy: Policy, env: Env)
    | Migrate(addr: Addr, caller: Addr, newCode: U64, msg: Bytes, at: Pos, policy: Policy, env: Env)
    | SetAdmin(addr: Addr, caller: Addr, newAdmin: Option<Addr>, policy: Policy)
    | SetLabel(addr: Addr, caller: Addr, newLabel: string, policy: Policy)
    | SetAccess(id: U64, caller: Addr, config: AccessConfig, policy: Policy)
    | Pin(id: U64, vmOk: bool)
    | Unpin(id: U64, vmOk: bool)
    | Execute(addr: Addr, writes: seq<StateWrite>)
    | SetParams(params: Params)

  // ---- helpers ----

  /** mustAutoIncrementID: the id handed out; the stored value is one more. */
  function NextId(s: Option<U64>): U64 { if s.Some? then s.value else 1 }

  function Bumped(s: Option<U64>): U64 { (NextId(s) + 1) % TWO_64 }

  /** AccessType.With */
  function With(t: AccessType, creator: Addr): AccessConfig {
    AccessConfig(t, if t.AnyOfAddresses? then [creator] else [])
  }

  function WriteState(state: map<Bytes, Bytes>, a: Addr, ws: seq<StateWrite>): map<Bytes, Bytes>
    decreases ws
  {
    if ws == [] then state
    else
      var (k, v) := ws[0];
      WriteState(if v.Some? then state[a + k := v.value] else state - {a + k}, a, ws[1..])
  }

  function EntriesOf(history: map<Addr, seq<HistoryEntry>>, a: Addr): seq<HistoryEntry> {
    if a in history then history[a] else []
  }

  function HistoryOf(reg: Registry, a: Addr): seq<HistoryEntry> { EntriesOf(reg.history, a) }

  function Last<T>(s: seq<T>): T
    requires s != []
  {
    s[|s| - 1]
  }

  /** The address an instantiation gets, and the instance sequence after it. None is a panic. */
  function Generate(chain: Chain, reg: Registry, code: U64, hash: Bytes, creator: Addr, g: Generator): Option<(Addr, Option<U64>)> {
    match g
    case ClassicGenerator =>
      Some((AddressOf(chain.hash, Classic(code, NextId(reg.instanceSeq))), Some(Bumped(reg.instanceSeq))))
    case PredictableGenerator(salt, msg) =>
      var o := Origin(hash, creator, salt, msg);
      if Valid(o) then Some((AddressOf(chain.hash, Predictable(o)), reg.instanceSeq)) else None
  }

  // ---- the operations; None is an error or a panic, which rolls everything back ----

  function DoCreate(reg: Registry, op: Op): Option<Registry>
    requires op.Create?
  {
    if reg.params.None? || reg.params.value.instantiateDefault.Unspecified? then None
    else
      var default := With(reg.params.value.instantiateDefault, op.creator);
      var access := if op.access.Some? then op.access.value else default;
      if !Permits(op.policy, CreateCode(reg.params.value.upload, default, op.creator, access)) || !op.vmOk then None
      else
        var id := NextId(reg.codeSeq);
        Some(reg.(codeSeq := Some(Bumped(reg.codeSeq)), codes := reg.codes[id := CodeInfo(op.hash, op.creator, access)]))
  }

  /** instantiate, once code, permission and address are settled. */
  function Persist(chain: Chain, reg: Registry, op: Op, a: Addr, hash: Bytes): Option<Registry>
    requires op.Instantiate?
  {
    if a in reg.contracts || !op.env.accountOk || op.env.vm.None? then None
    else match chain.report(hash)
    case None => None
    case Some(report) =>
      if (report.ibc && !op.env.bindOk) || |op.creator| > MAX_ADDR_LEN then None
      else
        var info := ContractInfo(op.code, op.creator, op.admin, op.name, op.at, if report.ibc then Some(PortFor(a)) else None);
        Some(reg.(
          state := WriteState(reg.state, a, op.env.vm.value),
          history := reg.history[a := HistoryOf(reg, a) + [HistoryEntry(Init, op.code, op.at, op.msg)]],
          contracts := reg.contracts[a := info]))
  }

  function DoInstantiate(chain: Chain, reg: Registry, op: Op): Option<Registry>
    requires op.Instantiate?
  {
    if op.creator == [] || op.code !in reg.codes then None
    else
      var code := reg.codes[op.code];
      if !Permits(op.policy, UseCode(code.access, op.creator)) then None
      else match Generate(chain, reg, op.code, code.hash, op.creator, op.generator)
      case None => None
      case Some((a, seq')) => Persist(chain, reg.(instanceSeq := seq'), op, a, code.hash)
  }

  /** The port after a migration; None when the migration is refused. */
  function MigratedPort(port: Option<Bytes>, a: Addr, ibc: bool, bindOk: bool): Option<Option<Bytes>> {
    if !ibc && port.Some? then None
    else if ibc && port.None? then (if bindOk then Some(Some(PortFor(a))) else None)
    else Some(port)
  }

  /** The migrate entry point is skipped only when both versions are set and equal. */
  predicate CallsEntryPoint(was: Report, now: Report) {
    now.migrateVersion.None? || was.migrateVersion.None? || was.migrateVersion != now.migrateVersion
  }

  function DoMigrate(chain: Chain, reg: Registry, op: Op): Option<Registry>
    requires op.Migrate?
  {
    if op.addr !in reg.contracts then None
    else
      var info := reg.contracts[op.addr];
      if !Permits(op.policy, ModifyContract(info.admin, op.caller)) || op.newCode !in reg.codes then None
      else
        var code := reg.codes[op.newCode];
        if !Permits(op.policy, UseCode(code.access, op.caller)) || info.code !in reg.codes then None
        else match (chain.report(code.hash), chain.report(reg.codes[info.code].hash))
        case (Some(now), Some(was)) =>
          var port := MigratedPort(info.port, op.addr, now.ibc, op.env.bindOk);
          var calls := CallsEntryPoint(was, now);
          if port.None? || (calls && op.env.vm.None?) || HistoryOf(reg, op.addr) == [] then None
          else
            Some(reg.(
              state := if calls then WriteState(reg.state, op.addr, op.env.vm.value) else reg.state,
              history := reg.history[op.addr := HistoryOf(reg, op.addr) + [HistoryEntry(Migration, op.newCode, op.at, op.msg)]],
              contracts := reg.contracts[op.addr := info.(code := op.newCode, port := port.value)]))
        case _ => None
  }

  /** setContractAdmin and setContractLabel */
  function DoUpdate(reg: Registry, a: Addr, caller: Addr, policy: Policy, updated: ContractInfo): Option<Registry> {
    if a !in reg.contracts || !Permits(policy, ModifyContract(reg.contracts[a].admin, caller)) then None
    else Some(reg.(contracts := reg.contracts[a := updated]))
  }

  function DoSetAccess(reg: Registry, op: Op): Option<Registry>
    requires op.SetAccess?
  {
    if op.id !in reg.codes || reg.params.None? then None
    else
      var info := reg.codes[op.id];
      var isSubset := TypeIsSubset(op.config.permission, reg.params.value.instantiateDefault);
      if !Permits(op.policy, ModifyCodeAccess(Some(info.creator), op.caller, isSubset)) then None
      else Some(reg.(codes := reg.codes[op.id := info.(access := op.config)]))
  }

  function Step(chain: Chain, reg: Registry, op: Op): Option<Registry> {
    match op
    case Create(_, _, _, _, _) => DoCreate(reg, op)
    case Instantiate(_, _, _, _, _, _, _, _, _) => DoInstantiate(chain, reg, op)
    case Migrate(_, _, _, _, _, _, _) => DoMigrate(chain, reg, op)
    case SetAdmin(a, caller, admin, policy) =>
      if a !in reg.contracts then None else DoUpdate(reg, a, caller, policy, reg.contracts[a].(admin := admin))
    case SetLabel(a, caller, name, policy) =>
      if a !in reg.contracts then None else DoUpdate(reg, a, caller, policy, reg.contracts[a].(name := name))
    case SetAccess(_, _, _, _) => DoSetAccess(reg, op)
    case Pin(id, vmOk) => if id in reg.codes && vmOk then Some(reg.(pinned := reg.pinned + {id})) else None
    case Unpin(id, vmOk) => if id in reg.codes && vmOk then Some(reg.(pinned := reg.pinned - {id})) else None
    case Execute(a, writes) =>
      if a in reg.contracts && reg.contracts[a].code in reg.codes then Some(reg.(state := WriteState(reg.state, a, writes))) else None
    case SetParams(p) => Some(reg.(params := Some(p)))
  }

  /** A run: failed operations change nothing. */
  function Run(chain: Chain, reg: Registry, ops: seq<Op>): Registry
    decreases |ops|
  {
    if ops == [] then reg
    else
      var before := Run(chain, reg, ops[..|ops| - 1]);
      match Step(chain, before, ops[|ops| - 1])
      case Some(after) => after
      case None => before
  }

  // ---- the invariant of all reachable registries ----

  /** One contract: its record, history, code and port agree. */
  ghost predicate Consistent(chain: Chain, reg: Registry, a: Addr)
    requires a in reg.contracts
  {
    var info, h := reg.contracts[a], HistoryOf(reg, a);
    && h != []
    && info.code == Last(h).code && info.code in reg.codes
    && info.created == h[0].updated && Accepted(a) && Accepted(info.creator)
    && chain.report(reg.codes[info.code].hash).Some?
    && info.port == (if chain.report(reg.codes[info.code].hash).value.ibc then Some(PortFor(a)) else None)
  }

  /** What is hashed into the address of a new contract, if the operation gets that far. */
  function KeysOf(reg: Registry, op: Op): set<Bytes> {
    if !op.Instantiate? || op.creator == [] || op.code !in reg.codes || !Permits(op.policy, UseCode(reg.codes[op.code].access, op.creator)) then {}
    else match op.generator
      case ClassicGenerator => {ClassicKey(op.code, NextId(reg.instanceSeq))}
      case PredictableGenerator(salt, msg) =>
        var o := Origin(reg.codes[op.code].hash, op.creator, salt, msg);
        if Valid(o) then {PredictableKey(o)} else {}
  }

  /** Everything a run hashes into addresses. */
  function Hashed(chain: Chain, reg: Registry, ops: seq<Op>): set<Bytes>
    decreases |ops|
  {
    if ops == [] then {}
    else Hashed(chain, reg, ops[..|ops| - 1]) + KeysOf(Run(chain, reg, ops[..|ops| - 1]), ops[|ops| - 1])
  }

  /** Where a generated address came from: one of the hashed keys, with a used instance id
      or a valid origin. */
  ghost predicate Derived(chain: Chain, keys: set<Bytes>, a: Addr, nextInstance: U64) {
    exists d: Derivation :: WellFormed(d) && KeyOf(d) in keys && a == AddressOf(chain.hash, d) && (d.Classic? ==> d.instanceId < nextInstance)
  }

  ghost predicate Owned(contracts: map<Addr, ContractInfo>, path: Bytes) {
    exists a :: a in contracts && a <= path
  }

  ghost predicate AllConsistent(chain: Chain, reg: Registry) {
    forall a | a in reg.contracts :: Consistent(chain, reg, a)
  }

  /** Every contract that was not there initially has a generated address. */
  ghost predicate AllDerived(chain: Chain, reg: Registry, keys: set<Bytes>, initial: set<Addr>) {
    forall a | a in reg.contracts && a !in initial :: Derived(chain, keys, a, NextId(reg.instanceSeq))
  }

  ghost predicate AllOwned(reg: Registry) {
    forall p | p in reg.state :: Owned(reg.contracts, p)
  }

  /** Sequences and histories; n bounds the number of operations so far, which keeps
      64-bit counters from wrapping. */
  ghost predicate Counted(reg: Registry, n: nat) {
    && reg.history.Keys == reg.contracts.Keys
    && (forall a | a in reg.history :: |reg.history[a]| <= n)
    && reg.pinned <= reg.codes.Keys
    && (forall id | id in reg.codes :: id < NextId(reg.codeSeq))
    && 1 <= NextId(reg.codeSeq) <= n + 1 && NextId(reg.instanceSeq) <= n + 1
  }

  ghost predicate Inv(chain: Chain, reg: Registry, n: nat) {
    AllConsistent(chain, reg) && AllOwned(reg) && Counted(reg, n)
  }

  lemma {:induction false} WriteStatePaths(state: map<Bytes, Bytes>, a: Addr, ws: seq<StateWrite>, p: Bytes)
    ensures p in WriteState(state, a, ws) ==> p in state || a <= p
    ensures !(a <= p) ==> (p in WriteState(state, a, ws) <==> p in state)
    ensures !(a <= p) && p in state ==> WriteState(state, a, ws)[p] == state[p]
    decreases ws
  {
    if ws != [] {
      var (k, v) := ws[0];
      WriteStatePaths(if v.Some? then state[a + k := v.value] else state - {a + k}, a, ws[1..], p);
    }
  }
}
