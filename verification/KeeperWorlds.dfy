/** Worlds that meet the assumptions of module RegistryDispatch: contracts that answer with
    any sub-messages they like, write their state, and instantiate further contracts. */
module KeeperWorlds {
  import opened Bytes
  import opened Keys
  import opened Kv
  import opened Policy
  import opened KeeperStore
  import opened Dispatch
  import opened RegistryDispatch
  import Registry
  import WasmKeeper

  /** Any encoding of records that can be read back. */
  type Writer = Val -> Bytes

  ghost predicate Lossless(read: Reader, write: Writer) {
    ReadsState(read) && forall k: Key, v | Proper(k) && !k.StateKey? :: read(Enc(k), write(v)) == v
  }

  // ---- the records of an instantiation, as writes ----

  lemma RecordWritten(read: Reader, write: Writer, s: Store, f: Image, k: Key, v: Val)
    requires Lossless(read, write) && Proper(k) && !k.StateKey? && Holds(Shown(read, s), f)
    ensures Holds(Shown(read, s[Enc(k) := write(v)]), Upd(f, k, Some(v)))
  {
    PutHolds(Shown(read, s), f, k, v);
    assert Shown(read, s[Enc(k) := write(v)]) == Shown(read, s)[Enc(k) := v];
  }

  function InstanceWrites(write: Writer, a: Addr, info: Registry.ContractInfo, e: Registry.HistoryEntry): seq<Write>
    requires |info.creator| <= 255
  {
    [Put(Enc(ByCodeKey(e.code, e.updated, a)), write(Mark)), Put(Enc(ByCreatorKey(info.creator, e.updated, a)), write(Mark)),
     Put(Enc(HistoryKey(a, 1)), write(HistoryV(e))), Put(Enc(ContractKey(a)), write(ContractV(info)))]
  }

  lemma ApplyFirst(s: Store, w: Write, ws: seq<Write>)
    ensures Apply(s, [w] + ws) == Apply(ApplyOne(s, w), ws)
  {
    assert ([w] + ws)[1..] == ws;
  }

  lemma ApplyFour(s: Store, a: Write, b: Write, c: Write, d: Write)
    ensures Apply(s, [a, b, c, d]) == ApplyOne(ApplyOne(ApplyOne(ApplyOne(s, a), b), c), d)
  {
    var s1 := ApplyOne(s, a);
    var s2 := ApplyOne(s1, b);
    var s3 := ApplyOne(s2, c);
    assert [a] + [b, c, d] == [a, b, c, d] && [b] + [c, d] == [b, c, d] && [c] + [d] == [c, d] && [d] + [] == [d];
    ApplyFirst(s, a, [b, c, d]);
    ApplyFirst(s1, b, [c, d]);
    ApplyFirst(s2, c, [d]);
    ApplyFirst(s3, d, []);
  }

  /** The four writes of instantiate register the contract. */
  lemma InstanceWritten(read: Reader, write: Writer, s: Store, reg: Registry.Registry, a: Addr, info: Registry.ContractInfo, e: Registry.HistoryEntry)
    requires Lossless(read, write) && Represented(read, s, reg) && a !in reg.contracts && Registry.HistoryOf(reg, a) == []
    requires |info.creator| <= 255 && e.code == info.code && e.updated == info.created
    ensures Represented(read, Apply(s, InstanceWrites(write, a, info, e)),
      reg.(history := reg.history[a := Registry.HistoryOf(reg, a) + [e]], contracts := reg.contracts[a := info]))
  {
    var ws := InstanceWrites(write, a, info, e);
    ApplyFour(s, ws[0], ws[1], ws[2], ws[3]);
    var f0 := ImageOf(reg);
    RecordWritten(read, write, s, f0, ByCodeKey(e.code, e.updated, a), Mark);
    var f1 := Upd(f0, ByCodeKey(e.code, e.updated, a), Some(Mark));
    var s1 := ApplyOne(s, ws[0]);
    RecordWritten(read, write, s1, f1, ByCreatorKey(info.creator, e.updated, a), Mark);
    var s2 := ApplyOne(s1, ws[1]);
    RecordWritten(read, write, s2, WasmKeeper.Indexed(f0, a, info.creator, e), HistoryKey(a, 1), HistoryV(e));
    var s3 := ApplyOne(s2, ws[2]);
    RecordWritten(read, write, s3, Upd(WasmKeeper.Indexed(f0, a, info.creator, e), HistoryKey(a, 1), Some(HistoryV(e))), ContractKey(a), ContractV(info));
    WasmKeeper.InstanceStored(Shown(read, ApplyOne(s3, ws[3])), reg, a, info, e);
  }

  // ---- the world ----

  /** contractInstance: the record of the contract and that of its code are there. */
  predicate Found(read: Reader, s: Store, a: Addr) {
    var k := Enc(ContractKey(a));
    k in s && read(k, s[k]).ContractV? && Enc(CodeKey(read(k, s[k]).contract.code)) in s
  }

  const NOT_FOUND := Error(Plain, "wasm", 22, "no such contract")
  const AT := Pos(0, 0)

  /** The operation of an instantiating entry: code 1, at a predictable address with the
      payload as salt. */
  function Opening(entry: Entry): Op
    requires entry.Call?
  {
    Registry.Instantiate(1, entry.caller, None, "new", entry.payload, Registry.PredictableGenerator(entry.payload, []), AT,
                         Default, Registry.Env(true, Some([]), true))
  }

  /** It succeeds and gives the contract address a. */
  ghost predicate Opens(chain: Chain, reg: Registry.Registry, a: Addr, entry: Entry) {
    && entry.Call? && Registry.Step(chain, reg, Opening(entry)).Some? && 1 in reg.codes
    && Registry.Generate(chain, reg, 1, reg.codes[1].hash, entry.caller, Opening(entry).generator) == Some((a, reg.instanceSeq))
  }

  /** The registry the store represents, in order, lets the entry instantiate. */
  ghost predicate MayOpen(read: Reader, chain: Chain, s: Store, a: Addr, entry: Entry) {
    entry.Call? && entry.op.Instantiate? && 0 < |entry.caller| <= 255 && Enc(CodeKey(1)) in s
    && read(Enc(CodeKey(1)), s[Enc(CodeKey(1))]).CodeV?
    && forall reg, k: nat | Registry.Inv(chain, reg, k) && Represented(read, s, reg) :: Opens(chain, reg, a, entry)
  }

  /** The record of the new contract, given the hash of code 1. */
  function InfoFor(chain: Chain, hash: Bytes, a: Addr, entry: Entry): Registry.ContractInfo
    requires entry.Call?
  {
    var ibc := chain.report(hash).Some? && chain.report(hash).value.ibc;
    Registry.ContractInfo(1, entry.caller, None, "new", AT, if ibc then Some(Registry.PortFor(a)) else None)
  }

  function EntryFor(entry: Entry): Registry.HistoryEntry
    requires entry.Call?
  {
    Registry.HistoryEntry(Registry.Init, 1, AT, entry.payload)
  }

  ghost function Recorded(read: Reader, write: Writer, chain: Chain, s: Store, a: Addr, entry: Entry): seq<Write> {
    if MayOpen(read, chain, s, a, entry) then
      InstanceWrites(write, a, InfoFor(chain, read(Enc(CodeKey(1)), s[Enc(CodeKey(1))]).code.hash, a, entry), EntryFor(entry))
    else []
  }

  /** Registered contracts store something under a key of their own and answer as they like;
      instantiation works as in the keeper; migration is refused, native messages do nothing. */
  ghost function PlainWorld(read: Reader, write: Writer, chain: Chain, respond: (Addr, Entry) -> Response): World {
    World(10, 1,
      (s: Store, a: Addr, e: Entry) => Instance(1, if (!Changing(e) && Found(read, s, a)) || MayOpen(read, chain, s, a, e) then None else Some(NOT_FOUND)),
      (s, a, e) => [], (s, a, e) => false, (d, e) => 1, (s, a, e) => Writes(1, [], []),
      (a: Addr, e: Entry, s: Store, g: U64) => VmRun(if Changing(e) then [] else [Put([3] + (a + [0]), [1])], 1, 1, {}, VmOut.Returned(respond(a, e))),
      (s: Store, a: Addr, e: Entry) => Writes(1, Recorded(read, write, chain, s, a, e), []),
      r => 0, (m, d) => [], (a, m, s, g) => NativeRun([], 1, {}, [], Handled(MsgOk([], [], []))))
  }

  function PlainMeaning(): Meaning {
    Meaning((a: Addr, e: Entry, b: Began) => if e.Call? then Opening(e) else Registry.Execute(a, []), run => [])
  }

  // ---- it meets the assumptions ----

  lemma FoundIsRegistered(read: Reader, s: Store, a: Addr, reg: Registry.Registry)
    requires Represented(read, s, reg) && Found(read, s, a)
    ensures a in reg.contracts && reg.contracts[a].code in reg.codes
  {
    At(Shown(read, s), ImageOf(reg), ContractKey(a));
    At(Shown(read, s), ImageOf(reg), CodeKey(reg.contracts[a].code));
  }

  lemma PlainWorldExecutes(read: Reader, write: Writer, chain: Chain, respond: (Addr, Entry) -> Response)
    requires Lossless(read, write)
    ensures Executes(PlainWorld(read, write, chain, respond), read)
  {
    var w := PlainWorld(read, write, chain, respond);
    forall s, a, e, reg | Represented(read, s, reg) && !Changing(e) && w.instance(s, a, e).missing.None?
      ensures a in reg.contracts && reg.contracts[a].code in reg.codes
    {
      FoundIsRegistered(read, s, a, reg);
    }
    forall a, e, s, g | !Changing(e) ensures Within(a, w.vm(a, e, s, g).writes) {
      assert [3] + a <= [3] + (a + [0]);
    }
  }

  /** What an instantiating entry leaves: the four records and nothing else. */
  lemma BeganRecords(read: Reader, write: Writer, chain: Chain, respond: (Addr, Entry) -> Response, self: Addr, entry: Entry, st: St)
    requires Ready(st) && Changing(entry)
    ensures var b := Begin(PlainWorld(read, write, chain, respond), self, entry, st);
      b.Ok? ==> MayOpen(read, chain, st.store, self, entry) && b.st.store == Apply(st.store, Recorded(read, write, chain, st.store, self, entry))
  {
    var w := PlainWorld(read, write, chain, respond);
    LoadsNothing(read, write, chain, respond, self, entry, st);
    var l := Load(w, self, entry, st);
    if l.Ok? {
      var v := Invoke(w, self, entry, l.st);
      if v.Ok? { RecordsOnly(read, write, chain, respond, self, entry, v.value, v.st); }
    }
  }

  lemma LoadsNothing(read: Reader, write: Writer, chain: Chain, respond: (Addr, Entry) -> Response, self: Addr, entry: Entry, st: St)
    requires Ready(st) && Changing(entry)
    ensures var w := PlainWorld(read, write, chain, respond); var l := Load(w, self, entry, st);
      l.Ok? ==>
        && MayOpen(read, chain, st.store, self, entry) && l.st.store == st.store
        && (Invoke(w, self, entry, l.st).Ok? ==> Invoke(w, self, entry, l.st).st.store == st.store)
  {
  }

  lemma RecordsOnly(read: Reader, write: Writer, chain: Chain, respond: (Addr, Entry) -> Response, self: Addr, entry: Entry, run: VmRun, st: St)
    requires Ready(st)
    ensures var c := Conclude(PlainWorld(read, write, chain, respond), self, entry, run, st);
      c.Ok? ==> c.st.store == Apply(st.store, Recorded(read, write, chain, st.store, self, entry))
  {
  }

  lemma OpenedStep(chain: Chain, reg: Registry.Registry, k: nat, a: Addr, entry: Entry)
    requires Registry.Inv(chain, reg, k) && Opens(chain, reg, a, entry)
    ensures a !in reg.contracts && Registry.HistoryOf(reg, a) == []
    ensures Registry.Run(chain, reg, [Opening(entry)]) == reg.(
      history := reg.history[a := Registry.HistoryOf(reg, a) + [EntryFor(entry)]],
      contracts := reg.contracts[a := InfoFor(chain, reg.codes[1].hash, a, entry)])
  {
    RunOne(chain, reg, Opening(entry));
    assert reg.(instanceSeq := reg.instanceSeq) == reg;
    assert Registry.Step(chain, reg, Opening(entry)) == Registry.Persist(chain, reg, Opening(entry), a, reg.codes[1].hash);
    assert Registry.WriteState(reg.state, a, []) == reg.state;
  }

  lemma PlainWorldOpens(read: Reader, write: Writer, chain: Chain, s: Store, a: Addr, entry: Entry, reg: Registry.Registry, k: nat)
    requires Lossless(read, write) && MayOpen(read, chain, s, a, entry) && Registry.Inv(chain, reg, k) && Represented(read, s, reg)
    ensures Represented(read, Apply(s, Recorded(read, write, chain, s, a, entry)), Registry.Run(chain, reg, [Opening(entry)]))
  {
    assert Opens(chain, reg, a, entry);
    OpenedStep(chain, reg, k, a, entry);
    At(Shown(read, s), ImageOf(reg), CodeKey(1));
    InstanceWritten(read, write, s, reg, a, InfoFor(chain, reg.codes[1].hash, a, entry), EntryFor(entry));
  }

  lemma PlainWorldHandles(read: Reader, write: Writer, chain: Chain, respond: (Addr, Entry) -> Response)
    ensures Handles(PlainWorld(read, write, chain, respond), read, chain, PlainMeaning())
  {
  }

  /** For every lossless encoding and whatever contracts answer. */
  lemma PlainWorldIsKeeperWorld(read: Reader, write: Writer, chain: Chain, respond: (Addr, Entry) -> Response)
    requires Lossless(read, write)
    ensures KeeperWorld(PlainWorld(read, write, chain, respond), read, chain, PlainMeaning())
  {
    PlainWorldExecutes(read, write, chain, respond);
    PlainWorldHandles(read, write, chain, respond);
    PlainWorldChanges(read, write, chain, respond);
  }

  lemma PlainWorldChanges(read: Reader, write: Writer, chain: Chain, respond: (Addr, Entry) -> Response)
    requires Lossless(read, write)
    ensures Changes(PlainWorld(read, write, chain, respond), read, chain, PlainMeaning())
  {
    var w := PlainWorld(read, write, chain, respond);
    forall self, entry, st, reg, k: nat | Ready(st) && Changing(entry) && Begin(w, self, entry, st).Ok?
      && Registry.Inv(chain, reg, k) && k + 3 < TWO_64 && Represented(read, st.store, reg)
      ensures Represented(read, Begin(w, self, entry, st).st.store, Registry.Run(chain, reg, [Opening(entry)]))
    {
      BeganRecords(read, write, chain, respond, self, entry, st);
      PlainWorldOpens(read, write, chain, st.store, self, entry, reg, k);
    }
  }
}
