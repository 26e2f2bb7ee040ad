/** The contract registry under the dispatcher: calls whose sub-messages execute, instantiate
    and migrate contracts, with commits, rollbacks and replies, take a store that represents
    a registry to one that represents the run of the operations that were committed. */
module RegistryDispatch {
  import opened Bytes
  import opened Keys
  import opened Scans
  import opened Kv
  import opened Addresses
  import opened KeeperStore
  import opened Dispatch
  import opened DispatchRelations
  import DispatchLaws
  import Registry
  import RegistryLaws

  type Op = Registry.Op
  type Chain = Registry.Chain

  /** What a stored byte string stands for, given its key. */
  type Reader = (Bytes, Bytes) -> Val

  ghost function Shown(read: Reader, s: Store): Flat {
    map k | k in s :: read(k, s[k])
  }

  ghost predicate Represented(read: Reader, s: Store, reg: Registry.Registry) {
    Represents(Shown(read, s), reg)
  }

  /** Contract state is stored as it is. */
  ghost predicate ReadsState(read: Reader) {
    forall p, v :: read(Enc(StateKey(p)), v) == StateV(v)
  }

  // ---- state writes of a contract ----

  /** Under the prefix of the contract, or outside the registry's keys. */
  predicate Within(self: Addr, ws: seq<Write>) {
    forall i | 0 <= i < |ws| :: Parse(ws[i].key).Foreign? || [3] + self <= ws[i].key
  }

  /** The writes under the prefix of the contract, as it sees them. */
  function StateWrites(self: Addr, ws: seq<Write>): seq<Registry.StateWrite> {
    if ws == [] then []
    else
      var rest := StateWrites(self, ws[1..]);
      if [3] + self <= ws[0].key then
        [(ws[0].key[1 + |self|..], if ws[0].Put? then Some(ws[0].value) else None)] + rest
      else rest
  }

  lemma ForeignWrite(read: Reader, s: Store, reg: Registry.Registry, w: Write)
    requires Represented(read, s, reg) && Parse(w.key).Foreign?
    ensures Represented(read, ApplyOne(s, w), reg)
  {
    var f := Shown(read, ApplyOne(s, w));
    forall raw | !Parse(raw).Foreign? ensures Lookup(f, raw) == Expect(reg, Parse(raw)) {
      assert raw != w.key && Lookup(f, raw) == Lookup(Shown(read, s), raw);
    }
  }

  lemma StateWritten(read: Reader, s: Store, reg: Registry.Registry, path: Bytes, w: Write)
    requires Represented(read, s, reg) && ReadsState(read) && w.key == Enc(StateKey(path))
    ensures Represented(read, ApplyOne(s, w), reg.(state := if w.Put? then reg.state[path := w.value] else reg.state - {path}))
  {
    var f, k := Shown(read, s), StateKey(path);
    if w.Put? {
      PutHolds(f, ImageOf(reg), k, StateV(w.value));
      assert Shown(read, ApplyOne(s, w)) == f[Enc(k) := StateV(w.value)];
      SameImage(f[Enc(k) := StateV(w.value)], Upd(ImageOf(reg), k, Some(StateV(w.value))), ImageOf(reg.(state := reg.state[path := w.value])));
    } else {
      DropHolds(f, ImageOf(reg), k);
      assert Shown(read, ApplyOne(s, w)) == f - {Enc(k)};
      SameImage(f - {Enc(k)}, Upd(ImageOf(reg), k, None), ImageOf(reg.(state := reg.state - {path})));
    }
  }

  lemma {:induction false} OwnWrites(read: Reader, s: Store, reg: Registry.Registry, self: Addr, ws: seq<Write>)
    requires Represented(read, s, reg) && ReadsState(read) && Within(self, ws)
    ensures Represented(read, Apply(s, ws), reg.(state := Registry.WriteState(reg.state, self, StateWrites(self, ws))))
    decreases ws
  {
    if ws == [] {
      assert reg.(state := reg.state) == reg;
    } else {
      var w := ws[0];
      if [3] + self <= w.key {
        var rest := w.key[1 + |self|..];
        assert w.key == [3] + (self + rest);
        StateWritten(read, s, reg, self + rest, w);
        OwnWrites(read, ApplyOne(s, w), reg.(state := if w.Put? then reg.state[self + rest := w.value] else reg.state - {self + rest}), self, ws[1..]);
        UnfoldStateWrites(reg.state, self, ws);
      } else {
        ForeignWrite(read, s, reg, w);
        OwnWrites(read, ApplyOne(s, w), reg, self, ws[1..]);
      }
    }
  }

  lemma UnfoldStateWrites(state: map<Bytes, Bytes>, self: Addr, ws: seq<Write>)
    requires ws != [] && [3] + self <= ws[0].key
    ensures var p := self + ws[0].key[1 + |self|..];
      Registry.WriteState(state, self, StateWrites(self, ws)) ==
        Registry.WriteState(if ws[0].Put? then state[p := ws[0].value] else state - {p}, self, StateWrites(self, ws[1..]))
  {
    var all := StateWrites(self, ws);
    assert all[1..] == StateWrites(self, ws[1..]);
  }

  // ---- a world that works on the registry ----

  /** The entries that change more of the registry than a contract's state. */
  predicate Changing(entry: Entry) { entry.Call? && !entry.op.Execute? }

  /** Which registry operation an instantiating or migrating entry was, and which operations
      a native message stands for: admin updates, code uploads and so on. */
  datatype Meaning = Meaning(change: (Addr, Entry, Began) -> Op, native: NativeRun -> seq<Op>)

  function OpsOf(ms: Meaning, self: Addr, entry: Entry, began: Began): seq<Op> {
    if Changing(entry) then [ms.change(self, entry, began)] else [Registry.Execute(self, StateWrites(self, began.own))]
  }

  function LabelsOf(ms: Meaning): Labels<Op> {
    Labels((self, entry, began) => OpsOf(ms, self, entry, began), ms.native)
  }

  /** What executing and replying does to a store: a contract is found only if it and its code
      are registered, and nothing is written outside its state but other modules' records. */
  ghost predicate Executes(w: World, read: Reader) {
    && ReadsState(read)
    && (forall s, a, e, reg | Represented(read, s, reg) && !Changing(e) && w.instance(s, a, e).missing.None? ::
          a in reg.contracts && reg.contracts[a].code in reg.codes)
    && (forall s, a, e | !Changing(e) && w.prepare(s, a, e).Writes? :: Within(a, w.prepare(s, a, e).writes))
    && (forall s, a, e | !Changing(e) && w.persist(s, a, e).Writes? :: Within(a, w.persist(s, a, e).writes))
    && (forall a, e, s, g | !Changing(e) :: Within(a, w.vm(a, e, s, g).writes))
  }

  /** An instantiating or migrating entry that comes to its response has done to the store what
      its operation does to the registry; the keeper's methods are proved to do so. */
  ghost predicate Changes(w: World, read: Reader, chain: Chain, ms: Meaning) {
    forall self, entry, st, reg, k: nat | Ready(st) && Changing(entry) && Begin(w, self, entry, st).Ok? ::
      Registry.Inv(chain, reg, k) && k + 3 < TWO_64 && Represented(read, st.store, reg) ==>
        Represented(read, Begin(w, self, entry, st).st.store, Registry.Run(chain, reg, [ms.change(self, entry, Begin(w, self, entry, st).value)]))
  }

  /** So has a native message that was handled, for gas that covers its operations. */
  ghost predicate Handles(w: World, read: Reader, chain: Chain, ms: Meaning) {
    && (forall run :: |ms.native(run)| <= run.gas)
    && forall a, m, s, g, reg, k: nat | w.native(a, m, s, g).out.Handled? ::
        var run := w.native(a, m, s, g);
        Registry.Inv(chain, reg, k) && k + |ms.native(run)| + 2 < TWO_64 && Represented(read, s, reg) ==>
          Represented(read, Apply(s, run.writes), Registry.Run(chain, reg, ms.native(run)))
  }

  ghost predicate KeeperWorld(w: World, read: Reader, chain: Chain, ms: Meaning) {
    Executes(w, read) && Changes(w, read, chain, ms) && Handles(w, read, chain, ms)
  }

  // ---- one entry ----

  lemma WithinConcat(self: Addr, a: seq<Write>, b: seq<Write>)
    requires Within(self, a) && Within(self, b)
    ensures Within(self, a + b)
  {
  }

  lemma BeganWithin(w: World, read: Reader, self: Addr, entry: Entry, st: St)
    requires Executes(w, read) && Ready(st) && !Changing(entry) && Begin(w, self, entry, st).Ok?
    ensures Within(self, Begin(w, self, entry, st).value.own) && w.instance(st.store, self, entry).missing.None?
  {
    var l := Load(w, self, entry, st);
    var v := Invoke(w, self, entry, l.st);
    var c := Conclude(w, self, entry, v.value, v.st);
    assert Within(self, l.value.writes) && Within(self, c.value.own);
    assert Within(self, v.value.writes);
    WithinConcat(self, l.value.writes, v.value.writes);
    WithinConcat(self, l.value.writes + v.value.writes, c.value.own);
  }

  lemma RunOne(chain: Chain, reg: Registry.Registry, op: Op)
    ensures Registry.Run(chain, reg, [op]) == match Registry.Step(chain, reg, op) case Some(r) => r case None => reg
  {
    var one: seq<Op> := [op];
    assert one[..0] == [];
  }

  lemma ExecutedOnce(w: World, read: Reader, chain: Chain, self: Addr, entry: Entry, st: St, reg: Registry.Registry)
    requires Executes(w, read) && Ready(st) && !Changing(entry) && Begin(w, self, entry, st).Ok? && Represented(read, st.store, reg)
    ensures var b := Begin(w, self, entry, st);
      Represented(read, b.st.store, Registry.Run(chain, reg, [Registry.Execute(self, StateWrites(self, b.value.own))]))
  {
    BeganWithin(w, read, self, entry, st);
    DispatchLaws.BeginStore(w, self, entry, st);
    assert self in reg.contracts;
    ExecutedOn(read, chain, st.store, self, Begin(w, self, entry, st).value.own, reg);
  }

  lemma ExecutedOn(read: Reader, chain: Chain, s: Store, self: Addr, own: seq<Write>, reg: Registry.Registry)
    requires ReadsState(read) && Represented(read, s, reg) && Within(self, own)
    requires self in reg.contracts && reg.contracts[self].code in reg.codes
    ensures Represented(read, Apply(s, own), Registry.Run(chain, reg, [Registry.Execute(self, StateWrites(self, own))]))
  {
    OwnWrites(read, s, reg, self, own);
    RunOne(chain, reg, Registry.Execute(self, StateWrites(self, own)));
  }

  // ---- every call ----

  /** The store represents the registry after the logged operations, as long as the 64-bit
      counters suffice for them. */
  ghost predicate Follows(read: Reader, chain: Chain, reg: Registry.Registry, n: nat, s: Store, log: seq<Op>) {
    n + |log| + 2 < TWO_64 ==> Represented(read, s, Registry.Run(chain, reg, log))
  }

  ghost function FollowsIn(read: Reader, chain: Chain, reg: Registry.Registry, n: nat): (Store, seq<Op>) -> bool {
    (s, log) => Follows(read, chain, reg, n, s, log)
  }

  lemma {:induction false} RunConcat(chain: Chain, reg: Registry.Registry, a: seq<Op>, b: seq<Op>)
    ensures Registry.Run(chain, reg, a + b) == Registry.Run(chain, Registry.Run(chain, reg, a), b)
    decreases |b|
  {
    if b == [] {
      assert a + b == a;
    } else {
      assert (a + b)[..|a + b| - 1] == a + b[..|b| - 1];
      RunConcat(chain, reg, a, b[..|b| - 1]);
    }
  }

  lemma EntryFollows(w: World, read: Reader, chain: Chain, ms: Meaning, reg: Registry.Registry, n: nat, self: Addr, entry: Entry, st: St, log: seq<Op>)
    requires KeeperWorld(w, read, chain, ms) && Registry.Inv(chain, reg, n) && Ready(st) && Follows(read, chain, reg, n, st.store, log)
    requires Begin(w, self, entry, st).Ok?
    ensures var b := Begin(w, self, entry, st); Follows(read, chain, reg, n, b.st.store, log + OpsOf(ms, self, entry, b.value))
  {
    var b := Begin(w, self, entry, st);
    var ops := OpsOf(ms, self, entry, b.value);
    if n + |log + ops| + 2 < TWO_64 {
      RegistryLaws.RunKeepsInv(chain, reg, log, n);
      var now := Registry.Run(chain, reg, log);
      if !Changing(entry) { ExecutedOnce(w, read, chain, self, entry, st, now); }
      RunConcat(chain, reg, log, ops);
    }
  }

  lemma NativeFollows(w: World, read: Reader, chain: Chain, ms: Meaning, reg: Registry.Registry, n: nat, s: Store, a: Addr, m: Msg, g: U64, log: seq<Op>)
    requires KeeperWorld(w, read, chain, ms) && Registry.Inv(chain, reg, n) && Follows(read, chain, reg, n, s, log)
    requires w.native(a, m, s, g).out.Handled?
    ensures var run := w.native(a, m, s, g); Follows(read, chain, reg, n, Apply(s, run.writes), log + ms.native(run))
  {
    var ops := ms.native(w.native(a, m, s, g));
    if n + |log + ops| + 2 < TWO_64 {
      RegistryLaws.RunKeepsInv(chain, reg, log, n);
      RunConcat(chain, reg, log, ops);
    }
  }

  lemma RegistryTracks(w: World, read: Reader, chain: Chain, ms: Meaning, reg: Registry.Registry, n: nat)
    requires KeeperWorld(w, read, chain, ms) && Registry.Inv(chain, reg, n)
    ensures Tracks(w, LabelsOf(ms), FollowsIn(read, chain, reg, n))
  {
    var ls, rel := LabelsOf(ms), FollowsIn(read, chain, reg, n);
    forall self, entry, st, log | Ready(st) && rel(st.store, log) ensures EntryTracked(w, ls, rel, self, entry, st, log) {
      if Begin(w, self, entry, st).Ok? { EntryFollows(w, read, chain, ms, reg, n, self, entry, st, log); }
    }
    forall a, m, s, g, log | rel(s, log) ensures NativeTracked(ls, rel, s, w.native(a, m, s, g), log) {
      if w.native(a, m, s, g).out.Handled? { NativeFollows(w, read, chain, ms, reg, n, s, a, m, g, log); }
    }
  }

  // ---- how many operations a call can commit ----

  /** One operation for each entry at most, and for a native message as many as it paid. */
  ghost predicate Affordable(ls: Labels<Op>) {
    (forall a, e, b :: |ls.entry(a, e, b)| <= 1) && forall run :: |ls.native(run)| <= run.gas
  }

  lemma {:induction false} LoggedPaid(ls: Labels<Op>, t: Trace)
    requires Affordable(ls)
    ensures |Logged(ls, t)| <= DispatchLaws.Entries(t) + DispatchLaws.Spent(t)
    decreases t, 0
  {
    match t
    case ContractTrace(_, self, entry, _, began, subs) => LoggedBySubsPaid(ls, subs);
    case _ =>
  }

  lemma {:induction false} LoggedBySubsPaid(ls: Labels<Op>, s: Subs)
    requires Affordable(ls)
    ensures |LoggedBySubs(ls, s)| <= DispatchLaws.EntriesOfSubs(s) + DispatchLaws.SpentBySubs(s)
    decreases s, 0
  {
    match s
    case End =>
    case More(f, rest) =>
      LoggedPaid(ls, f.run);
      if f.answered.Some? { LoggedPaid(ls, f.answered.value); }
      LoggedBySubsPaid(ls, rest);
  }

  /** Any call of any contract, with everything it dispatches at any depth: if it succeeds, the
      store represents the registry after a run of exactly the operations that were committed,
      in order, and that registry is again in order. */
  lemma RegistryFollowsRun(w: World, read: Reader, chain: Chain, ms: Meaning, reg: Registry.Registry, n: nat,
                           self: Addr, entry: Entry, st: St, depth: U32)
    requires KeeperWorld(w, read, chain, ms) && Registry.Inv(chain, reg, n) && Represented(read, st.store, reg)
    requires Ready(st) && n + 2 * Left(st) + 2 < TWO_64 && Enter(w, self, entry, st, depth).out.Ok?
    ensures var r := Enter(w, self, entry, st, depth);
      var ops := Logged(LabelsOf(ms), r.trace);
      && Represented(read, r.out.st.store, Registry.Run(chain, reg, ops))
      && Registry.Inv(chain, Registry.Run(chain, reg, ops), n + |ops|)
      && |ops| <= 2 * (r.out.st.consumed - st.consumed)
  {
    var r, ls := Enter(w, self, entry, st, depth), LabelsOf(ms);
    var ops := Logged(ls, r.trace);
    RegistryTracks(w, read, chain, ms, reg, n);
    assert FollowsIn(read, chain, reg, n)(st.store, []);
    EnterTracks(w, ls, FollowsIn(read, chain, reg, n), self, entry, st, depth, []);
    assert [] + ops == ops;
    LoggedPaid(ls, r.trace);
    DispatchLaws.EntriesPaidFor(w, self, entry, st, depth);
    DispatchLaws.GasConserved(w, self, entry, st, depth);
    RegistryLaws.RunKeepsInv(chain, reg, ops, n);
  }
}
