/** Properties of the dispatcher that relate two worlds, or a world and an invariant. */
module DispatchRelations {
  import opened Bytes
  import opened Kv
  import opened Dispatch

  // ---- error texts cannot influence consensus ----

  /** Equal up to the text of errors that redactError hides. */
  predicate SameError(a: Error, b: Error) {
    a.kind == b.kind && a.codespace == b.codespace && a.code == b.code && (!a.kind.Plain? ==> a.text == b.text)
  }

  predicate SameInstance(a: Instance, b: Instance) {
    && a.gas == b.gas && (a.missing.Some? <==> b.missing.Some?)
    && (a.missing.Some? && b.missing.Some? ==> SameError(a.missing.value, b.missing.value))
  }

  predicate SameEffect(a: Effect, b: Effect) {
    if a.Writes? || b.Writes? then a == b else a.gas == b.gas && SameError(a.error, b.error)
  }

  predicate SameVm(a: VmRun, b: VmRun) {
    a.(out := NoResult) == b.(out := NoResult) && (a.out == b.out || (a.out.Crashed? && b.out.Crashed?))
  }

  predicate SameNative(a: NativeRun, b: NativeRun) {
    && a.(out := Panicked(0)) == b.(out := Panicked(0))
    && (a.out == b.out || (a.out.Refused? && b.out.Refused? && SameError(a.out.error, b.out.error)))
  }

  /** Two nodes that agree on everything but the wording of redacted errors. */
  ghost predicate SameWorld(v: World, w: World) {
    && v.maxCallDepth == w.maxCallDepth && v.multiplier == w.multiplier
    && v.checksum == w.checksum && v.pinned == w.pinned && v.setupCost == w.setupCost
    && v.eventCost == w.eventCost && v.encode == w.encode
    && (forall s, a, e :: SameInstance(v.instance(s, a, e), w.instance(s, a, e)))
    && (forall s, a, e :: SameEffect(v.prepare(s, a, e), w.prepare(s, a, e)))
    && (forall s, a, e :: SameEffect(v.persist(s, a, e), w.persist(s, a, e)))
    && (forall a, e, s, g :: SameVm(v.vm(a, e, s, g), w.vm(a, e, s, g)))
    && (forall a, m, s, g :: SameNative(v.native(a, m, s, g), w.native(a, m, s, g)))
  }

  ghost predicate SameOut<T(!new)>(a: Out<T>, b: Out<T>) {
    a == b || (a.Err? && b.Err? && a.st == b.st && SameError(a.error, b.error))
  }

  lemma BeginSame(v: World, w: World, self: Addr, entry: Entry, st: St)
    requires SameWorld(v, w) && Ready(st)
    ensures SameOut(Begin(v, self, entry, st), Begin(w, self, entry, st))
  {
    LoadSame(v, w, self, entry, st);
    var l := Load(v, self, entry, st);
    if l.Ok? {
      InvokeSame(v, w, self, entry, l.st);
      var a, b := Invoke(v, self, entry, l.st), Invoke(w, self, entry, l.st);
      if a.Ok? { ConcludeSame(v, w, self, entry, a.value, b.value, a.st); }
    }
  }

  lemma SetupSame(v: World, w: World, self: Addr, entry: Entry, st: St)
    requires SameWorld(v, w) && Ready(st)
    ensures SameOut(Setup(v, self, entry, st), Setup(w, self, entry, st))
  {
    assert SameInstance(v.instance(st.store, self, entry), w.instance(st.store, self, entry));
  }

  lemma EffectSame(st: St, a: Effect, b: Effect)
    requires Ready(st) && SameEffect(a, b)
    ensures SameOut(Effected(st, a), Effected(st, b))
  {
  }

  lemma LoadSame(v: World, w: World, self: Addr, entry: Entry, st: St)
    requires SameWorld(v, w) && Ready(st)
    ensures SameOut(Load(v, self, entry, st), Load(w, self, entry, st))
  {
    SetupSame(v, w, self, entry, st);
    var s := Setup(v, self, entry, st);
    if s.Ok? {
      assert SameEffect(v.prepare(s.st.store, self, entry), w.prepare(s.st.store, self, entry));
      EffectSame(s.st, v.prepare(s.st.store, self, entry), w.prepare(s.st.store, self, entry));
    }
  }

  lemma InvokeSame(v: World, w: World, self: Addr, entry: Entry, st: St)
    requires SameWorld(v, w) && Ready(st)
    ensures var a, b := Invoke(v, self, entry, st), Invoke(w, self, entry, st);
      if a.Ok? then b.Ok? && a.st == b.st && SameVm(a.value, b.value) else a == b
  {
    var gas := VmGasLimit(v, st);
    if gas.Ok? { assert SameVm(v.vm(self, entry, st.store, gas.value), w.vm(self, entry, st.store, gas.value)); }
  }

  lemma ConcludeSame(v: World, w: World, self: Addr, entry: Entry, a: VmRun, b: VmRun, st: St)
    requires SameWorld(v, w) && Ready(st) && SameVm(a, b)
    ensures SameOut(Conclude(v, self, entry, a, st), Conclude(w, self, entry, b, st))
  {
    assert SameEffect(v.persist(st.store, self, entry), w.persist(st.store, self, entry));
    EffectSame(st, v.persist(st.store, self, entry), w.persist(st.store, self, entry));
  }

  /** Whatever two nodes write into redacted errors, they compute the same state, gas,
      events and data, and the same error up to its text: nothing a contract receives
      in a reply, and so nothing it does, depends on error wording. */
  lemma {:induction false} ErrorTextsNeverMatter(v: World, w: World, self: Addr, entry: Entry, st: St, depth: U32)
    requires SameWorld(v, w) && Ready(st)
    ensures SameOut(Enter(v, self, entry, st, depth).out, Enter(w, self, entry, st, depth).out)
    decreases Left(st), 0, 0
  {
    BeginSame(v, w, self, entry, st);
    var b := Begin(v, self, entry, st);
    if b.Ok? {
      DispatchSubsSame(v, w, self, b.value.response.msgs, b.st, None, depth);
    }
  }

  lemma {:induction false} DispatchMsgSame(v: World, w: World, self: Addr, msg: Msg, st: St, depth: U32)
    requires SameWorld(v, w) && Ready(st)
    ensures SameOut(DispatchMsg(v, self, msg, st, depth).out, DispatchMsg(w, self, msg, st, depth).out)
    decreases Left(st), 1, 0
  {
    var d := (depth + 1) % TWO_32;
    if d <= w.maxCallDepth {
      if msg.Wasm? {
        ErrorTextsNeverMatter(v, w, msg.target, Call(msg.op, self, msg.payload, msg.funds), st.(events := []), d);
      } else {
        var g := st.limit - st.consumed;
        assert SameNative(v.native(self, msg, st.store, g), w.native(self, msg, st.store, g));
      }
    }
  }

  lemma {:induction false} SandboxSame(v: World, w: World, self: Addr, m: SubMsg, st: St, depth: U32)
    requires SameWorld(v, w) && Ready(st)
    ensures SameOut(Sandbox(v, self, m, st, depth).out, Sandbox(w, self, m, st, depth).out)
    decreases Left(st), 2, 0
  {
    var st0 := st.(events := []);
    DispatchMsgSame(v, w, self, m.msg, if Limited(m, st) then st0.(limit := m.gasLimit.value, consumed := 0) else st0, depth);
  }

  /** Redaction hides the difference: both runs decide alike and owe the same reply. */
  lemma DecideSame(m: SubMsg, st: St, a: Out<MsgOk>, b: Out<MsgOk>)
    requires SameOut(a, b) && !a.Panic?
    ensures !b.Panic? && Decide(m, st, a).st == Decide(m, st, b).st && Decide(m, st, a).due == Decide(m, st, b).due
    ensures Decide(m, st, a).verdict.Committed? <==> Decide(m, st, b).verdict.Committed?
  {
  }

  lemma AfterReplySame(m: SubMsg, ta: Trace, tb: Trace, va: Verdict, vb: Verdict, rsp: Option<Bytes>, a: Run<Option<Bytes>>, b: Run<Option<Bytes>>)
    requires SameOut(a.out, b.out)
    ensures SameOut(AfterReply(m, ta, va, rsp, a).out, AfterReply(m, tb, vb, rsp, b).out)
  {
  }

  /** Step, once the sandbox has run and the reply, if one is due, is known. */
  lemma StepFrom(w: World, self: Addr, m: SubMsg, st: St, rsp: Option<Bytes>, depth: U32)
    requires Ready(st) && !m.replyOn.Unset? && !Sandbox(w, self, m, st, depth).out.Panic?
    ensures var box := Sandbox(w, self, m, st, depth); var v := Decide(m, st, box.out);
      Step(w, self, m, st, rsp, depth).out ==
        if v.due.Some? then AfterReply(m, box.trace, v.verdict, rsp, Enter(w, self, OnReply(v.due.value), v.st, depth)).out
        else if v.verdict.Committed? then Ok(v.st, rsp) else Err(v.st, box.out.error)
  {
  }

  lemma {:induction false} StepSame(v: World, w: World, self: Addr, m: SubMsg, st: St, rsp: Option<Bytes>, depth: U32)
    requires SameWorld(v, w) && Ready(st)
    ensures SameOut(Step(v, self, m, st, rsp, depth).out, Step(w, self, m, st, rsp, depth).out)
    decreases Left(st), 3, 0
  {
    SandboxSame(v, w, self, m, st, depth);
    var a, b := Sandbox(v, self, m, st, depth), Sandbox(w, self, m, st, depth);
    if !m.replyOn.Unset? && !a.out.Panic? {
      DecideSame(m, st, a.out, b.out);
      StepFrom(v, self, m, st, rsp, depth);
      StepFrom(w, self, m, st, rsp, depth);
      var d, e := Decide(m, st, a.out), Decide(m, st, b.out);
      if d.due.Some? {
        ErrorTextsNeverMatter(v, w, self, OnReply(d.due.value), d.st, depth);
        AfterReplySame(m, a.trace, b.trace, d.verdict, e.verdict, rsp,
          Enter(v, self, OnReply(d.due.value), d.st, depth), Enter(w, self, OnReply(d.due.value), d.st, depth));
      }
    }
  }

  lemma {:induction false} DispatchSubsSame(v: World, w: World, self: Addr, msgs: seq<SubMsg>, st: St, rsp: Option<Bytes>, depth: U32)
    requires SameWorld(v, w) && Ready(st)
    ensures SameOut(DispatchSubs(v, self, msgs, st, rsp, depth).out, DispatchSubs(w, self, msgs, st, rsp, depth).out)
    decreases Left(st), 4, |msgs|
  {
    if msgs != [] {
      StepSame(v, w, self, msgs[0], st, rsp, depth);
      var s := Step(v, self, msgs[0], st, rsp, depth).out;
      if s.Ok? {
        DispatchSubsSame(v, w, self, msgs[1..], s.st, s.value, depth);
      }
    }
  }

  // ---- invariants survive every mixture of commits, rollbacks and replies ----

  /** Each single effect a world can have on a store keeps inv. */
  ghost predicate Keeps(w: World, inv: Store -> bool) {
    && (forall s, a, e :: inv(s) && w.prepare(s, a, e).Writes? ==> inv(Apply(s, w.prepare(s, a, e).writes)))
    && (forall s, a, e :: inv(s) && w.persist(s, a, e).Writes? ==> inv(Apply(s, w.persist(s, a, e).writes)))
    && (forall a, e, s, g :: inv(s) ==> inv(Apply(s, w.vm(a, e, s, g).writes)))
    && (forall a, m, s, g :: inv(s) ==> inv(Apply(s, w.native(a, m, s, g).writes)))
  }

  ghost predicate Held<T(!new)>(inv: Store -> bool, out: Out<T>) {
    out.Panic? || inv(out.st.store)
  }

  lemma LoadKeeps(w: World, inv: Store -> bool, self: Addr, entry: Entry, st: St)
    requires Keeps(w, inv) && Ready(st) && inv(st.store)
    ensures Held(inv, Load(w, self, entry, st))
  {
    var prep := w.prepare(st.store, self, entry);
    assert prep.Writes? ==> inv(Apply(st.store, prep.writes));
  }

  lemma InvokeKeeps(w: World, inv: Store -> bool, self: Addr, entry: Entry, st: St)
    requires Keeps(w, inv) && Ready(st) && inv(st.store)
    ensures Held(inv, Invoke(w, self, entry, st))
  {
    var gas := VmGasLimit(w, st);
    if gas.Ok? { assert inv(Apply(st.store, w.vm(self, entry, st.store, gas.value).writes)); }
  }

  lemma ConcludeKeeps(w: World, inv: Store -> bool, self: Addr, entry: Entry, run: VmRun, st: St)
    requires Keeps(w, inv) && Ready(st) && inv(st.store)
    ensures Held(inv, Conclude(w, self, entry, run, st))
  {
    var pers := w.persist(st.store, self, entry);
    assert pers.Writes? ==> inv(Apply(st.store, pers.writes));
  }

  lemma BeginKeeps(w: World, inv: Store -> bool, self: Addr, entry: Entry, st: St)
    requires Keeps(w, inv) && Ready(st) && inv(st.store)
    ensures Held(inv, Begin(w, self, entry, st))
  {
    LoadKeeps(w, inv, self, entry, st);
    var l := Load(w, self, entry, st);
    if l.Ok? {
      InvokeKeeps(w, inv, self, entry, l.st);
      var v := Invoke(w, self, entry, l.st);
      if v.Ok? { ConcludeKeeps(w, inv, self, entry, v.value, v.st); }
    }
  }

  /** A store invariant that every single effect keeps is kept by every run,
      however its sub-messages are committed, reverted and answered. */
  lemma {:induction false} EnterKeeps(w: World, inv: Store -> bool, self: Addr, entry: Entry, st: St, depth: U32)
    requires Keeps(w, inv) && Ready(st) && inv(st.store)
    ensures Held(inv, Enter(w, self, entry, st, depth).out)
    decreases Left(st), 0, 0
  {
    BeginKeeps(w, inv, self, entry, st);
    var b := Begin(w, self, entry, st);
    if b.Ok? {
      DispatchSubsKeeps(w, inv, self, b.value.response.msgs, b.st, None, depth);
    }
  }

  lemma {:induction false} DispatchMsgKeeps(w: World, inv: Store -> bool, self: Addr, msg: Msg, st: St, depth: U32)
    requires Keeps(w, inv) && Ready(st) && inv(st.store)
    ensures Held(inv, DispatchMsg(w, self, msg, st, depth).out)
    decreases Left(st), 1, 0
  {
    var d := (depth + 1) % TWO_32;
    if d <= w.maxCallDepth && msg.Wasm? {
      EnterKeeps(w, inv, msg.target, Call(msg.op, self, msg.payload, msg.funds), st.(events := []), d);
    }
  }

  lemma {:induction false} SandboxKeeps(w: World, inv: Store -> bool, self: Addr, m: SubMsg, st: St, depth: U32)
    requires Keeps(w, inv) && Ready(st) && inv(st.store)
    ensures var out := Sandbox(w, self, m, st, depth).out; out.Ok? ==> inv(out.st.store)
    decreases Left(st), 2, 0
  {
    var st0 := st.(events := []);
    DispatchMsgKeeps(w, inv, self, m.msg, if Limited(m, st) then st0.(limit := m.gasLimit.value, consumed := 0) else st0, depth);
  }

  lemma {:induction false} StepKeeps(w: World, inv: Store -> bool, self: Addr, m: SubMsg, st: St, rsp: Option<Bytes>, depth: U32)
    requires Keeps(w, inv) && Ready(st) && inv(st.store)
    ensures Held(inv, Step(w, self, m, st, rsp, depth).out)
    decreases Left(st), 3, 0
  {
    SandboxKeeps(w, inv, self, m, st, depth);
    var box := Sandbox(w, self, m, st, depth).out;
    if !m.replyOn.Unset? && !box.Panic? {
      var d := Decide(m, st, box);
      if d.due.Some? {
        EnterKeeps(w, inv, self, OnReply(d.due.value), d.st, depth);
      }
    }
  }

  lemma {:induction false} DispatchSubsKeeps(w: World, inv: Store -> bool, self: Addr, msgs: seq<SubMsg>, st: St, rsp: Option<Bytes>, depth: U32)
    requires Keeps(w, inv) && Ready(st) && inv(st.store)
    ensures Held(inv, DispatchSubs(w, self, msgs, st, rsp, depth).out)
    decreases Left(st), 4, |msgs|
  {
    if msgs != [] {
      StepKeeps(w, inv, self, msgs[0], st, rsp, depth);
      var s := Step(w, self, msgs[0], st, rsp, depth).out;
      if s.Ok? {
        DispatchSubsKeeps(w, inv, self, msgs[1..], s.st, s.value, depth);
      }
    }
  }

  // ---- a log of what was committed ----

  /** What each entry and each native message adds to a log of committed steps. */
  datatype Labels<!T> = Labels(entry: (Addr, Entry, Began) -> seq<T>, native: NativeRun -> seq<T>)

  /** The labels of a call and of its committed sub-messages and replies, in order. */
  function Logged<T>(ls: Labels<T>, t: Trace): seq<T> {
    match t
    case NativeTrace(_, run) => ls.native(run)
    case ContractTrace(_, self, entry, _, began, subs) => ls.entry(self, entry, began) + LoggedBySubs(ls, subs)
    case _ => []
  }

  function LoggedBySubs<T>(ls: Labels<T>, s: Subs): seq<T> {
    match s
    case End => []
    case More(f, rest) => LoggedBySub(ls, f) + LoggedBySubs(ls, rest)
  }

  function LoggedBySub<T>(ls: Labels<T>, f: SubTrace): seq<T> {
    (if f.verdict.Committed? then Logged(ls, f.run) else [])
    + (if f.answered.Some? then Logged(ls, f.answered.value) else [])
  }

  /** Each entry that comes to its response, and each handled native message, takes a store
      that belongs to a log to one that belongs to the log with its labels. */
  ghost predicate Tracks<T(!new)>(w: World, ls: Labels<T>, rel: (Store, seq<T>) -> bool) {
    && (forall self, entry, st, log | Ready(st) && rel(st.store, log) :: EntryTracked(w, ls, rel, self, entry, st, log))
    && (forall a, m, s, g, log | rel(s, log) :: NativeTracked(ls, rel, s, w.native(a, m, s, g), log))
  }

  ghost predicate EntryTracked<T(!new)>(w: World, ls: Labels<T>, rel: (Store, seq<T>) -> bool, self: Addr, entry: Entry, st: St, log: seq<T>)
    requires Ready(st)
  {
    var b := Begin(w, self, entry, st);
    b.Ok? ==> rel(b.st.store, log + ls.entry(self, entry, b.value))
  }

  ghost predicate NativeTracked<T(!new)>(ls: Labels<T>, rel: (Store, seq<T>) -> bool, s: Store, run: NativeRun, log: seq<T>) {
    run.out.Handled? ==> rel(Apply(s, run.writes), log + ls.native(run))
  }

  /** A successful run took a store that belongs to log to one that belongs to more. */
  ghost predicate Tracked<T(!new), U(!new)>(rel: (Store, seq<T>) -> bool, out: Out<U>, more: seq<T>) {
    out.Ok? ==> rel(out.st.store, more)
  }

  lemma Grouped<T>(a: seq<T>, b: seq<T>, c: seq<T>)
    ensures (a + b) + c == a + (b + c)
  {
  }

  /** Then every successful call, however its sub-messages are committed, reverted and
      answered, ends in a store that belongs to the log of what was committed. */
  lemma {:induction false} EnterTracks<T(!new)>(w: World, ls: Labels<T>, rel: (Store, seq<T>) -> bool, self: Addr, entry: Entry, st: St, depth: U32, log: seq<T>)
    requires Tracks(w, ls, rel) && Ready(st) && rel(st.store, log)
    ensures var r := Enter(w, self, entry, st, depth); Tracked(rel, r.out, log + Logged(ls, r.trace))
    decreases Left(st), 0, 0
  {
    assert EntryTracked(w, ls, rel, self, entry, st, log);
    var b := Begin(w, self, entry, st);
    if b.Ok? {
      var own := ls.entry(self, entry, b.value);
      DispatchSubsTracks(w, ls, rel, self, b.value.response.msgs, b.st, None, depth, log + own);
      Grouped(log, own, LoggedBySubs(ls, DispatchSubs(w, self, b.value.response.msgs, b.st, None, depth).subs));
    }
  }

  lemma {:induction false} DispatchMsgTracks<T(!new)>(w: World, ls: Labels<T>, rel: (Store, seq<T>) -> bool, self: Addr, msg: Msg, st: St, depth: U32, log: seq<T>)
    requires Tracks(w, ls, rel) && Ready(st) && rel(st.store, log)
    ensures var r := DispatchMsg(w, self, msg, st, depth); Tracked(rel, r.out, log + Logged(ls, r.trace))
    decreases Left(st), 1, 0
  {
    var d := (depth + 1) % TWO_32;
    if d <= w.maxCallDepth {
      if msg.Wasm? {
        EnterTracks(w, ls, rel, msg.target, Call(msg.op, self, msg.payload, msg.funds), st.(events := []), d, log);
      } else {
        assert NativeTracked(ls, rel, st.store, w.native(self, msg, st.store, st.limit - st.consumed), log);
      }
    }
  }

  lemma {:induction false} SandboxTracks<T(!new)>(w: World, ls: Labels<T>, rel: (Store, seq<T>) -> bool, self: Addr, m: SubMsg, st: St, depth: U32, log: seq<T>)
    requires Tracks(w, ls, rel) && Ready(st) && rel(st.store, log)
    ensures var r := Sandbox(w, self, m, st, depth); Tracked(rel, r.out, log + Logged(ls, r.trace))
    decreases Left(st), 2, 0
  {
    var st0 := st.(events := []);
    DispatchMsgTracks(w, ls, rel, self, m.msg, if Limited(m, st) then st0.(limit := m.gasLimit.value, consumed := 0) else st0, depth, log);
  }

  lemma {:induction false} StepTracks<T(!new)>(w: World, ls: Labels<T>, rel: (Store, seq<T>) -> bool, self: Addr, m: SubMsg, st: St, rsp: Option<Bytes>, depth: U32, log: seq<T>)
    requires Tracks(w, ls, rel) && Ready(st) && rel(st.store, log)
    ensures var r := Step(w, self, m, st, rsp, depth); Tracked(rel, r.out, log + LoggedBySub(ls, r.sub))
    decreases Left(st), 3, 0
  {
    SandboxTracks(w, ls, rel, self, m, st, depth, log);
    var box := Sandbox(w, self, m, st, depth);
    if !m.replyOn.Unset? && !box.out.Panic? {
      var v := Decide(m, st, box.out);
      var own := if v.verdict.Committed? then Logged(ls, box.trace) else [];
      assert log + [] == log && own + [] == own;
      if v.due.Some? {
        EnterTracks(w, ls, rel, self, OnReply(v.due.value), v.st, depth, log + own);
        Grouped(log, own, Logged(ls, Enter(w, self, OnReply(v.due.value), v.st, depth).trace));
      }
    }
  }

  lemma {:induction false} DispatchSubsTracks<T(!new)>(w: World, ls: Labels<T>, rel: (Store, seq<T>) -> bool, self: Addr, msgs: seq<SubMsg>, st: St, rsp: Option<Bytes>, depth: U32, log: seq<T>)
    requires Tracks(w, ls, rel) && Ready(st) && rel(st.store, log)
    ensures var r := DispatchSubs(w, self, msgs, st, rsp, depth); Tracked(rel, r.out, log + LoggedBySubs(ls, r.subs))
    decreases Left(st), 4, |msgs|
  {
    if msgs == [] {
      assert log + [] == log;
    } else {
      StepTracks(w, ls, rel, self, msgs[0], st, rsp, depth, log);
      var s := Step(w, self, msgs[0], st, rsp, depth);
      if s.out.Ok? {
        var own := LoggedBySub(ls, s.sub);
        DispatchSubsTracks(w, ls, rel, self, msgs[1..], s.out.st, s.out.value, depth, log + own);
        Grouped(log, own, LoggedBySubs(ls, DispatchSubs(w, self, msgs[1..], s.out.st, s.out.value, depth).subs));
      }
    }
  }
}
