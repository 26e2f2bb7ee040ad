/** The dispatcher as it runs: contexts that share mutable meters, event managers
    and stacked store caches. Every method is proved to compute the outcome of the
    plain semantics in module Dispatch, so nested caching is only an implementation. */
module Dispatcher {
  import opened Bytes
  import opened Gas
  import opened Kv
  import opened Events
  import opened Dispatch

  class EventManager {
    var events: seq<Event>

    constructor ()
      ensures events == []
    {
      events := [];
    }

    method EmitEvents(es: seq<Event>)
      modifies this
      ensures events == old(events) + es
    {
      events := events + es;
    }
  }

  /** TxContracts: one table per transaction, shared by all its contexts. */
  class TxContracts {
    var known: set<Bytes>

    constructor ()
      ensures known == {}
    {
      known := {};
    }

    method AddContract(checksum: Bytes)
      modifies this
      ensures known == if checksum == [] then old(known) else old(known) + {checksum}
    {
      if checksum != [] {
        known := known + {checksum};
      }
    }
  }

  /** sdk.Context: a value that refers to shared objects. */
  datatype Ctx = Ctx(layer: Layer, meter: GasMeter, loaded: TxContracts, em: EventManager, depth: U32)

  /** The plain state a context stands for. */
  ghost function Abs(ctx: Ctx): St
    requires ctx.layer.Valid()
    reads ctx.layer.chain, ctx.meter, ctx.loaded, ctx.em
  {
    St(ctx.layer.View(), ctx.meter.limit, ctx.meter.consumed, ctx.loaded.known, ctx.em.events)
  }

  ghost predicate Usable(ctx: Ctx)
    reads ctx.meter
  {
    ctx.layer.Valid() && ctx.meter.consumed <= ctx.meter.limit
  }

  /** What a Go function leaves its caller with. */
  datatype Ret<+T> = Value(value: T) | Failure(error: Error) | Panics(kind: PanicKind)

  /** The concrete result and the concrete context are those of the plain outcome.
      After a panic only the table of loaded contracts is still observable. */
  ghost predicate Matches<T>(ctx: Ctx, ret: Ret<T>, out: Out<T>)
    requires ctx.layer.Valid()
    reads ctx.layer.chain, ctx.meter, ctx.loaded, ctx.em
  {
    match out
    case Ok(st, v) => ret == Value(v) && Abs(ctx) == st
    case Err(st, e) => ret == Failure(e) && Abs(ctx) == st
    case Panic(k, warm) => ret == Panics(k) && ctx.loaded.known == warm
  }

  /** Like Matches, for a context that is dropped unless the call succeeds: after
      an error its store and events are not observable. */
  ghost predicate Sandboxed<T>(ctx: Ctx, ret: Ret<T>, out: Out<T>)
    requires ctx.layer.Valid()
    reads ctx.layer.chain, ctx.meter, ctx.loaded, ctx.em
  {
    if out.Err? then
      && ret == Failure(out.error) && ctx.loaded.known == out.st.warm
      && ctx.meter.limit == out.st.limit && ctx.meter.consumed == out.st.consumed
    else Matches(ctx, ret, out)
  }

  /** checkDiscountEligibility */
  method CheckDiscountEligibility(w: World, ctx: Ctx, self: Addr, entry: Entry) returns (discount: bool)
    requires Usable(ctx)
    modifies ctx.loaded
    ensures (discount, Abs(ctx)) == Discount(w, self, entry, old(Abs(ctx)))
  {
    var store := ctx.layer.View();
    var sum := w.checksum(store, self, entry);
    if entry.OnReply? || w.pinned(store, self, entry) || sum in ctx.loaded.known {
      return true;
    }
    ctx.loaded.AddContract(sum);
    return false;
  }

  /** runtimeGasForContract */
  method RuntimeGasForContract(w: World, ctx: Ctx) returns (r: Ret<U64>)
    requires Usable(ctx)
    ensures Matches(ctx, r, VmGasLimit(w, Abs(ctx)))
  {
    if ctx.meter.IsOutOfGas() {
      return Value(0);
    }
    if ctx.meter.limit == MAX_UINT64 {
      return Value(MAX_UINT64);
    }
    match ToVmGas(ctx.meter.limit - ctx.meter.consumed, w.multiplier)
    case None => return Panics(OutOfGas);
    case Some(g) => return Value(g);
  }

  /** The VM call and consumeRuntimeGas. */
  method CallVm(w: World, ctx: Ctx, run: VmRun) returns (r: Ret<VmRun>)
    requires Usable(ctx)
    modifies ctx.layer, ctx.meter, ctx.loaded
    ensures Matches(ctx, r, RunVm(w, run, old(Abs(ctx))))
  {
    ctx.layer.ApplyAll(run.writes);
    ctx.loaded.known := ctx.loaded.known + run.warmed;
    var _ := ctx.meter.ConsumeGas(run.hostGas);
    var panic := ctx.meter.ConsumeRuntimeGas(FromVmGas(run.vmGas, w.multiplier));
    match panic
    case Some(p) => return Panics(p);
    case None => return Value(run);
  }

  method EmitAll(ctx: Ctx, c: Converted) returns (r: Ret<()>)
    requires Usable(ctx)
    modifies ctx.em
    ensures Matches(ctx, r, EmitConverted(old(Abs(ctx)), c))
  {
    match c
    case Good(es) =>
      ctx.em.EmitEvents(es);
      return Value(());
    case Bad(e) => return Failure(e);
  }

  /** handleContractResponse up to the response handler. */
  method EmitResponse(w: World, ctx: Ctx, resp: Response) returns (r: Ret<()>)
    requires Usable(ctx)
    modifies ctx.meter, ctx.em
    ensures Matches(ctx, r, Emitting(w, resp, old(Abs(ctx))))
  {
    var panic := ctx.meter.ConsumeGas(w.eventCost(resp));
    if panic.Some? { return Panics(panic.value); }
    r := EmitAll(ctx, resp.attributes);
    if r.Value? {
      r := EmitAll(ctx, resp.custom);
    }
  }

  method RunEffect(ctx: Ctx, e: Effect) returns (r: Ret<()>)
    requires Usable(ctx)
    modifies ctx.layer, ctx.meter, ctx.em
    ensures Matches(ctx, r, Effected(old(Abs(ctx)), e))
  {
    var panic := ctx.meter.ConsumeGas(e.gas);
    if panic.Some? { return Panics(panic.value); }
    match e
    case Writes(_, ws, es) =>
      ctx.layer.ApplyAll(ws);
      ctx.em.EmitEvents(es);
      return Value(());
    case Rejected(_, err) => return Failure(err);
  }

  /** contractInstance, discount and setup cost. */
  method SetUp(w: World, ctx: Ctx, self: Addr, entry: Entry) returns (r: Ret<()>)
    requires Usable(ctx)
    modifies ctx.meter, ctx.loaded
    ensures Matches(ctx, r, Setup(w, self, entry, old(Abs(ctx))))
  {
    var found := w.instance(ctx.layer.View(), self, entry);
    var panic := ctx.meter.ConsumeGas(found.gas);
    if panic.Some? { return Panics(panic.value); }
    if found.missing.Some? { return Failure(found.missing.value); }
    var discount := CheckDiscountEligibility(w, ctx, self, entry);
    panic := ctx.meter.ConsumeGas(w.setupCost(discount, entry));
    if panic.Some? { return Panics(panic.value); }
    return Value(());
  }

  method LoadContract(w: World, ctx: Ctx, self: Addr, entry: Entry) returns (r: Ret<Effect>)
    requires Usable(ctx)
    modifies ctx.layer, ctx.meter, ctx.loaded, ctx.em
    ensures Matches(ctx, r, Load(w, self, entry, old(Abs(ctx))))
  {
    var s := SetUp(w, ctx, self, entry);
    if s.Failure? { return Failure(s.error); }
    if s.Panics? { return Panics(s.kind); }
    var prep := w.prepare(ctx.layer.View(), self, entry);
    var p := RunEffect(ctx, prep);
    if p.Failure? { return Failure(p.error); }
    if p.Panics? { return Panics(p.kind); }
    return Value(prep);
  }

  method InvokeVm(w: World, ctx: Ctx, self: Addr, entry: Entry) returns (r: Ret<VmRun>)
    requires Usable(ctx)
    modifies ctx.layer, ctx.meter, ctx.loaded
    ensures Matches(ctx, r, Invoke(w, self, entry, old(Abs(ctx))))
  {
    var gas := RuntimeGasForContract(w, ctx);
    if gas.Panics? { return Panics(gas.kind); }
    r := CallVm(w, ctx, w.vm(self, entry, ctx.layer.View(), gas.value));
  }

  method RecordEntry(w: World, ctx: Ctx, self: Addr, entry: Entry, resp: Response) returns (r: Ret<Began>)
    requires Usable(ctx)
    modifies ctx.layer, ctx.meter, ctx.em
    ensures Matches(ctx, r, Record(w, self, entry, resp, old(Abs(ctx))))
  {
    var pers := w.persist(ctx.layer.View(), self, entry);
    var p := RunEffect(ctx, pers);
    if p.Failure? { return Failure(p.error); }
    if p.Panics? { return Panics(p.kind); }
    ctx.em.EmitEvents([EntryEvent(self, entry)]);
    var e := EmitResponse(w, ctx, resp);
    match e
    case Failure(err) => return Failure(err);
    case Panics(k) => return Panics(k);
    case Value(_) => return Value(Began(resp, pers.writes, pers.emitted));
  }

  method ConcludeVm(w: World, ctx: Ctx, self: Addr, entry: Entry, run: VmRun) returns (r: Ret<Began>)
    requires Usable(ctx)
    modifies ctx.layer, ctx.meter, ctx.em
    ensures Matches(ctx, r, Conclude(w, self, entry, run, old(Abs(ctx))))
  {
    match run.out
    case Crashed(t) => return Failure(Error(Plain, "wasm", 29, t));
    case NoResult => return Failure(Error(Plain, "wasm", 29, "internal wasmvm error"));
    case Failed(t) => return Failure(Error(Deterministic, "wasm", FailureCode(entry), t));
    case Returned(resp) => r := RecordEntry(w, ctx, self, entry, resp);
  }

  /** execute, reply, instantiate and migrate up to their sub-messages. */
  method StartEntry(w: World, ctx: Ctx, self: Addr, entry: Entry) returns (r: Ret<Began>)
    requires Usable(ctx)
    modifies ctx.layer, ctx.meter, ctx.loaded, ctx.em
    ensures Matches(ctx, r, Begin(w, self, entry, old(Abs(ctx))))
  {
    var prep := LoadContract(w, ctx, self, entry);
    if prep.Failure? { return Failure(prep.error); }
    if prep.Panics? { return Panics(prep.kind); }
    var vm := InvokeVm(w, ctx, self, entry);
    if vm.Panics? { return Panics(vm.kind); }
    var c := ConcludeVm(w, ctx, self, entry, vm.value);
    if c.Failure? { return Failure(c.error); }
    if c.Panics? { return Panics(c.kind); }
    return Value(Began(c.value.response, prep.value.writes + vm.value.writes + c.value.own, prep.value.emitted + c.value.emitted));
  }

  /** A contract entry point with DefaultWasmVMContractResponseHandler.Handle. */
  method EnterContract(w: World, ctx: Ctx, self: Addr, entry: Entry) returns (r: Ret<Option<Bytes>>)
    requires Usable(ctx)
    modifies ctx.layer, ctx.meter, ctx.loaded, ctx.em
    ensures Matches(ctx, r, Enter(w, self, entry, old(Abs(ctx)), ctx.depth).out)
    decreases ctx.meter.limit - ctx.meter.consumed, 0, 0
  {
    var b := StartEntry(w, ctx, self, entry);
    match b
    case Failure(e) => return Failure(e);
    case Panics(k) => return Panics(k);
    case Value(began) =>
      var result := began.response.data;
      var rsp := DispatchSubmessages(w, ctx, self, began.response.msgs);
      match rsp
      case Failure(e) => return Failure(HandleError(entry, e));
      case Panics(k) => return Panics(k);
      case Value(v) =>
        if v.Some? {
          result := v;
        }
        return Value(result);
  }

  method HandleNative(ctx: Ctx, run: NativeRun) returns (r: Ret<MsgOk>)
    requires Usable(ctx)
    modifies ctx.layer, ctx.meter, ctx.loaded, ctx.em
    ensures Matches(ctx, r, RunNative(run, old(Abs(ctx))))
  {
    ctx.loaded.known := ctx.loaded.known + run.warmed;
    var panic := ctx.meter.ConsumeGas(run.gas);
    if panic.Some? { return Panics(panic.value); }
    ctx.layer.ApplyAll(run.writes);
    ctx.em.EmitEvents(run.emitted);
    match run.out
    case Handled(ok) => return Value(ok);
    case Refused(err) => return Failure(err);
    case Panicked(c) => return Panics(OtherPanic(c));
  }

  /** The message service router: the contract runs on an event manager of its own, whose
      events are returned. */
  method RouteToContract(w: World, ctx: Ctx, self: Addr, msg: Msg, d: U32) returns (r: Ret<MsgOk>)
    requires Usable(ctx) && msg.Wasm?
    modifies ctx.layer, ctx.meter, ctx.loaded, ctx.em
    ensures var st := old(Abs(ctx));
      Matches(ctx, r, AsMessage(w, msg, st.events,
        Enter(w, msg.target, Call(msg.op, self, msg.payload, msg.funds), st.(events := []), d)).out)
    decreases ctx.meter.limit - ctx.meter.consumed, 0, 1
  {
    var em := new EventManager();
    var sub := ctx.(em := em, depth := d);
    var e := EnterContract(w, sub, msg.target, Call(msg.op, self, msg.payload, msg.funds));
    match e
    case Failure(err) => return Failure(err);
    case Panics(k) => return Panics(k);
    case Value(data) =>
      var bytes := w.encode(msg, data);
      return Value(MsgOk(em.events, [bytes], [[MsgResponse("wasm", bytes)]]));
  }

  /** What a message comes to once the depth check has let it through. */
  ghost function Past(w: World, self: Addr, msg: Msg, st: St, d: U32): Out<MsgOk>
    requires Ready(st)
  {
    if msg.Wasm? then
      AsMessage(w, msg, st.events, Enter(w, msg.target, Call(msg.op, self, msg.payload, msg.funds), st.(events := []), d)).out
    else RunNative(w.native(self, msg, st.store, st.limit - st.consumed), st)
  }

  /** The handlers behind callDepthMessageHandler. */
  method HandleMessage(w: World, ctx: Ctx, self: Addr, msg: Msg, d: U32) returns (r: Ret<MsgOk>)
    requires Usable(ctx)
    modifies ctx.layer, ctx.meter, ctx.loaded, ctx.em
    ensures Matches(ctx, r, Past(w, self, msg, old(Abs(ctx)), d))
    decreases ctx.meter.limit - ctx.meter.consumed, 0, 2
  {
    if msg.Wasm? {
      r := RouteToContract(w, ctx, self, msg, d);
    } else {
      r := HandleNative(ctx, w.native(self, msg, ctx.layer.View(), ctx.meter.limit - ctx.meter.consumed));
    }
  }

  /** callDepthMessageHandler and the handlers behind it. */
  method DispatchMessage(w: World, ctx: Ctx, self: Addr, msg: Msg) returns (r: Ret<MsgOk>)
    requires Usable(ctx)
    modifies ctx.layer, ctx.meter, ctx.loaded, ctx.em
    ensures Matches(ctx, r, DispatchMsg(w, self, msg, old(Abs(ctx)), ctx.depth).out)
    decreases ctx.meter.limit - ctx.meter.consumed, 1
  {
    var d := (ctx.depth + 1) % TWO_32;
    if d > w.maxCallDepth {
      return Failure(Wrap(DEPTH_EXCEEDED, "dispatch"));
    }
    r := HandleMessage(w, ctx, self, msg, d);
  }

  /** dispatchMsgWithGasLimit: the deferred handler turns an out-of-gas panic of
      this very call into an error and charges the parent the whole limit. */
  method DispatchMsgWithGasLimit(w: World, ctx: Ctx, self: Addr, msg: Msg, gasLimit: U64) returns (r: Ret<MsgOk>)
    requires Usable(ctx) && gasLimit < ctx.meter.limit - ctx.meter.consumed
    modifies ctx.layer, ctx.meter, ctx.loaded, ctx.em
    ensures Sandboxed(ctx, r, DispatchLimited(w, self, msg, old(Abs(ctx)), gasLimit, ctx.depth).out)
    decreases ctx.meter.limit - ctx.meter.consumed, 1
  {
    var limited := new GasMeter(gasLimit);
    var sub := ctx.(meter := limited);
    r := DispatchMessage(w, sub, self, msg);
    var panic: Option<PanicKind> := None;
    if !r.Panics? {
      panic := ctx.meter.ConsumeGas(limited.consumed);
    } else {
      panic := Some(r.kind);
    }
    if panic.Some? {
      if !panic.value.OutOfGas? {
        return Panics(panic.value);
      }
      panic := ctx.meter.ConsumeGas(gasLimit);
      // the limit is below what the parent had left, so this charge cannot panic
      assert panic.None?;
      return Failure(SUBMSG_OUT_OF_GAS);
    }
  }

  /** Runs one sub-message on a sub-context: a cache on top of the store and an
      event manager of its own. Nothing of the parent's store or log changes. */
  method RunSandbox(w: World, ctx: Ctx, self: Addr, m: SubMsg) returns (sub: Ctx, res: Ret<MsgOk>)
    requires Usable(ctx)
    modifies ctx.meter, ctx.loaded
    ensures sub.layer.Valid() && fresh(sub.layer) && fresh(sub.em) && sub.layer.parent == ctx.layer
    ensures sub == ctx.(layer := sub.layer, em := sub.em)
    ensures Sandboxed(sub, res, Sandbox(w, self, m, old(Abs(ctx)), ctx.depth).out)
    decreases ctx.meter.limit - ctx.meter.consumed, 2
  {
    var cache := new Layer.Cache(ctx.layer);
    var em := new EventManager();
    sub := ctx.(layer := cache, em := em);
    assert Abs(sub) == old(Abs(ctx)).(events := []);
    var gasRemaining := ctx.meter.limit - ctx.meter.consumed;
    var limitGas := m.gasLimit.Some? && m.gasLimit.value < gasRemaining;
    if limitGas {
      res := DispatchMsgWithGasLimit(w, sub, self, m.msg, m.gasLimit.value);
    } else {
      res := DispatchMessage(w, sub, self, m.msg);
    }
  }

  /** Commits a sub-context and passes its filtered events on. */
  method CommitSandbox(ctx: Ctx, sub: Ctx, m: SubMsg, ok: MsgOk) returns (passed: seq<Event>)
    requires ctx.layer.Valid() && sub.layer.Valid() && sub.layer.parent == ctx.layer && sub.em != ctx.em
    modifies ctx.layer, ctx.em
    ensures passed == PassedOn(m, old(sub.em.events), ok.events)
    ensures ctx.layer.View() == old(sub.layer.View())
    ensures ctx.em.events == old(ctx.em.events) + passed
  {
    sub.layer.Commit();
    passed := FilterEvents(sub.em.events + ok.events);
    var before := ctx.em.events;
    ctx.em.EmitEvents(passed);
    if IsWasm(m.msg) {
      // the attribute slices are shared, so sorting them reorders the emitted events too
      passed := SortEach(passed);
      ctx.em.events := before + passed;
    }
  }

  /** One iteration of DispatchSubmessages. */
  method DispatchOne(w: World, ctx: Ctx, self: Addr, m: SubMsg, rsp: Option<Bytes>) returns (r: Ret<Option<Bytes>>)
    requires Usable(ctx)
    modifies ctx.layer, ctx.meter, ctx.loaded, ctx.em
    ensures Matches(ctx, r, Step(w, self, m, old(Abs(ctx)), rsp, ctx.depth).out)
    decreases ctx.meter.limit - ctx.meter.consumed, 3
  {
    if m.replyOn.Unset? { return Failure(INVALID_REPLY_ON); }
    ghost var st := Abs(ctx);
    ghost var box := Sandbox(w, self, m, st, ctx.depth);
    var sub, res := RunSandbox(w, ctx, self, m);
    assert ctx.layer.View() == st.store;
    match res
    case Panics(k) => return Panics(k);
    case Value(ok) =>
      var passed := CommitSandbox(ctx, sub, m, ok);
      assert Abs(ctx) == Decide(m, st, box.out).st;
      if m.replyOn.Never? || m.replyOn.OnError? {
        return Value(rsp);
      }
      r := CallReply(w, ctx, self, OkReply(m, passed, ok), rsp, m, box.trace, Committed);
    case Failure(e) =>
      assert Abs(ctx) == Decide(m, st, box.out).st;
      if m.replyOn.Success? || m.replyOn.Never? {
        return Failure(e);
      }
      r := CallReply(w, ctx, self, ErrReply(m, e), rsp, m, box.trace, Reverted(e));
  }

  /** The reply runs in the parent context. */
  method CallReply(w: World, ctx: Ctx, self: Addr, reply: Reply, rsp: Option<Bytes>, ghost m: SubMsg, ghost run: Trace, ghost verdict: Verdict) returns (r: Ret<Option<Bytes>>)
    requires Usable(ctx)
    modifies ctx.layer, ctx.meter, ctx.loaded, ctx.em
    ensures Matches(ctx, r, AfterReply(m, run, verdict, rsp, Enter(w, self, OnReply(reply), old(Abs(ctx)), ctx.depth)).out)
    decreases ctx.meter.limit - ctx.meter.consumed, 2
  {
    r := EnterContract(w, ctx, self, OnReply(reply));
    match r
    case Failure(e) => r := Failure(Wrap(e, "reply"));
    case Panics(_) =>
    case Value(v) =>
      if v.None? {
        r := Value(rsp);
      }
  }

  /** DispatchSubmessages */
  method DispatchSubmessages(w: World, ctx: Ctx, self: Addr, msgs: seq<SubMsg>) returns (r: Ret<Option<Bytes>>)
    requires Usable(ctx)
    modifies ctx.layer, ctx.meter, ctx.loaded, ctx.em
    ensures Matches(ctx, r, DispatchSubs(w, self, msgs, old(Abs(ctx)), None, ctx.depth).out)
    decreases ctx.meter.limit - ctx.meter.consumed, 4
  {
    var rsp: Option<Bytes> := None;
    for i := 0 to |msgs|
      invariant Usable(ctx) && old(ctx.meter.consumed) <= ctx.meter.consumed
      invariant DispatchSubs(w, self, msgs, old(Abs(ctx)), None, ctx.depth).out
             == DispatchSubs(w, self, msgs[i..], Abs(ctx), rsp, ctx.depth).out
    {
      assert msgs[i..][0] == msgs[i] && msgs[i..][1..] == msgs[i + 1..];
      var one := DispatchOne(w, ctx, self, msgs[i], rsp);
      match one
      case Failure(e) => return Failure(e);
      case Panics(k) => return Panics(k);
      case Value(v) => rsp := v;
    }
    return Value(rsp);
  }
}
