/** Receiving packets and writing acknowledgements on stacked store caches, proved to do
    what module AsyncAck says about plain stores. */
module PacketHandlers {
  import opened Bytes
  import opened Gas
  import opened Kv
  import opened Events
  import opened Dispatch
  import opened Dispatcher
  import opened PacketKeys
  import opened AsyncAck

  datatype Ack = NoReturn | ErrorResult | NoAck | SuccessResult(data: Bytes)

  method CallVmOfReceiver(w: World, ctx: Ctx, rx: Receiving) returns (r: Ret<VmRun>)
    requires Usable(ctx)
    modifies ctx.layer, ctx.meter, ctx.loaded
    ensures Matches(ctx, r, RunReceiver(w, rx, old(Abs(ctx))))
  {
    var panic := ctx.meter.ConsumeGas(rx.found.gas);
    if panic.Some? { return Panics(panic.value); }
    if rx.found.missing.Some? { return Failure(rx.found.missing.value); }
    var gas := RuntimeGasForContract(w, ctx);
    if gas.Panics? { return Panics(gas.kind); }
    r := CallVm(w, ctx, rx.run);
  }

  method HandleResponse(w: World, ctx: Ctx, self: Addr, run: VmRun) returns (r: Ret<Option<Bytes>>)
    requires Usable(ctx) && ctx.depth == 0
    modifies ctx.layer, ctx.meter, ctx.loaded, ctx.em
    ensures Matches(ctx, r, Responded(w, self, run, old(Abs(ctx))))
  {
    match run.out
    case Crashed(_) => return Panics(OtherPanic(0));
    case NoResult => return Failure(Error(Plain, "wasm", 29, "internal wasmvm error"));
    case Failed(t) => return Failure(Error(Deterministic, "wasm", 5, t));
    case Returned(resp) =>
      var e := EmitResponse(w, ctx, resp);
      if e.Failure? { return Failure(e.error); }
      if e.Panics? { return Panics(e.kind); }
      r := DispatchSubmessages(w, ctx, self, resp.msgs);
      if r == Value(None) { r := Value(resp.data); }
  }

  /** Keeper.OnRecvPacket up to the acknowledgement data. */
  method CallReceiver(w: World, ctx: Ctx, self: Addr, rx: Receiving) returns (r: Ret<Option<Bytes>>)
    requires Usable(ctx) && ctx.depth == 0
    modifies ctx.layer, ctx.meter, ctx.loaded, ctx.em
    ensures Matches(ctx, r, Respond(w, self, rx, old(Abs(ctx))))
  {
    var vm := CallVmOfReceiver(w, ctx, rx);
    if vm.Failure? { return Failure(vm.error); }
    if vm.Panics? { return Panics(vm.kind); }
    r := HandleResponse(w, ctx, self, vm.value);
  }

  /** The answer, and the store and events it comes with unless they are reverted. */
  ghost predicate Reports(res: Received, r: Ack, s: Store, es: seq<Event>) {
    match res
    case Undone => r == NoReturn
    case ErrorAck(_) => r == ErrorResult
    case Async(st) => r == NoAck && s == st.store && es == st.events
    case SuccessAck(st, data) => r == SuccessResult(data) && s == st.store && es == st.events
  }

  /** Keeper.OnRecvPacket: store, gas and events of the receiving contract and of all it
      dispatches, and the packet stored exactly when there is no acknowledgement data. */
  method ReceivePacket(w: World, ibc: Ibc, ctx: Ctx, self: Addr, msg: WasmPacket, rx: Receiving, ghost res: Received) returns (r: Ack)
    requires Usable(ctx) && ctx.depth == 0 && res == OnRecvPacket(w, ibc, self, msg, rx, Abs(ctx))
    modifies ctx.layer, ctx.meter, ctx.loaded, ctx.em
    ensures Reports(res, r, ctx.layer.View(), ctx.em.events)
    ensures res.ErrorAck? ==> ctx.meter.consumed == res.consumed
    ensures res.Async? || res.SuccessAck? ==> Abs(ctx) == res.st
  {
    var out := CallReceiver(w, ctx, self, rx);
    if out.Panics? { return NoReturn; }
    if out.Failure? { return ErrorResult; }
    if out.value.Some? { return SuccessResult(out.value.value); }
    r := StoreForLater(ibc, ctx, ConvertPacket(msg), rx.storeGas);
  }

  /** StoreAsyncAckPacket */
  method StoreForLater(ibc: Ibc, ctx: Ctx, p: Packet, gas: U64) returns (r: Ack)
    requires Usable(ctx)
    modifies ctx.layer, ctx.meter
    ensures match StoredForLater(ibc, p, gas, old(Abs(ctx)))
      case Async(st) => r == NoAck && Abs(ctx) == st
      case _ => r == NoReturn
  {
    var panic := ctx.meter.ConsumeGas(gas);
    if panic.Some? { return NoReturn; }
    ctx.layer.Set(PendingKey(IdOf(p)), ibc.encode(p));
    return NoAck;
  }

  /** Core IBC writes one acknowledgement. */
  method Acknowledge(layer: Layer, id: PacketId)
    requires layer.Valid()
    modifies layer
    ensures layer.View() == Acknowledged(old(layer.View()), id)
  {
    var log := layer.Get(AckKey(id));
    layer.Set(AckKey(id), (if log.Some? then log.value else []) + [1]);
  }

  /** The events a delivery adds to the transaction's log: those of the receiving contract
      unless its state is reverted. */
  function Logged(r: Received): seq<Event> {
    if r.Async? || r.SuccessAck? then r.st.events else []
  }

  /** A missing or a successful acknowledgement passes store and events on. */
  method PassOn(cache: Layer, own: EventManager, tx: Layer, em: EventManager, r: Ack, ghost res: Received)
    requires cache.Valid() && cache.parent == tx && own != em && Reports(res, r, cache.View(), own.events)
    modifies tx, em
    ensures em.events == old(em.events) + Logged(res)
    ensures Reports(res, r, tx.View(), own.events) && (res.ErrorAck? ==> tx.View() == old(tx.View()))
  {
    if r.NoAck? || r.SuccessResult? {
      em.EmitEvents(own.events);
      cache.Commit();
    }
  }

  /** res is what the receiving contract makes of packet p on store s. */
  ghost predicate Outcome(w: World, ibc: Ibc, p: Packet, self: Addr, rx: Receiving, gas: U64, s: Store, res: Received) {
    res == OnRecvPacket(w, ibc, self, NewIbcPacket(p), rx, St(s, gas, 0, {}, []))
  }

  /** IBCHandler.OnRecvPacket on a cache and an event manager of its own. */
  method RunCallback(tx: Layer, em: EventManager, w: World, ibc: Ibc, p: Packet, self: Addr, rx: Receiving, gas: U64, ghost res: Received) returns (r: Ack)
    requires tx.Valid() && Outcome(w, ibc, p, self, rx, gas, tx.View(), res)
    modifies tx, em
    ensures em.events == old(em.events) + Logged(res)
    ensures exists es :: Reports(res, r, tx.View(), es)
    ensures res.ErrorAck? ==> tx.View() == old(tx.View())
  {
    var ctx := CallbackContext(tx, gas);
    r := ReceivePacket(w, ibc, ctx, self, NewIbcPacket(p), rx, res);
    assert tx.View() == old(tx.View()) && em.events == old(em.events);
    PassOn(ctx.layer, ctx.em, tx, em, r, res);
  }

  /** A cache, a meter and an event manager of its own. */
  method CallbackContext(tx: Layer, gas: U64) returns (ctx: Ctx)
    requires tx.Valid()
    ensures Usable(ctx) && ctx.depth == 0 && ctx.layer.parent == tx && ctx.layer.chain == tx.chain + {ctx.layer} && ctx.layer !in tx.chain
    ensures fresh(ctx.layer) && fresh(ctx.meter) && fresh(ctx.loaded) && fresh(ctx.em)
    ensures Abs(ctx) == St(tx.View(), gas, 0, {}, [])
  {
    var cache := new Layer.Cache(tx);
    var loaded := new TxContracts();
    var meter := new GasMeter(gas);
    var own := new EventManager();
    ctx := Ctx(cache, meter, loaded, own, 0);
  }

  /** Core IBC's RecvPacket around IBCHandler.OnRecvPacket, as one transaction. */
  method DeliverPacket(layer: Layer, w: World, ibc: Ibc, p: Packet, self: Addr, rx: Receiving, gas: U64)
    requires layer.Valid()
    modifies layer
    ensures layer.View() == Deliver(w, ibc, old(layer.View()), p, self, rx, gas)
  {
    var receipt := layer.Get(ReceiptKey(IdOf(p)));
    if !ibc.owns(p.dstPort, p.dstChannel) || receipt.Some? { return; }
    ghost var s1 := layer.View()[ReceiptKey(IdOf(p)) := ibc.encode(p)];
    ghost var res := OnRecvPacket(w, ibc, self, NewIbcPacket(p), rx, St(s1, gas, 0, {}, []));
    DeliverNew(layer, w, ibc, p, self, rx, gas, s1, res);
  }

  /** A transaction that has put the receipt. */
  method Transaction(layer: Layer, key: Bytes, value: Bytes) returns (tx: Layer, em: EventManager)
    requires layer.Valid()
    ensures tx.Valid() && fresh(tx) && fresh(em) && tx.parent == layer && tx.chain == layer.chain + {tx} && tx !in layer.chain
    ensures tx.View() == layer.View()[key := value]
  {
    tx := new Layer.Cache(layer);
    tx.Set(key, value);
    em := new EventManager();
  }

  method DeliverNew(layer: Layer, w: World, ibc: Ibc, p: Packet, self: Addr, rx: Receiving, gas: U64, ghost s1: Store, ghost res: Received)
    requires layer.Valid() && s1 == layer.View()[ReceiptKey(IdOf(p)) := ibc.encode(p)]
    requires Outcome(w, ibc, p, self, rx, gas, s1, res)
    modifies layer
    ensures layer.View() == Settled(old(layer.View()), s1, IdOf(p), res)
  {
    var tx, em := Transaction(layer, ReceiptKey(IdOf(p)), ibc.encode(p));
    var r := RunCallback(tx, em, w, ibc, p, self, rx, gas, res);
    assert layer.View() == old(layer.View());
    Finish(layer, tx, IdOf(p), r, s1, res);
  }

  /** The acknowledgement the callback asks for; a panic leaves nothing to commit. */
  method Finish(layer: Layer, tx: Layer, id: PacketId, r: Ack, ghost s1: Store, ghost res: Received)
    requires tx.Valid() && tx.parent == layer && (exists es :: Reports(res, r, tx.View(), es)) && (res.ErrorAck? ==> tx.View() == s1)
    modifies layer, tx
    ensures layer.View() == Settled(old(layer.View()), s1, id, res)
  {
    if r.NoReturn? { return; }
    if !r.NoAck? { Acknowledge(tx, id); }
    tx.Commit();
  }

  /** The WriteAcknowledgement branch of IBCRawPacketHandler.DispatchMsg */
  method WriteAcknowledgement(layer: Layer, ibc: Ibc, contract: Addr, channel: Bytes, n: U64, coreOk: bool) returns (ok: bool)
    requires layer.Valid()
    modifies layer
    ensures ok == WriteAck(ibc, old(layer.View()), contract, channel, n, coreOk).Some?
    ensures layer.View() ==
      if ok then Apply(old(layer.View()), WriteAck(ibc, old(layer.View()), contract, channel, n, coreOk).value) else old(layer.View())
  {
    var port := ibc.portOf(contract);
    if port == [] || channel == [] || !ibc.owns(port, channel) { return false; }
    var id := PacketId(port, channel, n);
    var stored := layer.Get(PendingKey(id));
    if stored.None? || stored.value == [] { return false; }
    var packet := ibc.decode(stored.value);
    if packet.None? || !coreOk { return false; }
    AckApplied(layer.View(), id, packet.value);
    Acknowledge(layer, IdOf(packet.value));
    layer.Remove(PendingKey(id));
    return true;
  }
}
