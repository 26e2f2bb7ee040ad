/** Which answer a received packet gets, said of the contract's run alone, and that a packet
    without one can be acknowledged later. */
module PacketOutcomes {
  import opened Bytes
  import opened Scans
  import opened Gas
  import opened Kv
  import opened Dispatch
  import opened PacketKeys
  import opened AsyncAck
  import DispatchOutcomes

  /** What the contract gets to see of a packet: sender and receiver, sequence, data and
      timeouts of the packet itself. */
  lemma ContractSeesPacket(p: Packet)
    ensures var w := NewIbcPacket(p);
      && w.src == Endpoint(p.srcPort, p.srcChannel) && w.dest == Endpoint(p.dstPort, p.dstChannel)
      && w.sequence == p.sequence && w.data == p.data && w.timestamp == p.timestamp
      && (w.block == None <==> p.timeoutHeight.revision == 0 && p.timeoutHeight.height == 0)
      && (w.block.Some? ==> w.block.value == p.timeoutHeight)
  {
  }

  // ---- the run of the receiving contract ----

  /** The contract is found and its VM run, whatever its result, is paid for. */
  predicate Ran(w: World, rx: Receiving, st: St)
    requires Ready(st)
  {
    && rx.found.missing.None? && st.consumed + Cost(w, rx) < st.limit
    && !DispatchOutcomes.VmGasRefused(w, st.limit, st.consumed + rx.found.gas)
  }

  /** Lookup, host calls, and VM gas divided by the multiplier. */
  function Cost(w: World, rx: Receiving): (r: nat)
    ensures r >= rx.found.gas
  {
    rx.found.gas + rx.run.hostGas + DispatchOutcomes.SdkGas(rx.run.vmGas, w.multiplier)
  }

  /** The state it leaves. */
  function AfterRun(w: World, rx: Receiving, st: St): St
    requires Ready(st) && Ran(w, rx, st)
  {
    st.(store := Apply(st.store, rx.run.writes), warm := st.warm + rx.run.warmed, consumed := st.consumed + Cost(w, rx))
  }

  /** Its response, with its events emitted and its sub-messages dispatched. */
  function Dispatched(w: World, self: Addr, resp: Response, st: St): Out<Option<Bytes>>
    requires Ready(st)
  {
    var e := Emitting(w, resp, st);
    if e.Ok? then DispatchSubs(w, self, resp.msgs, e.st, None, 0).out else e.PropagateFailure()
  }

  /** The acknowledgement data: that of the last reply, else the contract's own. */
  function AckData(resp: Response, replied: Option<Bytes>): Option<Bytes> {
    match replied
    case Some(data) => Some(data)
    case None => resp.data
  }

  lemma RanWhen(w: World, rx: Receiving, st: St)
    requires Ready(st)
    ensures var r, missing := RunReceiver(w, rx, st), rx.found.missing.Some? && st.consumed + rx.found.gas <= st.limit;
      && (Ran(w, rx, st) ==> r == Ok(AfterRun(w, rx, st), rx.run))
      && (missing ==> r == Err(st.(consumed := st.consumed + rx.found.gas), rx.found.missing.value))
      && (!Ran(w, rx, st) && !missing ==> r.Panic?)
  {
  }

  /** A packet gets a success acknowledgement if and only if the contract ran, returned a
      response whose events and sub-messages went through, and there is data; the answer is
      that data, and the state is that of the run. */
  lemma SuccessIff(w: World, ibc: Ibc, self: Addr, msg: WasmPacket, rx: Receiving, st: St, data: Bytes)
    requires Ready(st)
    ensures var r := OnRecvPacket(w, ibc, self, msg, rx, st);
      (r.SuccessAck? && r.data == data) <==>
        && Ran(w, rx, st) && rx.run.out.Returned?
        && var d := Dispatched(w, self, rx.run.out.response, AfterRun(w, rx, st));
           d.Ok? && AckData(rx.run.out.response, d.value) == Some(data)
    ensures var r := OnRecvPacket(w, ibc, self, msg, rx, st);
      Ran(w, rx, st) && rx.run.out.Returned? && r.SuccessAck? ==> r.st == Dispatched(w, self, rx.run.out.response, AfterRun(w, rx, st)).st
  {
    RanWhen(w, rx, st);
  }

  /** It is stored, and not answered, if and only if everything went through the same way but
      there is no data, and storing it can be paid for. */
  lemma StoredIff(w: World, ibc: Ibc, self: Addr, msg: WasmPacket, rx: Receiving, st: St)
    requires Ready(st)
    ensures var r := OnRecvPacket(w, ibc, self, msg, rx, st);
      r.Async? <==>
        && Ran(w, rx, st) && rx.run.out.Returned?
        && var d := Dispatched(w, self, rx.run.out.response, AfterRun(w, rx, st));
           d.Ok? && AckData(rx.run.out.response, d.value) == None && d.st.consumed + rx.storeGas <= st.limit
    ensures var r := OnRecvPacket(w, ibc, self, msg, rx, st);
      Ran(w, rx, st) && rx.run.out.Returned? && r.Async? ==>
        var d, p := Dispatched(w, self, rx.run.out.response, AfterRun(w, rx, st)), ConvertPacket(msg);
        r.st.store == d.st.store[PendingKey(IdOf(p)) := ibc.encode(p)] && r.st.events == d.st.events
  {
    RanWhen(w, rx, st);
  }

  /** It gets an error acknowledgement if and only if the contract is missing, its run ends in
      an error or without a result, or its response or a sub-message fails without a panic. */
  lemma ErrorIff(w: World, ibc: Ibc, self: Addr, msg: WasmPacket, rx: Receiving, st: St)
    requires Ready(st)
    ensures OnRecvPacket(w, ibc, self, msg, rx, st).ErrorAck? <==>
      || (rx.found.missing.Some? && st.consumed + rx.found.gas <= st.limit)
      || (Ran(w, rx, st) && (rx.run.out.Failed? || rx.run.out.NoResult?))
      || (Ran(w, rx, st) && rx.run.out.Returned? && Dispatched(w, self, rx.run.out.response, AfterRun(w, rx, st)).Err?)
  {
    RanWhen(w, rx, st);
  }

  /** A crash of the VM undoes the receive: there is no answer and no trace of it. */
  lemma CrashUndoes(w: World, ibc: Ibc, s: Store, p: Packet, self: Addr, rx: Receiving, gas: U64)
    requires rx.run.out.Crashed? && rx.found.missing.None?
    ensures Deliver(w, ibc, s, p, self, rx, gas) == s
  {
    var s1 := s[ReceiptKey(IdOf(p)) := ibc.encode(p)];
    RanWhen(w, rx, St(s1, gas, 0, {}, []));
  }

  // ---- what a delivery leaves in the store ----

  predicate New(ibc: Ibc, s: Store, p: Packet) { ibc.owns(p.dstPort, p.dstChannel) && ReceiptKey(IdOf(p)) !in s }

  function Start(ibc: Ibc, s: Store, p: Packet, gas: U64): St {
    St(s[ReceiptKey(IdOf(p)) := ibc.encode(p)], gas, 0, {}, [])
  }

  /** A contract that ends in an error leaves the old store with the receipt and one
      acknowledgement: nothing it or its sub-messages wrote. */
  lemma FailureLeaves(w: World, ibc: Ibc, s: Store, p: Packet, self: Addr, rx: Receiving, gas: U64)
    requires New(ibc, s, p) && Ran(w, rx, Start(ibc, s, p, gas)) && (rx.run.out.Failed? || rx.run.out.NoResult?)
    ensures Deliver(w, ibc, s, p, self, rx, gas)
      == s[ReceiptKey(IdOf(p)) := ibc.encode(p)][AckKey(IdOf(p)) := AckLog(s, IdOf(p)) + [1]]
  {
    ErrorIff(w, ibc, self, NewIbcPacket(p), rx, Start(ibc, s, p, gas));
    assert ReceiptKey(IdOf(p))[0] != AckKey(IdOf(p))[0];
  }

  /** So does one whose response or sub-message fails. */
  lemma DispatchFailureLeaves(w: World, ibc: Ibc, s: Store, p: Packet, self: Addr, rx: Receiving, gas: U64)
    requires New(ibc, s, p) && Ran(w, rx, Start(ibc, s, p, gas)) && rx.run.out.Returned?
    requires Dispatched(w, self, rx.run.out.response, AfterRun(w, rx, Start(ibc, s, p, gas))).Err?
    ensures Deliver(w, ibc, s, p, self, rx, gas)
      == s[ReceiptKey(IdOf(p)) := ibc.encode(p)][AckKey(IdOf(p)) := AckLog(s, IdOf(p)) + [1]]
  {
    ErrorIff(w, ibc, self, NewIbcPacket(p), rx, Start(ibc, s, p, gas));
    assert ReceiptKey(IdOf(p))[0] != AckKey(IdOf(p))[0];
  }

  /** A success leaves the store of the run with one acknowledgement more. */
  lemma SuccessLeaves(w: World, ibc: Ibc, s: Store, p: Packet, self: Addr, rx: Receiving, gas: U64)
    requires New(ibc, s, p) && Ran(w, rx, Start(ibc, s, p, gas)) && rx.run.out.Returned?
    requires var d := Dispatched(w, self, rx.run.out.response, AfterRun(w, rx, Start(ibc, s, p, gas)));
      d.Ok? && AckData(rx.run.out.response, d.value).Some?
    ensures var d := Dispatched(w, self, rx.run.out.response, AfterRun(w, rx, Start(ibc, s, p, gas)));
      Deliver(w, ibc, s, p, self, rx, gas) == d.st.store[AckKey(IdOf(p)) := AckLog(d.st.store, IdOf(p)) + [1]]
  {
    var d := Dispatched(w, self, rx.run.out.response, AfterRun(w, rx, Start(ibc, s, p, gas)));
    SuccessIff(w, ibc, self, NewIbcPacket(p), rx, Start(ibc, s, p, gas), AckData(rx.run.out.response, d.value).value);
  }

  // ---- the later acknowledgement ----

  /** A packet that was stored is found by the acknowledgement message of its own contract for
      its channel and sequence; core IBC agreeing, one acknowledgement is written and the
      packet is no longer pending. */
  lemma StoredCanBeAcknowledged(w: World, ibc: Ibc, s: Store, p: Packet, self: Addr, rx: Receiving, gas: U64)
    requires SoundIbc(ibc) && New(ibc, s, p) && ibc.portOf(self) == p.dstPort && p.dstPort != [] && p.dstChannel != []
    requires OnRecvPacket(w, ibc, self, NewIbcPacket(p), rx, Start(ibc, s, p, gas)).Async?
    ensures var t := Deliver(w, ibc, s, p, self, rx, gas);
      && LoadPacket(ibc, t, IdOf(p)) == Some(p)
      && var ws := WriteAck(ibc, t, self, p.dstChannel, p.sequence, true);
         ws.Some? && AckLog(Apply(t, ws.value), IdOf(p)) == AckLog(t, IdOf(p)) + [1] && PendingKey(IdOf(p)) !in Apply(t, ws.value)
  {
    var t, id := Deliver(w, ibc, s, p, self, rx, gas), IdOf(p);
    ConversionsInverse(p, NewIbcPacket(p));
    StoredIff(w, ibc, self, NewIbcPacket(p), rx, Start(ibc, s, p, gas));
    assert PendingKey(id) in t && t[PendingKey(id)] == ibc.encode(p);
    assert ibc.encode(p) != [] && ibc.decode(ibc.encode(p)) == Some(p);
    AckApplied(t, id, p);
    assert PendingKey(id)[0] != AckKey(id)[0];
  }

  /** A packet that is not pending, or belongs to another contract, cannot be acknowledged. */
  lemma OnlyPendingAcknowledged(ibc: Ibc, s: Store, contract: Addr, channel: Bytes, n: U64, coreOk: bool)
    requires WriteAck(ibc, s, contract, channel, n, coreOk).Some?
    ensures coreOk && ibc.owns(ibc.portOf(contract), channel) && PendingKey(PacketId(ibc.portOf(contract), channel, n)) in s
  {
  }
}
