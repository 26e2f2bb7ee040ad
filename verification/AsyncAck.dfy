/** Acknowledgements of received IBC packets: given at once, or later from a stored
    packet. Receiving contracts run through the dispatcher, with all its rollbacks. */
module AsyncAck {
  import opened Bytes
  import opened Scans
  import opened Gas
  import opened Kv
  import opened Dispatch
  import opened DispatchRelations
  import opened PacketKeys

  // ---- packets ----

  datatype Height = Height(revision: U64, height: U64)
  datatype Packet = Packet(
    sequence: U64, srcPort: Bytes, srcChannel: Bytes, dstPort: Bytes, dstChannel: Bytes,
    data: Bytes, timeoutHeight: Height, timestamp: U64)

  datatype Endpoint = Endpoint(port: Bytes, channel: Bytes)

  /** The packet as contracts see it; no timeout block stands for height zero. */
  datatype WasmPacket = WasmPacket(
    data: Bytes, src: Endpoint, dest: Endpoint, sequence: U64, block: Option<Height>, timestamp: U64)

  function NewIbcPacket(p: Packet): WasmPacket {
    WasmPacket(p.data, Endpoint(p.srcPort, p.srcChannel), Endpoint(p.dstPort, p.dstChannel), p.sequence,
               if p.timeoutHeight == Height(0, 0) then None else Some(p.timeoutHeight), p.timestamp)
  }

  function ConvertPacket(w: WasmPacket): Packet {
    Packet(w.sequence, w.src.port, w.src.channel, w.dest.port, w.dest.channel, w.data,
           if w.block.Some? then w.block.value else Height(0, 0), w.timestamp)
  }

  /** Converting a packet for the contract and back loses nothing; the other way round
      only a timeout block of height zero is lost. */
  lemma ConversionsInverse(p: Packet, w: WasmPacket)
    ensures ConvertPacket(NewIbcPacket(p)) == p
    ensures NewIbcPacket(ConvertPacket(w)) == w <==> w.block != Some(Height(0, 0))
  {
  }

  function IdOf(p: Packet): PacketId { PacketId(p.dstPort, p.dstChannel, p.sequence) }

  // ---- where packets, receipts and acknowledgements are kept ----

  const PENDING: Byte := 0x11
  const RECEIPT: Byte := 0xE0
  const ACKED: Byte := 0xE1

  function PendingKey(id: PacketId): Bytes { [PENDING] + Suffix(id) }

  /** Core IBC's own records, in a space of their own: which packet was received, and one
      byte per acknowledgement written for it. */
  function ReceiptKey(id: PacketId): Bytes { [RECEIPT] + Suffix(id) }
  function AckKey(id: PacketId): Bytes { [ACKED] + Suffix(id) }

  function AckLog(s: Store, id: PacketId): Bytes {
    if AckKey(id) in s then s[AckKey(id)] else []
  }

  predicate Special(k: Bytes) { k != [] && (k[0] == PENDING || k[0] == RECEIPT || k[0] == ACKED) }

  lemma KeysApart(i: PacketId, j: PacketId)
    requires Proper(i) && Proper(j) && i != j
    ensures PendingKey(i) != PendingKey(j) && ReceiptKey(i) != ReceiptKey(j) && AckKey(i) != AckKey(j)
  {
    assert PendingKey(i)[1..] == Suffix(i) && PendingKey(j)[1..] == Suffix(j);
    assert ReceiptKey(i)[1..] == Suffix(i) && ReceiptKey(j)[1..] == Suffix(j);
    assert AckKey(i)[1..] == Suffix(i) && AckKey(j)[1..] == Suffix(j);
    if Suffix(i) == Suffix(j) { SuffixInjective(i, j); }
  }

  /** The codec, the port of a contract, the channels that exist, and the acknowledgement
      messages among native messages. */
  datatype Ibc = Ibc(
    encode: Packet -> Bytes, decode: Bytes -> Option<Packet>,
    portOf: Addr -> Bytes, owns: (Bytes, Bytes) -> bool, ackMsg: Msg -> Option<(Bytes, U64)>)

  ghost predicate SoundIbc(ibc: Ibc) {
    && (forall p :: ibc.encode(p) != [] && ibc.decode(ibc.encode(p)) == Some(p))
    && (forall port, channel, n: U64 :: ibc.owns(port, channel) ==> Proper(PacketId(port, channel, n)))
  }

  // ---- the acknowledgement message ----

  /** LoadAsyncAckPacket */
  function LoadPacket(ibc: Ibc, s: Store, id: PacketId): Option<Packet> {
    if PendingKey(id) !in s || s[PendingKey(id)] == [] then None else ibc.decode(s[PendingKey(id)])
  }

  function Acknowledged(s: Store, id: PacketId): Store {
    s[AckKey(id) := AckLog(s, id) + [1]]
  }

  function AckWrites(s: Store, id: PacketId, p: Packet): seq<Write> {
    [Put(AckKey(IdOf(p)), AckLog(s, IdOf(p)) + [1]), Delete(PendingKey(id))]
  }

  /** The WriteAcknowledgement branch of IBCRawPacketHandler: the writes it makes, or None
      for an error. Core IBC may refuse on grounds of its own. */
  function WriteAck(ibc: Ibc, s: Store, contract: Addr, channel: Bytes, sequence: U64, coreOk: bool): Option<seq<Write>> {
    var port := ibc.portOf(contract);
    var id := PacketId(port, channel, sequence);
    if port == [] || channel == [] || !ibc.owns(port, channel) then None
    else match LoadPacket(ibc, s, id)
      case None => None
      case Some(p) => if coreOk then Some(AckWrites(s, id, p)) else None
  }

  /** Writes that stay clear of pending packets and of core IBC's records. */
  ghost predicate Clear(ws: seq<Write>) {
    forall i | 0 <= i < |ws| :: !Special(ws[i].key)
  }

  /** Contracts write under their own prefix and other messages elsewhere; acknowledgement
      messages do what WriteAck says, or nothing. */
  ghost predicate Tame(w: World, ibc: Ibc) {
    && (forall s, a, e :: w.prepare(s, a, e).Writes? ==> Clear(w.prepare(s, a, e).writes))
    && (forall s, a, e :: w.persist(s, a, e).Writes? ==> Clear(w.persist(s, a, e).writes))
    && (forall a, e, s, g :: Clear(w.vm(a, e, s, g).writes))
    && (forall a, m, s, g :: ClearOrAck(ibc, a, m, s, w.native(a, m, s, g).writes))
  }

  ghost predicate ClearOrAck(ibc: Ibc, a: Addr, m: Msg, s: Store, ws: seq<Write>) {
    match ibc.ackMsg(m)
    case None => Clear(ws)
    case Some((channel, n)) => ws == [] || WriteAck(ibc, s, a, channel, n, true) == Some(ws)
  }

  // ---- the invariant ----

  /** One packet: at most one acknowledgement; while it waits for one, the stored packet is
      the received one; and what was received is one of the delivered packets. */
  ghost predicate Good(ibc: Ibc, s: Store, id: PacketId, delivered: set<Packet>) {
    && |AckLog(s, id)| <= 1
    && (PendingKey(id) in s ==> AckLog(s, id) == [] && Lookup(s, PendingKey(id)) == Lookup(s, ReceiptKey(id)))
    && (AckLog(s, id) != [] ==> ReceiptKey(id) in s)
    && (ReceiptKey(id) in s ==>
      var d := ibc.decode(s[ReceiptKey(id)]); d.Some? && d.value in delivered && IdOf(d.value) == id)
  }

  /** Received in this very transaction, and neither stored nor acknowledged yet. */
  predicate Unanswered(s: Store, id: PacketId) {
    AckLog(s, id) == [] && PendingKey(id) !in s
  }

  ghost predicate Inv(ibc: Ibc, s: Store, delivered: set<Packet>) {
    forall id | Proper(id) :: Good(ibc, s, id, delivered)
  }

  /** Only three entries of the store matter to a packet. */
  lemma SameGood(ibc: Ibc, s: Store, t: Store, id: PacketId, delivered: set<Packet>)
    requires Good(ibc, s, id, delivered)
    requires Lookup(t, PendingKey(id)) == Lookup(s, PendingKey(id))
    requires Lookup(t, ReceiptKey(id)) == Lookup(s, ReceiptKey(id)) && Lookup(t, AckKey(id)) == Lookup(s, AckKey(id))
    ensures Good(ibc, t, id, delivered) && (Unanswered(s, id) ==> Unanswered(t, id))
  {
  }

  lemma {:induction false} ClearKeeps(s: Store, ws: seq<Write>, k: Bytes)
    requires Clear(ws) && Special(k)
    ensures Lookup(Apply(s, ws), k) == Lookup(s, k)
    decreases ws
  {
    if ws != [] {
      assert !Special(ws[0].key);
      ClearKeeps(ApplyOne(s, ws[0]), ws[1..], k);
    }
  }

  lemma ClearGood(ibc: Ibc, s: Store, ws: seq<Write>, id: PacketId, delivered: set<Packet>)
    requires Clear(ws) && Good(ibc, s, id, delivered)
    ensures Good(ibc, Apply(s, ws), id, delivered) && (Unanswered(s, id) ==> Unanswered(Apply(s, ws), id))
  {
    ClearKeeps(s, ws, PendingKey(id));
    ClearKeeps(s, ws, ReceiptKey(id));
    ClearKeeps(s, ws, AckKey(id));
    SameGood(ibc, s, Apply(s, ws), id, delivered);
  }

  /** The packet an acknowledgement message loads is the received one, unacknowledged. */
  lemma LoadedIsReceived(ibc: Ibc, s: Store, id: PacketId, delivered: set<Packet>)
    requires Good(ibc, s, id, delivered) && LoadPacket(ibc, s, id).Some?
    ensures var p := LoadPacket(ibc, s, id).value; p in delivered && IdOf(p) == id && AckLog(s, id) == []
  {
  }

  lemma AckApplied(s: Store, id: PacketId, p: Packet)
    ensures Apply(s, AckWrites(s, id, p)) == Acknowledged(s, IdOf(p)) - {PendingKey(id)}
  {
    var ws := AckWrites(s, id, p);
    assert ws == [ws[0]] + [ws[1]];
    ApplyConcat(s, [ws[0]], [ws[1]]);
    var a: seq<Write>, b: seq<Write> := [ws[0]], [ws[1]];
    assert a[1..] == [] && b[1..] == [];
    assert Apply(s, a) == ApplyOne(s, ws[0]);
  }

  /** Writing the acknowledgement answers this packet, once, and concerns no other. */
  lemma AckGood(ibc: Ibc, s: Store, id: PacketId, other: PacketId, delivered: set<Packet>)
    requires Proper(id) && Proper(other) && Good(ibc, s, id, delivered) && Good(ibc, s, other, delivered)
    requires LoadPacket(ibc, s, id).Some?
    ensures var t := Apply(s, AckWrites(s, id, LoadPacket(ibc, s, id).value));
      Good(ibc, t, other, delivered) && (Unanswered(s, other) ==> Unanswered(t, other))
  {
    LoadedIsReceived(ibc, s, id, delivered);
    var p := LoadPacket(ibc, s, id).value;
    AckApplied(s, id, p);
    var t := Apply(s, AckWrites(s, id, p));
    assert AckKey(id)[0] == ACKED && PendingKey(id)[0] == PENDING && ReceiptKey(other)[0] == RECEIPT;
    assert AckKey(other)[0] == ACKED && PendingKey(other)[0] == PENDING;
    if other != id {
      KeysApart(id, other);
      SameGood(ibc, s, t, other, delivered);
    }
  }

  // ---- through the dispatcher ----

  /** The invariant, together with a packet that this transaction is to answer, if any. */
  ghost predicate Kept(ibc: Ibc, delivered: set<Packet>, now: Option<PacketId>, s: Store) {
    Inv(ibc, s, delivered) && (now.Some? ==> Proper(now.value) && Unanswered(s, now.value))
  }

  ghost function KeptIn(ibc: Ibc, delivered: set<Packet>, now: Option<PacketId>): Store -> bool {
    s => Kept(ibc, delivered, now, s)
  }

  lemma ClearKept(ibc: Ibc, delivered: set<Packet>, now: Option<PacketId>, s: Store, ws: seq<Write>)
    requires Kept(ibc, delivered, now, s) && Clear(ws)
    ensures Kept(ibc, delivered, now, Apply(s, ws))
  {
    forall id | Proper(id) ensures Good(ibc, Apply(s, ws), id, delivered) { ClearGood(ibc, s, ws, id, delivered); }
    if now.Some? { ClearGood(ibc, s, ws, now.value, delivered); }
  }

  lemma AckKept(ibc: Ibc, delivered: set<Packet>, now: Option<PacketId>, s: Store, contract: Addr, channel: Bytes, n: U64)
    requires SoundIbc(ibc) && Kept(ibc, delivered, now, s) && WriteAck(ibc, s, contract, channel, n, true).Some?
    ensures Kept(ibc, delivered, now, Apply(s, WriteAck(ibc, s, contract, channel, n, true).value))
  {
    var id := PacketId(ibc.portOf(contract), channel, n);
    var t := Apply(s, WriteAck(ibc, s, contract, channel, n, true).value);
    assert ibc.owns(id.port, id.channel) && Proper(id);
    forall other | Proper(other) ensures Good(ibc, t, other, delivered) { AckGood(ibc, s, id, other, delivered); }
    if now.Some? { AckGood(ibc, s, id, now.value, delivered); }
  }

  lemma NativeKept(w: World, ibc: Ibc, delivered: set<Packet>, now: Option<PacketId>, a: Addr, m: Msg, s: Store, g: U64)
    requires SoundIbc(ibc) && Tame(w, ibc) && Kept(ibc, delivered, now, s)
    ensures Kept(ibc, delivered, now, Apply(s, w.native(a, m, s, g).writes))
  {
    var ws := w.native(a, m, s, g).writes;
    assert ClearOrAck(ibc, a, m, s, ws);
    match ibc.ackMsg(m)
    case None => ClearKept(ibc, delivered, now, s, ws);
    case Some((channel, n)) => if ws != [] { AckKept(ibc, delivered, now, s, a, channel, n); }
  }

  lemma TameKeeps(w: World, ibc: Ibc, delivered: set<Packet>, now: Option<PacketId>)
    requires SoundIbc(ibc) && Tame(w, ibc)
    ensures Keeps(w, KeptIn(ibc, delivered, now))
  {
    var inv := KeptIn(ibc, delivered, now);
    forall s, a, e | inv(s) && w.prepare(s, a, e).Writes? ensures inv(Apply(s, w.prepare(s, a, e).writes)) {
      ClearKept(ibc, delivered, now, s, w.prepare(s, a, e).writes);
    }
    forall s, a, e | inv(s) && w.persist(s, a, e).Writes? ensures inv(Apply(s, w.persist(s, a, e).writes)) {
      ClearKept(ibc, delivered, now, s, w.persist(s, a, e).writes);
    }
    forall a, e, s, g | inv(s) ensures inv(Apply(s, w.vm(a, e, s, g).writes)) {
      ClearKept(ibc, delivered, now, s, w.vm(a, e, s, g).writes);
    }
    forall a, m, s, g | inv(s) ensures inv(Apply(s, w.native(a, m, s, g).writes)) {
      NativeKept(w, ibc, delivered, now, a, m, s, g);
    }
  }

  // ---- transactions ----

  /** What the environment answers while a contract receives a packet: the lookup of the
      contract, its VM run, and the gas of storing the packet. */
  datatype Receiving = Receiving(found: Instance, run: VmRun, storeGas: U64)

  datatype Received = Undone | ErrorAck(consumed: U64) | Async(st: St) | SuccessAck(st: St, data: Bytes)

  /** Lookup and VM run of Keeper.OnRecvPacket; there is no setup cost. */
  function RunReceiver(w: World, rx: Receiving, st: St): (r: Out<VmRun>)
    requires Ready(st)
    ensures Metered(st, r)
    ensures r.Ok? ==> r.value == rx.run && r.st.store == Apply(st.store, rx.run.writes)
  {
    var (st1, _) :- Charge(st, rx.found.gas);
    if rx.found.missing.Some? then Err(st1, rx.found.missing.value)
    else
      var (st2, _) :- VmGasLimit(w, st1);
      RunVm(w, rx.run, st2)
  }

  /** What its result leads to; a VM error panics to abort the receive altogether, and
      there is no entry event. */
  function Responded(w: World, self: Addr, run: VmRun, st: St): (r: Out<Option<Bytes>>)
    requires Ready(st)
    ensures Metered(st, r)
  {
    match run.out
    case Crashed(_) => Panic(OtherPanic(0), st.warm)
    case NoResult => Err(st, Error(Plain, "wasm", 29, "internal wasmvm error"))
    case Failed(t) => Err(st, Error(Deterministic, "wasm", 5, t))
    case Returned(resp) =>
      var (st1, _) :- Emitting(w, resp, st);
      var (st2, rsp) :- DispatchSubs(w, self, resp.msgs, st1, None, 0).out;
      Ok(st2, if rsp.Some? then rsp else resp.data)
  }

  /** Keeper.OnRecvPacket up to the acknowledgement data. */
  function Respond(w: World, self: Addr, rx: Receiving, st: St): (r: Out<Option<Bytes>>)
    requires Ready(st)
    ensures Metered(st, r)
  {
    var (st1, run) :- RunReceiver(w, rx, st);
    Responded(w, self, run, st1)
  }

  /** Keeper.OnRecvPacket: without data the packet is stored for later. */
  function OnRecvPacket(w: World, ibc: Ibc, self: Addr, msg: WasmPacket, rx: Receiving, st: St): Received
    requires Ready(st)
  {
    match Respond(w, self, rx, st)
    case Panic(_, _) => Undone
    case Err(st1, _) => ErrorAck(st1.consumed)
    case Ok(st1, Some(data)) => SuccessAck(st1, data)
    case Ok(st1, None) => StoredForLater(ibc, ConvertPacket(msg), rx.storeGas, st1)
  }

  /** StoreAsyncAckPacket */
  function StoredForLater(ibc: Ibc, p: Packet, gas: U64, st: St): Received
    requires Ready(st)
  {
    match Charge(st, gas)
    case Ok(st1, _) => Async(st1.(store := st1.store[PendingKey(IdOf(p)) := ibc.encode(p)]))
    case _ => Undone
  }

  /** Core IBC's RecvPacket: a sequence is delivered once; a panic reverts everything, an
      error acknowledgement everything but the receipt. */
  function Deliver(w: World, ibc: Ibc, s: Store, p: Packet, self: Addr, rx: Receiving, gas: U64): Store {
    var id := IdOf(p);
    if !ibc.owns(p.dstPort, p.dstChannel) || ReceiptKey(id) in s then s
    else
      var s1 := s[ReceiptKey(id) := ibc.encode(p)];
      Settled(s, s1, id, OnRecvPacket(w, ibc, self, NewIbcPacket(p), rx, St(s1, gas, 0, {}, [])))
  }

  /** The store after a delivery that started with s, and with the receipt in s1. */
  function Settled(s: Store, s1: Store, id: PacketId, r: Received): Store {
    match r
    case Undone => s
    case ErrorAck(_) => Acknowledged(s1, id)
    case Async(st) => st.store
    case SuccessAck(st, _) => Acknowledged(st.store, id)
  }

  datatype Tx =
    | Recv(packet: Packet, self: Addr, rx: Receiving, gas: U64)
    | Exec(self: Addr, entry: Entry, gas: U64)

  function Perform(w: World, ibc: Ibc, s: Store, tx: Tx): Store {
    match tx
    case Recv(p, self, rx, gas) => Deliver(w, ibc, s, p, self, rx, gas)
    case Exec(self, entry, gas) =>
      match Enter(w, self, entry, St(s, gas, 0, {}, []), 0).out
      case Ok(st, _) => st.store
      case _ => s
  }

  function Run(w: World, ibc: Ibc, txs: seq<Tx>): Store
    decreases |txs|
  {
    if txs == [] then map[] else Perform(w, ibc, Run(w, ibc, txs[..|txs| - 1]), txs[|txs| - 1])
  }

  function Delivered(txs: seq<Tx>): set<Packet>
    decreases |txs|
  {
    if txs == [] then {}
    else
      var tx := txs[|txs| - 1];
      Delivered(txs[..|txs| - 1]) + if tx.Recv? then {tx.packet} else {}
  }

  // ---- the theorem ----

  lemma MoreDelivered(ibc: Ibc, s: Store, d: set<Packet>, e: set<Packet>)
    requires Inv(ibc, s, d) && d <= e
    ensures Inv(ibc, s, e)
  {
  }

  /** A receipt for a packet not seen before: nothing is stored or acknowledged for it. */
  lemma ReceiptKept(ibc: Ibc, s: Store, d: set<Packet>, p: Packet)
    requires SoundIbc(ibc) && Inv(ibc, s, d) && p in d && Proper(IdOf(p)) && ReceiptKey(IdOf(p)) !in s
    ensures Kept(ibc, d, Some(IdOf(p)), s[ReceiptKey(IdOf(p)) := ibc.encode(p)])
  {
    var id := IdOf(p);
    var t := s[ReceiptKey(id) := ibc.encode(p)];
    assert Good(ibc, s, id, d);
    forall other | Proper(other) ensures Good(ibc, t, other, d) {
      assert Good(ibc, s, other, d);
      assert ReceiptKey(id)[0] == RECEIPT && AckKey(other)[0] == ACKED && PendingKey(other)[0] == PENDING;
      if other != id {
        KeysApart(id, other);
        SameGood(ibc, s, t, other, d);
      }
    }
    assert ReceiptKey(id)[0] == RECEIPT && AckKey(id)[0] == ACKED && PendingKey(id)[0] == PENDING;
  }

  /** Answering the packet of this transaction, by acknowledgement or by storing it. */
  lemma AnsweredInv(ibc: Ibc, s: Store, d: set<Packet>, p: Packet)
    requires Kept(ibc, d, Some(IdOf(p)), s) && HasReceipt(IdOf(p), ibc.encode(p), s)
    ensures Inv(ibc, Acknowledged(s, IdOf(p)), d)
    ensures Inv(ibc, s[PendingKey(IdOf(p)) := ibc.encode(p)], d)
  {
    var id := IdOf(p);
    forall other | Proper(other)
      ensures Good(ibc, Acknowledged(s, id), other, d) && Good(ibc, s[PendingKey(id) := ibc.encode(p)], other, d)
    {
      assert Good(ibc, s, other, d);
      assert AckKey(id)[0] == ACKED && PendingKey(id)[0] == PENDING;
      assert ReceiptKey(other)[0] == RECEIPT && AckKey(other)[0] == ACKED && PendingKey(other)[0] == PENDING;
      if other != id {
        KeysApart(id, other);
        SameGood(ibc, s, Acknowledged(s, id), other, d);
        SameGood(ibc, s, s[PendingKey(id) := ibc.encode(p)], other, d);
      }
    }
  }

  /** Nothing a contract or message does changes a receipt. */
  ghost predicate HasReceipt(id: PacketId, v: Bytes, s: Store) {
    Lookup(s, ReceiptKey(id)) == Some(v)
  }

  lemma ReceiptStays(w: World, ibc: Ibc, id: PacketId, v: Bytes)
    requires Tame(w, ibc)
    ensures Keeps(w, s => HasReceipt(id, v, s))
  {
    var k := ReceiptKey(id);
    forall s, a, e | HasReceipt(id, v, s) && w.prepare(s, a, e).Writes? ensures HasReceipt(id, v, Apply(s, w.prepare(s, a, e).writes)) {
      ClearKeeps(s, w.prepare(s, a, e).writes, k);
    }
    forall s, a, e | HasReceipt(id, v, s) && w.persist(s, a, e).Writes? ensures HasReceipt(id, v, Apply(s, w.persist(s, a, e).writes)) {
      ClearKeeps(s, w.persist(s, a, e).writes, k);
    }
    forall a, e, s, g | HasReceipt(id, v, s) ensures HasReceipt(id, v, Apply(s, w.vm(a, e, s, g).writes)) {
      ClearKeeps(s, w.vm(a, e, s, g).writes, k);
    }
    forall a, m, s, g | HasReceipt(id, v, s) ensures HasReceipt(id, v, Apply(s, w.native(a, m, s, g).writes)) {
      NativeKeepsReceipt(w, ibc, a, m, s, g, k);
    }
  }

  lemma NativeKeepsReceipt(w: World, ibc: Ibc, a: Addr, m: Msg, s: Store, g: U64, k: Bytes)
    requires Tame(w, ibc) && k != [] && k[0] == RECEIPT
    ensures Lookup(Apply(s, w.native(a, m, s, g).writes), k) == Lookup(s, k)
  {
    var ws := w.native(a, m, s, g).writes;
    assert ClearOrAck(ibc, a, m, s, ws);
    if Clear(ws) {
      ClearKeeps(s, ws, k);
    } else {
      TwoWrites(s, ws, k);
    }
  }

  lemma TwoWrites(s: Store, ws: seq<Write>, k: Bytes)
    requires |ws| == 2 && ws[0].key != k && ws[1].key != k
    ensures Lookup(Apply(s, ws), k) == Lookup(s, k)
  {
    assert ws[1..][0] == ws[1] && ws[1..][1..] == [];
    assert Apply(s, ws) == Apply(ApplyOne(s, ws[0]), ws[1..]) == ApplyOne(ApplyOne(s, ws[0]), ws[1]);
  }

  /** The receiving contract and everything it dispatches keep what each single effect keeps. */
  lemma RespondKeeps(w: World, inv: Store -> bool, self: Addr, rx: Receiving, st: St)
    requires Keeps(w, inv) && Ready(st) && inv(st.store) && inv(Apply(st.store, rx.run.writes))
    ensures var out := Respond(w, self, rx, st); out.Ok? ==> inv(out.st.store)
  {
    var run := RunReceiver(w, rx, st);
    if run.Ok? && rx.run.out.Returned? {
      var resp := rx.run.out.response;
      var e := Emitting(w, resp, run.st);
      if e.Ok? { DispatchSubsKeeps(w, inv, self, resp.msgs, e.st, None, 0); }
    }
  }

  /** The dispatcher, run for the receiving contract, keeps the packet unanswered. */
  lemma RespondKept(w: World, ibc: Ibc, d: set<Packet>, p: Packet, self: Addr, rx: Receiving, st: St)
    requires SoundIbc(ibc) && Tame(w, ibc) && Ready(st) && Clear(rx.run.writes)
    requires Kept(ibc, d, Some(IdOf(p)), st.store) && HasReceipt(IdOf(p), ibc.encode(p), st.store)
    ensures var out := Respond(w, self, rx, st);
      out.Ok? ==> Kept(ibc, d, Some(IdOf(p)), out.st.store) && HasReceipt(IdOf(p), ibc.encode(p), out.st.store)
  {
    var id := IdOf(p);
    ClearKept(ibc, d, Some(id), st.store, rx.run.writes);
    ClearKeeps(st.store, rx.run.writes, ReceiptKey(id));
    TameKeeps(w, ibc, d, Some(id));
    RespondKeeps(w, KeptIn(ibc, d, Some(id)), self, rx, st);
    ReceiptStays(w, ibc, id, ibc.encode(p));
    RespondKeeps(w, s => HasReceipt(id, ibc.encode(p), s), self, rx, st);
  }

  /** What the receiving contract leaves behind is fine once the packet is answered. */
  lemma ReceivedKeeps(w: World, ibc: Ibc, d: set<Packet>, p: Packet, self: Addr, rx: Receiving, st: St)
    requires SoundIbc(ibc) && Tame(w, ibc) && Ready(st) && Clear(rx.run.writes)
    requires Kept(ibc, d, Some(IdOf(p)), st.store) && HasReceipt(IdOf(p), ibc.encode(p), st.store)
    ensures var r := OnRecvPacket(w, ibc, self, NewIbcPacket(p), rx, st);
      && (r.Async? ==> Inv(ibc, r.st.store, d))
      && (r.SuccessAck? ==> Inv(ibc, Acknowledged(r.st.store, IdOf(p)), d))
  {
    ConversionsInverse(p, NewIbcPacket(p));
    RespondKept(w, ibc, d, p, self, rx, st);
    var out := Respond(w, self, rx, st);
    if out.Ok? { AnsweredInv(ibc, out.st.store, d, p); }
  }

  lemma DeliverKeeps(w: World, ibc: Ibc, s: Store, d: set<Packet>, p: Packet, self: Addr, rx: Receiving, gas: U64)
    requires SoundIbc(ibc) && Tame(w, ibc) && Inv(ibc, s, d) && p in d && Clear(rx.run.writes)
    ensures Inv(ibc, Deliver(w, ibc, s, p, self, rx, gas), d)
  {
    var id := IdOf(p);
    if ibc.owns(p.dstPort, p.dstChannel) && ReceiptKey(id) !in s {
      assert Proper(PacketId(p.dstPort, p.dstChannel, p.sequence));
      ReceiptKept(ibc, s, d, p);
      var s1 := s[ReceiptKey(id) := ibc.encode(p)];
      AnsweredInv(ibc, s1, d, p);
      ReceivedKeeps(w, ibc, d, p, self, rx, St(s1, gas, 0, {}, []));
    }
  }

  lemma ExecKeeps(w: World, ibc: Ibc, s: Store, d: set<Packet>, self: Addr, entry: Entry, gas: U64)
    requires SoundIbc(ibc) && Tame(w, ibc) && Inv(ibc, s, d)
    ensures Inv(ibc, Perform(w, ibc, s, Exec(self, entry, gas)), d)
  {
    TameKeeps(w, ibc, d, None);
    EnterKeeps(w, KeptIn(ibc, d, None), self, entry, St(s, gas, 0, {}, []), 0);
  }

  ghost predicate ClearRun(txs: seq<Tx>) {
    forall i | 0 <= i < |txs| && txs[i].Recv? :: Clear(txs[i].rx.run.writes)
  }

  /** In every run, whatever is committed, reverted, replied to or panics: each packet gets
      at most one acknowledgement, and a packet waiting for one is stored as it was received. */
  lemma {:induction false} AtMostOneAck(w: World, ibc: Ibc, txs: seq<Tx>)
    requires SoundIbc(ibc) && Tame(w, ibc) && ClearRun(txs)
    ensures Inv(ibc, Run(w, ibc, txs), Delivered(txs))
    decreases |txs|
  {
    if txs == [] {
      forall id | Proper(id) ensures Good(ibc, map[], id, {}) {}
    } else {
      var front, tx := txs[..|txs| - 1], txs[|txs| - 1];
      AtMostOneAck(w, ibc, front);
      var s, d := Run(w, ibc, front), Delivered(txs);
      MoreDelivered(ibc, s, Delivered(front), d);
      match tx
      case Recv(p, self, rx, gas) => DeliverKeeps(w, ibc, s, d, p, self, rx, gas);
      case Exec(self, entry, gas) => ExecKeeps(w, ibc, s, d, self, entry, gas);
    }
  }

  /** The packet an acknowledgement message works on is one that was delivered, unchanged,
      for that very channel and sequence, and nobody has acknowledged it. */
  lemma ReloadedAsReceived(w: World, ibc: Ibc, txs: seq<Tx>, id: PacketId)
    requires SoundIbc(ibc) && Tame(w, ibc) && ClearRun(txs) && Proper(id)
    requires LoadPacket(ibc, Run(w, ibc, txs), id).Some?
    ensures var s := Run(w, ibc, txs); var p := LoadPacket(ibc, s, id).value;
      p in Delivered(txs) && IdOf(p) == id && AckLog(s, id) == []
  {
    AtMostOneAck(w, ibc, txs);
    LoadedIsReceived(ibc, Run(w, ibc, txs), id, Delivered(txs));
  }

  // ---- the assumptions can be met ----

  /** A field that ends in a zero byte, its own bytes marked. */
  function Marked(b: Bytes): Bytes {
    if b == [] then [0] else [1, b[0]] + Marked(b[1..])
  }

  lemma {:induction false} MarkedInjective(a: Bytes, b: Bytes, x: Bytes, y: Bytes)
    requires Marked(a) + x == Marked(b) + y
    ensures a == b && x == y
  {
    var l, r := Marked(a) + x, Marked(b) + y;
    assert l[0] == r[0] && (a == [] ==> l[1..] == x) && (b == [] ==> r[1..] == y);
    if a != [] && b != [] {
      assert l[1] == a[0] && r[1] == b[0] && l[2..] == Marked(a[1..]) + x && r[2..] == Marked(b[1..]) + y;
      MarkedInjective(a[1..], b[1..], x, y);
      assert a == [a[0]] + a[1..] && b == [b[0]] + b[1..];
    }
  }

  function Fields(p: Packet): seq<Bytes> {
    [p.srcPort, p.srcChannel, p.dstPort, p.dstChannel, p.data, U64Bytes(p.sequence),
     U64Bytes(p.timeoutHeight.revision), U64Bytes(p.timeoutHeight.height), U64Bytes(p.timestamp)]
  }

  function Joined(fs: seq<Bytes>): Bytes {
    if fs == [] then [] else Marked(fs[0]) + Joined(fs[1..])
  }

  lemma {:induction false} JoinedInjective(fs: seq<Bytes>, gs: seq<Bytes>)
    requires |fs| == |gs| && Joined(fs) == Joined(gs)
    ensures fs == gs
  {
    if fs != [] {
      MarkedInjective(fs[0], gs[0], Joined(fs[1..]), Joined(gs[1..]));
      JoinedInjective(fs[1..], gs[1..]);
      assert fs == [fs[0]] + fs[1..] && gs == [gs[0]] + gs[1..];
    }
  }

  function PlainEncode(p: Packet): Bytes { Joined(Fields(p)) }

  lemma PlainEncodeInjective(p: Packet, q: Packet)
    requires PlainEncode(p) == PlainEncode(q)
    ensures p == q
  {
    var f, g := Fields(p), Fields(q);
    JoinedInjective(f, g);
    assert f[0] == g[0] && f[1] == g[1] && f[2] == g[2] && f[3] == g[3] && f[4] == g[4];
    assert f[5] == g[5] && f[6] == g[6] && f[7] == g[7] && f[8] == g[8];
    U64BytesInjective(p.sequence, q.sequence);
    U64BytesInjective(p.timeoutHeight.revision, q.timeoutHeight.revision);
    U64BytesInjective(p.timeoutHeight.height, q.timeoutHeight.height);
    U64BytesInjective(p.timestamp, q.timestamp);
  }

  ghost function PlainDecode(b: Bytes): Option<Packet> {
    if p: Packet :| PlainEncode(p) == b then Some(p) else None
  }

  /** A codec, existing channels and a world in which any acknowledgement message is handled:
      what the results above ask for is not contradictory. */
  ghost function PlainIbc(): Ibc {
    Ibc(PlainEncode, (b: Bytes) => PlainDecode(b), a => [1], (port, channel) => port == [1] && channel == [2],
        (m: Msg) => if m.Native? then Some(([2], 1)) else None)
  }

  ghost function PlainWorld(): World {
    World(10, 1, (s, a, e) => Instance(1, None), (s, a, e) => [], (s, a, e) => false, (d, e) => 1,
      (s, a, e) => Writes(1, [], []), (a, e, s, g) => VmRun([], 1, 1, {}, NoResult), (s, a, e) => Writes(1, [], []),
      r => 0, (m, d) => [], (a: Addr, m: Msg, s: Store, g: U64) => NativeRun(
        if m.Native? && WriteAck(PlainIbc(), s, a, [2], 1, true).Some? then WriteAck(PlainIbc(), s, a, [2], 1, true).value else [],
        1, {}, [], Handled(MsgOk([], [], []))))
  }

  lemma AssumptionsMet()
    ensures SoundIbc(PlainIbc()) && Tame(PlainWorld(), PlainIbc())
  {
    var ibc := PlainIbc();
    forall p ensures ibc.encode(p) != [] && ibc.decode(ibc.encode(p)) == Some(p) {
      assert PlainEncode(p) == Marked(p.srcPort) + Joined(Fields(p)[1..]);
      var d := PlainDecode(PlainEncode(p));
      assert exists q: Packet :: PlainEncode(q) == PlainEncode(p);
      PlainEncodeInjective(p, d.value);
    }
    forall port, channel, n: U64 | ibc.owns(port, channel) ensures Proper(PacketId(port, channel, n)) {}
  }
}
