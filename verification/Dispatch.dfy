/** Big-step semantics of contract calls, sub-messages and replies on flat stores.
    Contracts, the VM and native message handlers are arbitrary functions (World). */
module Dispatch {
  import opened Bytes
  import opened Gas
  import opened Kv
  import opened Events

  type U32 = n: int | 0 <= n < 0x1_0000_0000
  type Positive = n: int | 0 < n < 0x1_0000_0000_0000_0000 witness 1

  // ---- errors ----

  datatype ErrorKind = System | Deterministic | Plain
  datatype Error = Error(kind: ErrorKind, codespace: string, code: nat, text: string)

  /** errorsmod.Wrap keeps code and codespace and hides the special kinds. */
  function Wrap(e: Error, desc: string): Error {
    Error(Plain, e.codespace, e.code, desc + ": " + e.text)
  }

  /** What redactError lets a contract see of an error. */
  datatype ErrText = Verbatim(text: string) | Coded(codespace: string, code: nat)

  function Redact(e: Error): ErrText {
    if e.kind.Plain? then Coded(e.codespace, e.code) else Verbatim(e.text)
  }

  const DEPTH_EXCEEDED := Error(Plain, "wasm", 30, "max call depth exceeded")
  const SUBMSG_OUT_OF_GAS := Error(Plain, "sdk", 11, "SubMsg hit gas limit")
  const INVALID_REPLY_ON := Error(Plain, "wasm", 14, "replyOn value")

  // ---- messages ----

  datatype ReplyOn = Always | Success | OnError | Never | Unset
  datatype CallOp = Execute | Instantiate | Migrate

  /** A message that enters a contract, or one that a handler deals with alone. The latter
      may have come as a Wasm message too: admin updates, and a migration that skips the
      migrate entry point. */
  datatype Msg =
    | Wasm(target: Addr, op: CallOp, payload: Bytes, funds: Bytes)
    | Native(ofWasm: bool, kind: nat, body: Bytes)

  /** msg.Msg.Wasm != nil */
  predicate IsWasm(msg: Msg) { msg.Wasm? || msg.ofWasm }

  datatype SubMsg = SubMsg(id: U64, msg: Msg, payload: Bytes, gasLimit: Option<U64>, replyOn: ReplyOn)

  datatype MsgResponse = MsgResponse(typeUrl: string, value: Bytes)
  datatype MsgOk = MsgOk(events: seq<Event>, data: seq<Bytes>, responses: seq<seq<MsgResponse>>)

  datatype SubMsgResult =
    | SubOk(events: seq<Event>, data: Option<Bytes>, responses: seq<MsgResponse>)
    | SubErr(error: ErrText)

  datatype Reply = Reply(id: U64, result: SubMsgResult, payload: Bytes)

  datatype Entry =
    | Call(op: CallOp, caller: Addr, payload: Bytes, funds: Bytes)
    | OnReply(reply: Reply)

  // ---- the world around the dispatcher ----

  datatype Converted = Good(events: seq<Event>) | Bad(error: Error)
  datatype Response = Response(msgs: seq<SubMsg>, attributes: Converted, custom: Converted, data: Option<Bytes>)

  datatype VmOut = Crashed(text: string) | NoResult | Failed(text: string) | Returned(response: Response)
  datatype VmRun = VmRun(writes: seq<Write>, hostGas: U64, vmGas: U64, warmed: set<Bytes>, out: VmOut)

  datatype NativeOut = Handled(ok: MsgOk) | Refused(error: Error) | Panicked(code: nat)
  datatype NativeRun = NativeRun(writes: seq<Write>, gas: U64, warmed: set<Bytes>, emitted: seq<Event>, out: NativeOut)

  /** What a keeper step does: it charges gas for its store accesses, then writes and
      emits events (bank events of a transfer, say), or is refused. */
  datatype Effect = Writes(gas: U64, writes: seq<Write>, emitted: seq<Event>) | Rejected(gas: U64, error: Error)

  /** Looking up contract and code: the gas of the reads, and whether something is missing. */
  datatype Instance = Instance(gas: U64, missing: Option<Error>)

  /** Everything the dispatcher calls but does not define. A cost is positive:
      the gas register charges every contract entry. */
  datatype World = World(
    maxCallDepth: U32,
    multiplier: Positive,
    instance: (Store, Addr, Entry) -> Instance,
    checksum: (Store, Addr, Entry) -> Bytes,
    pinned: (Store, Addr, Entry) -> bool,
    setupCost: (bool, Entry) -> Positive,
    prepare: (Store, Addr, Entry) -> Effect,
    vm: (Addr, Entry, Store, U64) -> VmRun,
    persist: (Store, Addr, Entry) -> Effect,
    eventCost: Response -> U64,
    encode: (Msg, Option<Bytes>) -> Bytes,
    native: (Addr, Msg, Store, U64) -> NativeRun)

  // ---- the state one context refers to ----

  /** Flat store, gas meter, contracts already loaded in this transaction, events.
      Caches never appear here: this is the plain semantics. */
  datatype St = St(store: Store, limit: U64, consumed: U64, warm: set<Bytes>, events: seq<Event>)

  predicate Ready(st: St) { st.consumed <= st.limit }

  function Left(st: St): nat
    requires Ready(st)
  {
    st.limit - st.consumed
  }

  /** A Go call returns a value, returns an error, or panics. A panic unwinds past
      everything but the table of loaded contracts, which is shared by reference. */
  datatype Out<+T> = Ok(st: St, value: T) | Err(st: St, error: Error) | Panic(kind: PanicKind, warm: set<Bytes>)
  {
    predicate IsFailure() { !Ok? }
    function PropagateFailure<U>(): Out<U>
      requires IsFailure()
    {
      match this
      case Err(s, e) => Err(s, e)
      case Panic(k, w) => Panic(k, w)
    }
    function Extract(): (St, T)
      requires !IsFailure()
    {
      (st, value)
    }
  }

  /** Gas only grows, stays within the limit, and the limit is the same meter's. */
  predicate Metered<T(!new)>(st: St, out: Out<T>) {
    out.Panic? || (out.st.limit == st.limit && st.consumed <= out.st.consumed <= st.limit)
  }

  // ---- entering a contract: everything up to dispatching its messages ----

  function Charge(st: St, amount: U64): (r: Out<()>)
    requires Ready(st)
    ensures Metered(st, r)
  {
    match Raises(st.limit, st.consumed, amount)
    case Some(p) => Panic(p, st.warm)
    case None => Ok(st.(consumed := st.consumed + amount), ())
  }

  /** checkDiscountEligibility; replies are always discounted. */
  function Discount(w: World, self: Addr, entry: Entry, st: St): (bool, St) {
    var sum := w.checksum(st.store, self, entry);
    if entry.OnReply? || w.pinned(st.store, self, entry) || sum in st.warm then (true, st)
    else (false, if sum == [] then st else st.(warm := st.warm + {sum}))
  }

  function Effected(st: St, e: Effect): (r: Out<()>)
    requires Ready(st)
    ensures Metered(st, r)
    ensures r.Ok? ==> e.Writes? && r.st.store == Apply(st.store, e.writes) && r.st.events == st.events + e.emitted
  {
    var (st1, _) :- Charge(st, e.gas);
    match e
    case Writes(_, ws, es) => Ok(st1.(store := Apply(st1.store, ws), events := st1.events + es), ())
    case Rejected(_, err) => Err(st1, err)
  }

  /** runtimeGasForContract */
  function VmGasLimit(w: World, st: St): (r: Out<U64>)
    requires Ready(st)
    ensures r.Ok? ==> r.st == st
    ensures !r.Err?
  {
    if st.consumed >= st.limit then Ok(st, 0)
    else if st.limit == MAX_UINT64 then Ok(st, MAX_UINT64)
    else match ToVmGas(st.limit - st.consumed, w.multiplier)
    case None => Panic(OutOfGas, st.warm)
    case Some(g) => Ok(st, g)
  }

  /** A VM run: host calls charge the meter directly; an out-of-gas panic there is
      swallowed by the callback and raised again by consumeRuntimeGas. */
  function RunVm(w: World, run: VmRun, st: St): (r: Out<VmRun>)
    requires Ready(st)
    ensures Metered(st, r) && !r.Err?
    ensures r.Ok? ==> r.value == run && r.st.store == Apply(st.store, run.writes) && r.st.events == st.events
  {
    var warm := st.warm + run.warmed;
    var hosted := Added(st.consumed, run.hostGas);
    match RuntimeRaises(st.limit, hosted, FromVmGas(run.vmGas, w.multiplier))
    case Some(p) => Panic(p, warm)
    case None =>
      Ok(st.(store := Apply(st.store, run.writes), warm := warm,
             consumed := hosted + FromVmGas(run.vmGas, w.multiplier)), run)
  }

  function FailureCode(entry: Entry): nat {
    if entry.Call? && entry.op.Instantiate? then 4
    else if entry.Call? && entry.op.Migrate? then 11
    else 5
  }

  function EntryEvent(self: Addr, entry: Entry): Event {
    var typ := if entry.OnReply? then "reply"
               else match entry.op case Execute => "execute" case Instantiate => "instantiate" case Migrate => "migrate";
    Event(typ, [Attr([], self)])
  }

  function EmitConverted(st: St, c: Converted): Out<()> {
    match c
    case Good(es) => Ok(st.(events := st.events + es), ())
    case Bad(e) => Err(st, e)
  }

  /** contractInstance, discount and setup cost. */
  function Setup(w: World, self: Addr, entry: Entry, st: St): (r: Out<()>)
    requires Ready(st)
    ensures Metered(st, r)
    ensures r.Ok? ==> st.consumed < r.st.consumed && r.st.store == st.store && r.st.events == st.events
  {
    var found := w.instance(st.store, self, entry);
    var (st1, _) :- Charge(st, found.gas);
    if found.missing.Some? then Err(st1, found.missing.value)
    else
      var (discount, st2) := Discount(w, self, entry, st1);
      Charge(st2, w.setupCost(discount, entry))
  }

  /** Setup, then preparation: funds transfer and checks. */
  function Load(w: World, self: Addr, entry: Entry, st: St): (r: Out<Effect>)
    requires Ready(st)
    ensures Metered(st, r)
    ensures r.Ok? ==> st.consumed < r.st.consumed && r.value.Writes?
    ensures r.Ok? ==> r.st.store == Apply(st.store, r.value.writes) && r.st.events == st.events + r.value.emitted
    ensures Setup(w, self, entry, st).Ok? && !r.Panic? ==> st.consumed < r.st.consumed
  {
    var (st1, _) :- Setup(w, self, entry, st);
    var prep := w.prepare(st1.store, self, entry);
    var (st2, _) :- Effected(st1, prep);
    Ok(st2, prep)
  }

  /** The VM call with the gas that is left. */
  function Invoke(w: World, self: Addr, entry: Entry, st: St): (r: Out<VmRun>)
    requires Ready(st)
    ensures Metered(st, r) && !r.Err?
    ensures r.Ok? ==> r.st.store == Apply(st.store, r.value.writes) && r.st.events == st.events
  {
    var (st1, gas) :- VmGasLimit(w, st);
    RunVm(w, w.vm(self, entry, st1.store, gas), st1)
  }

  /** handleContractResponse up to the response handler. */
  function Emitting(w: World, resp: Response, st: St): (r: Out<()>)
    requires Ready(st)
    ensures Metered(st, r)
    ensures r.Ok? ==> r.st.store == st.store && r.st.events == st.events + EventsOf(resp)
  {
    var (st1, _) :- Charge(st, w.eventCost(resp));
    var (st2, _) :- EmitConverted(st1, resp.attributes);
    var (st3, _) :- EmitConverted(st2, resp.custom);
    assert (st.events + GoodEvents(resp.attributes)) + GoodEvents(resp.custom) == st.events + EventsOf(resp);
    Ok(st3, ())
  }

  function GoodEvents(c: Converted): seq<Event> { if c.Good? then c.events else [] }

  /** The events of a response itself. */
  function EventsOf(resp: Response): seq<Event> { GoodEvents(resp.attributes) + GoodEvents(resp.custom) }

  /** A contract's response, the writes its entry made (preparation, VM, records), and the
      events emitted on the way, before those of the response. */
  datatype Began = Began(response: Response, own: seq<Write>, emitted: seq<Event>)

  /** Persisted records, the entry event and the events of the response. */
  function Record(w: World, self: Addr, entry: Entry, resp: Response, st: St): (r: Out<Began>)
    requires Ready(st)
    ensures Metered(st, r)
    ensures r.Ok? ==> r.st.store == Apply(st.store, r.value.own)
  {
    var pers := w.persist(st.store, self, entry);
    var (st1, _) :- Effected(st, pers);
    var (st2, _) :- Emitting(w, resp, st1.(events := st1.events + [EntryEvent(self, entry)]));
    Ok(st2, Began(resp, pers.writes, pers.emitted))
  }

  /** Error mapping after the VM returned, then the records. */
  function Conclude(w: World, self: Addr, entry: Entry, run: VmRun, st: St): (r: Out<Began>)
    requires Ready(st)
    ensures Metered(st, r)
    ensures r.Ok? ==> r.st.store == Apply(st.store, r.value.own)
  {
    match run.out
    case Crashed(t) => Err(st, Error(Plain, "wasm", 29, t))
    case NoResult => Err(st, Error(Plain, "wasm", 29, "internal wasmvm error"))
    case Failed(t) => Err(st, Error(Deterministic, "wasm", FailureCode(entry), t))
    case Returned(resp) => Record(w, self, entry, resp, st)
  }

  /** execute, reply, instantiate and migrate up to the point where the returned
      sub-messages are dispatched. */
  function Begin(w: World, self: Addr, entry: Entry, st: St): (r: Out<Began>)
    requires Ready(st)
    ensures Metered(st, r)
    ensures r.Ok? || (Setup(w, self, entry, st).Ok? && r.Err?) ==> st.consumed < r.st.consumed
  {
    var (st1, prep) :- Load(w, self, entry, st);
    var (st2, run) :- Invoke(w, self, entry, st1);
    var (st3, began) :- Conclude(w, self, entry, run, st2);
    Ok(st3, Began(began.response, prep.writes + run.writes + began.own, prep.emitted + began.emitted))
  }

  // ---- what happened, as a tree ----

  /** Stopped: no handler was reached. FailedEntry: a contract entry that ended before its
      response was dispatched; paid if its setup was paid for, so that the contract ran or
      was about to. Exhausted: a gas-limited run that hit its limit. */
  datatype Trace =
    | Stopped
    | FailedEntry(depth: U32, self: Addr, entry: Entry, gas: nat, paid: bool)
    | Exhausted(gasLimit: U64, inner: Trace)
    | NativeTrace(depth: U32, run: NativeRun)
    | ContractTrace(depth: U32, self: Addr, entry: Entry, gas: nat, began: Began, subs: Subs)

  datatype Subs = End | More(first: SubTrace, rest: Subs)

  datatype Verdict = Committed | Reverted(error: Error) | Aborted

  datatype SubTrace = SubTrace(msg: SubMsg, run: Trace, verdict: Verdict, answered: Option<Trace>)

  datatype Run<+T> = Run(out: Out<T>, trace: Trace)
  datatype RunSubs = RunSubs(out: Out<Option<Bytes>>, subs: Subs)
  datatype RunStep = RunStep(out: Out<Option<Bytes>>, sub: SubTrace)

  // ---- the mutually recursive semantics ----

  /** execute, reply, instantiate, migrate */
  function Enter(w: World, self: Addr, entry: Entry, st: St, depth: U32): (r: Run<Option<Bytes>>)
    requires Ready(st)
    ensures Metered(st, r.out)
    decreases Left(st), 0, 0
  {
    match Begin(w, self, entry, st)
    case Err(st1, e) =>
      Run(Err(st1, e), FailedEntry(depth, self, entry, st1.consumed - st.consumed, Setup(w, self, entry, st).Ok?))
    case Panic(k, warm) => Run(Panic(k, warm), FailedEntry(depth, self, entry, 0, Setup(w, self, entry, st).Ok?))
    case Ok(st1, began) =>
      Handle(self, entry, depth, st1.consumed - st.consumed, began,
             DispatchSubs(w, self, began.response.msgs, st1, None, depth))
  }

  /** DefaultWasmVMContractResponseHandler.Handle: reply data overrides the original. */
  function Handle(self: Addr, entry: Entry, depth: U32, gas: nat, began: Began, subs: RunSubs): Run<Option<Bytes>> {
    var trace := ContractTrace(depth, self, entry, gas, began, subs.subs);
    match subs.out
    case Err(st, e) => Run(Err(st, HandleError(entry, e)), trace)
    case Panic(k, warm) => Run(Panic(k, warm), trace)
    case Ok(st, rsp) => Run(Ok(st, if rsp.Some? then rsp else began.response.data), trace)
  }

  /** instantiate, migrate and reply wrap dispatch errors, execute does not. */
  function HandleError(entry: Entry, e: Error): Error {
    if entry.Call? && entry.op.Execute? then e else Wrap(e, "dispatch")
  }

  /** A message that enters no contract: bank, staking, IBC, admin updates and the like. */
  function RunNative(run: NativeRun, st: St): (r: Out<MsgOk>)
    requires Ready(st)
    ensures Metered(st, r)
    ensures !r.Panic? ==> r.st.store == Apply(st.store, run.writes)
  {
    var (st1, _) :- Charge(st.(warm := st.warm + run.warmed), run.gas);
    var st2 := st1.(store := Apply(st1.store, run.writes), events := st1.events + run.emitted);
    match run.out
    case Handled(ok) => Ok(st2, ok)
    case Refused(e) => Err(st2, e)
    case Panicked(c) => Panic(OtherPanic(c), st2.warm)
  }

  /** callDepthMessageHandler.DispatchMsg around the message handlers. A contract
      call gets an event manager of its own, whose events are handed back. */
  function DispatchMsg(w: World, self: Addr, msg: Msg, st: St, depth: U32): (r: Run<MsgOk>)
    requires Ready(st)
    ensures Metered(st, r.out)
    decreases Left(st), 1, 0
  {
    var d := (depth + 1) % TWO_32;
    if d > w.maxCallDepth then Run(Err(st, Wrap(DEPTH_EXCEEDED, "dispatch")), Stopped)
    else match msg
      case Wasm(target, op, payload, funds) =>
        AsMessage(w, msg, st.events, Enter(w, target, Call(op, self, payload, funds), st.(events := []), d))
      case Native(_, _, _) =>
        var run := w.native(self, msg, st.store, st.limit - st.consumed);
        Run(RunNative(run, st), NativeTrace(d, run))
  }

  /** The message service router around a contract call: the events of the call are
      returned, the event manager of the sender keeps what it had. */
  function AsMessage(w: World, msg: Msg, kept: seq<Event>, r: Run<Option<Bytes>>): Run<MsgOk> {
    match r.out
    case Err(st, e) => Run(Err(st.(events := kept), e), r.trace)
    case Panic(k, warm) => Run(Panic(k, warm), r.trace)
    case Ok(st, data) =>
      var bytes := w.encode(msg, data);
      Run(Ok(st.(events := kept), MsgOk(st.events, [bytes], [[MsgResponse("wasm", bytes)]])), r.trace)
  }

  /** Charging the parent what a limited sub-message spent; a second charge follows
      if the first one panics out of gas, because the same deferred handler runs. */
  function Settle(st: St, spent: U64, gasLimit: U64): (r: Out<()>)
    requires Ready(st)
    ensures Metered(st, r)
  {
    match Raises(st.limit, st.consumed, spent)
    case None => Charge(st, spent)
    case Some(OutOfGas) =>
      (match Raises(st.limit, Added(st.consumed, spent), gasLimit)
       case Some(p) => Panic(p, st.warm)
       case None => Err(st, SUBMSG_OUT_OF_GAS))
    case Some(p) => Panic(p, st.warm)
  }

  /** dispatchMsgWithGasLimit */
  function DispatchLimited(w: World, self: Addr, msg: Msg, st: St, gasLimit: U64, depth: U32): (r: Run<MsgOk>)
    requires Ready(st) && gasLimit < Left(st)
    ensures Metered(st, r.out)
    decreases Left(st), 1, 0
  {
    ChargeParent(st, gasLimit, DispatchMsg(w, self, msg, st.(limit := gasLimit, consumed := 0), depth))
  }

  function ChargeParent(st: St, gasLimit: U64, r: Run<MsgOk>): (s: Run<MsgOk>)
    requires Ready(st)
    ensures Metered(st, s.out)
  {
    match r.out
    case Panic(OutOfGas, warm) =>
      (match Charge(st.(warm := warm), gasLimit)
       case Ok(st1, _) => Run(Err(st1, SUBMSG_OUT_OF_GAS), Exhausted(gasLimit, r.trace))
       case Panic(k, warm1) => Run(Panic(k, warm1), r.trace))
    case Panic(k, warm) => Run(Panic(k, warm), r.trace)
    case Ok(sub, ok) =>
      (match Settle(sub.(limit := st.limit, consumed := st.consumed), sub.consumed, gasLimit)
       case Ok(st1, _) => Run(Ok(st1, ok), r.trace)
       case Err(st1, e) => Run(Err(st1, e), r.trace)
       case Panic(k, warm) => Run(Panic(k, warm), r.trace))
    case Err(sub, e) =>
      (match Settle(sub.(limit := st.limit, consumed := st.consumed), sub.consumed, gasLimit)
       case Ok(st1, _) => Run(Err(st1, e), r.trace)
       case Err(st1, e1) => Run(Err(st1, e1), r.trace)
       case Panic(k, warm) => Run(Panic(k, warm), r.trace))
  }

  predicate Limited(m: SubMsg, st: St)
    requires Ready(st)
  {
    m.gasLimit.Some? && m.gasLimit.value < Left(st)
  }

  /** One sub-message run in its sandbox, before its fate is decided. */
  function Sandbox(w: World, self: Addr, m: SubMsg, st: St, depth: U32): (r: Run<MsgOk>)
    requires Ready(st)
    ensures Metered(st, r.out)
    decreases Left(st), 2, 0
  {
    if Limited(m, st) then DispatchLimited(w, self, m.msg, st.(events := []), m.gasLimit.value, depth)
    else DispatchMsg(w, self, m.msg, st.(events := []), depth)
  }

  /** The filtered events of a committed sub-message. For Wasm messages the
      attributes end up sorted by key, in the parent's log as well. */
  function PassedOn(m: SubMsg, emitted: seq<Event>, returned: seq<Event>): seq<Event> {
    var fs := NonMessage(emitted + returned);
    if IsWasm(m.msg) then SortEach(fs) else fs
  }

  function Flatten(rs: seq<seq<MsgResponse>>): seq<MsgResponse> {
    if rs == [] then [] else rs[0] + Flatten(rs[1..])
  }

  function OkReply(m: SubMsg, passed: seq<Event>, ok: MsgOk): Reply {
    Reply(m.id,
          SubOk(if IsWasm(m.msg) then passed else [],
                if |ok.data| > 0 then Some(ok.data[0]) else None,
                Flatten(ok.responses)),
          m.payload)
  }

  function ErrReply(m: SubMsg, e: Error): Reply {
    Reply(m.id, SubErr(Redact(e)), m.payload)
  }

  /** The outcomes a mode wants to hear about. */
  predicate Wants(mode: ReplyOn, success: bool) {
    mode == Always || (mode == Success && success) || (mode == OnError && !success)
  }

  /** What the sandbox run means for the parent: commit and pass events on, or
      revert; then which reply, if any, is due. */
  datatype Verdicted = Verdicted(st: St, verdict: Verdict, due: Option<Reply>)

  function Decide(m: SubMsg, st: St, out: Out<MsgOk>): Verdicted
    requires !out.Panic?
  {
    match out
    case Ok(sub, ok) =>
      var passed := PassedOn(m, sub.events, ok.events);
      Verdicted(sub.(events := st.events + passed), Committed,
                if Wants(m.replyOn, true) then Some(OkReply(m, passed, ok)) else None)
    case Err(sub, e) =>
      Verdicted(sub.(store := st.store, events := st.events), Reverted(e),
                if Wants(m.replyOn, false) then Some(ErrReply(m, e)) else None)
  }

  /** One iteration of DispatchSubmessages. */
  function Step(w: World, self: Addr, m: SubMsg, st: St, rsp: Option<Bytes>, depth: U32): (r: RunStep)
    requires Ready(st)
    ensures Metered(st, r.out)
    decreases Left(st), 3, 0
  {
    if m.replyOn.Unset? then
      RunStep(Err(st, INVALID_REPLY_ON), SubTrace(m, Stopped, Aborted, None))
    else
      var box := Sandbox(w, self, m, st, depth);
      if box.out.Panic? then
        RunStep(Panic(box.out.kind, box.out.warm), SubTrace(m, box.trace, Aborted, None))
      else
        var v := Decide(m, st, box.out);
        match v.due
        case Some(reply) =>
          // the reply runs in the parent context, at the parent's call depth
          AfterReply(m, box.trace, v.verdict, rsp, Enter(w, self, OnReply(reply), v.st, depth))
        case None =>
          RunStep(if v.verdict.Committed? then Ok(v.st, rsp) else Err(v.st, box.out.error),
                  SubTrace(m, box.trace, v.verdict, None))
  }

  function AfterReply(m: SubMsg, run: Trace, verdict: Verdict, rsp: Option<Bytes>, a: Run<Option<Bytes>>): RunStep {
    var sub := SubTrace(m, run, verdict, Some(a.trace));
    match a.out
    case Panic(k, warm) => RunStep(Panic(k, warm), sub)
    case Err(st, e) => RunStep(Err(st, Wrap(e, "reply")), sub)
    case Ok(st, data) => RunStep(Ok(st, if data.Some? then data else rsp), sub)
  }

  /** DispatchSubmessages */
  function DispatchSubs(w: World, self: Addr, msgs: seq<SubMsg>, st: St, rsp: Option<Bytes>, depth: U32): (r: RunSubs)
    requires Ready(st)
    ensures Metered(st, r.out)
    decreases Left(st), 4, |msgs|
  {
    if msgs == [] then RunSubs(Ok(st, rsp), End)
    else
      var s := Step(w, self, msgs[0], st, rsp, depth);
      match s.out
      case Err(st1, e) => RunSubs(Err(st1, e), More(s.sub, End))
      case Panic(k, warm) => RunSubs(Panic(k, warm), More(s.sub, End))
      case Ok(st1, rsp1) =>
        var rest := DispatchSubs(w, self, msgs[1..], st1, rsp1, depth);
        RunSubs(rest.out, More(s.sub, rest.subs))
  }
}
