/** What one sub-message and one contract entry come to, said of their inputs alone: which
    events reach the log, who is replied to and with what, and what is paid for. */
module DispatchOutcomes {
  import opened Bytes
  import opened Gas
  import opened Kv
  import opened Events
  import opened Dispatch
  import DispatchLaws

  // ---- events that reach the parent's log ----

  /** The events of some types, in order. */
  function OfTypes(types: set<string>, es: seq<Event>): seq<Event> {
    if es == [] then []
    else OfTypes(types, es[..|es| - 1]) + if es[|es| - 1].typ in types then [es[|es| - 1]] else []
  }

  /** The same attributes, sorted by key; those of one key in their old order. */
  ghost predicate SortedForm(a: seq<Attr>, b: seq<Attr>) {
    && (forall i, j | 0 <= i < j < |b| :: !Less(b[j].key, b[i].key))
    && multiset(b) == multiset(a) && forall k :: Under(k, b) == Under(k, a)
  }

  /** The events xs as they appear in ys. */
  ghost predicate Appear(xs: seq<Event>, ys: seq<Event>, sorted: bool) {
    |xs| == |ys| && forall i | 0 <= i < |xs| :: AppearsAs(xs[i], ys[i], sorted)
  }

  ghost predicate AppearsAs(x: Event, y: Event, sorted: bool) {
    y.typ == x.typ && if sorted then SortedForm(x.attrs, y.attrs) else y.attrs == x.attrs
  }

  /** The log has gained no "message" event, and of all other types exactly the given events,
      in order; with sorted attributes if the message came as a Wasm message. */
  ghost predicate Gained(msg: Msg, es: seq<Event>, before: seq<Event>, after: seq<Event>) {
    && before <= after
    && (forall i | |before| <= i < |after| :: after[i].typ != "message")
    && forall types | "message" !in types :: Appear(OfTypes(types, es), OfTypes(types, after[|before|..]), msg.Wasm? || msg.ofWasm)
  }

  lemma {:induction false} OfTypesConcat(types: set<string>, a: seq<Event>, b: seq<Event>)
    ensures OfTypes(types, a + b) == OfTypes(types, a) + OfTypes(types, b)
    decreases |b|
  {
    if b == [] {
      assert a + b == a;
    } else {
      assert (a + b)[..|a + b| - 1] == a + b[..|b| - 1];
      OfTypesConcat(types, a, b[..|b| - 1]);
    }
  }

  lemma {:induction false} FilterKeepsTypes(types: set<string>, es: seq<Event>)
    requires "message" !in types
    ensures OfTypes(types, NonMessage(es)) == OfTypes(types, es)
    ensures forall i | 0 <= i < |NonMessage(es)| :: NonMessage(es)[i].typ != "message"
  {
    if es != [] {
      FilterKeepsTypes(types, es[1..]);
      assert es == [es[0]] + es[1..];
      OfTypesConcat(types, [es[0]], es[1..]);
      OfTypesConcat(types, if es[0].typ != "message" then [es[0]] else [], NonMessage(es[1..]));
    }
  }

  lemma SortedAppear(es: seq<Event>)
    ensures Appear(es, SortEach(es), true) && Appear(es, es, false)
  {
    forall i | 0 <= i < |es| ensures AppearsAs(es[i], SortEach(es)[i], true) { StableSortCorrect(es[i].attrs); }
  }

  lemma {:induction false} AppearByType(types: set<string>, xs: seq<Event>, ys: seq<Event>, sorted: bool)
    requires Appear(xs, ys, sorted)
    ensures Appear(OfTypes(types, xs), OfTypes(types, ys), sorted)
  {
    if xs != [] {
      var n := |xs| - 1;
      AppearByType(types, xs[..n], ys[..n], sorted);
      assert AppearsAs(xs[n], ys[n], sorted);
    }
  }

  lemma PassedOnGained(m: SubMsg, emitted: seq<Event>, returned: seq<Event>, before: seq<Event>)
    ensures Gained(m.msg, emitted + returned, before, before + PassedOn(m, emitted, returned))
  {
    var es, sorted := emitted + returned, IsWasm(m.msg);
    var fs, after := NonMessage(es), before + PassedOn(m, emitted, returned);
    FilterKeepsTypes({}, es);
    assert after[|before|..] == PassedOn(m, emitted, returned);
    forall types | "message" !in types ensures Appear(OfTypes(types, es), OfTypes(types, after[|before|..]), sorted) {
      FilterKeepsTypes(types, es);
      SortedAppear(fs);
      AppearByType(types, fs, PassedOn(m, emitted, returned), sorted);
    }
  }

  // ---- one sub-message ----

  /** All lists of rs, one after another. */
  function Joined(rs: seq<seq<MsgResponse>>): seq<MsgResponse> {
    if rs == [] then [] else Joined(rs[..|rs| - 1]) + rs[|rs| - 1]
  }

  lemma {:induction false} JoinedConcat(a: seq<seq<MsgResponse>>, b: seq<seq<MsgResponse>>)
    ensures Joined(a + b) == Joined(a) + Joined(b)
    decreases |b|
  {
    if b == [] {
      assert a + b == a;
    } else {
      assert (a + b)[..|a + b| - 1] == a + b[..|b| - 1];
      JoinedConcat(a, b[..|b| - 1]);
    }
  }

  lemma {:induction false} FlattenJoins(rs: seq<seq<MsgResponse>>)
    ensures Flatten(rs) == Joined(rs)
  {
    if rs != [] {
      FlattenJoins(rs[1..]);
      assert rs == [rs[0]] + rs[1..];
      JoinedConcat([rs[0]], rs[1..]);
      assert Joined([rs[0]]) == [] + rs[0];
    }
  }

  /** What a contract may read of an error: the text only if it is a system error or one
      marked as deterministic. */
  function Visible(e: Error): ErrText {
    match e.kind
    case System => Verbatim(e.text)
    case Deterministic => Verbatim(e.text)
    case Plain => Coded(e.codespace, e.code)
  }

  /** The reply to a sub-message that ended like this, its events being those the log gained. */
  ghost predicate Replies(m: SubMsg, out: Out<MsgOk>, gained: seq<Event>, reply: Reply)
    requires !out.Panic?
  {
    && reply.id == m.id && reply.payload == m.payload
    && match out
       case Ok(_, ok) =>
         && reply.result.SubOk? && reply.result.events == (if m.msg.Wasm? || m.msg.ofWasm then gained else [])
         && reply.result.data == (if ok.data == [] then None else Some(ok.data[0]))
         && reply.result.responses == Joined(ok.responses)
       case Err(_, e) => reply.result == SubErr(Visible(e))
  }

  /** The parent's state once the sub-message is decided: store and events of the sandbox if it
      succeeded, its own ones if not; gas and loaded contracts of the sandbox in any case. */
  ghost predicate Decided(m: SubMsg, st: St, out: Out<MsgOk>, mid: St)
    requires !out.Panic?
  {
    && mid.(store := map[], events := []) == out.st.(store := map[], events := [])
    && match out
       case Ok(sub, ok) => mid.store == sub.store && Gained(m.msg, sub.events + ok.events, st.events, mid.events)
       case Err(_, _) => mid.store == st.store && mid.events == st.events
  }

  /** The state and, where one is due, the reply that follow from a sandbox run. */
  lemma DecideMeans(m: SubMsg, st: St, out: Out<MsgOk>)
    requires !out.Panic?
    ensures var v := Decide(m, st, out);
      && Decided(m, st, out, v.st)
      && (v.verdict.Committed? <==> out.Ok?) && (v.verdict.Reverted? <==> out.Err?)
      && (out.Err? ==> v.verdict.error == out.error)
      && (v.due.Some? ==> Replies(m, out, v.st.events[|st.events|..], v.due.value))
  {
    if out.Ok? {
      var passed := PassedOn(m, out.st.events, out.value.events);
      PassedOnGained(m, out.st.events, out.value.events, st.events);
      assert (st.events + passed)[|st.events|..] == passed;
      FlattenJoins(out.value.responses);
    }
  }

  /** For each of the four modes, the outcomes on which the contract is entered with a reply. */
  lemma RepliedWhen(w: World, self: Addr, m: SubMsg, st: St, rsp: Option<Bytes>, depth: U32)
    requires Ready(st)
    ensures var out := Sandbox(w, self, m, st, depth).out; var s := Step(w, self, m, st, rsp, depth);
      match m.replyOn
      case Always => s.sub.answered.Some? <==> out.Ok? || out.Err?
      case Success => s.sub.answered.Some? <==> out.Ok?
      case OnError => s.sub.answered.Some? <==> out.Err?
      case Never => s.sub.answered.None?
      case Unset => s.sub.answered.None? && s.out == Err(st, INVALID_REPLY_ON)
  {
  }

  /** A sub-message without a reply: success is committed and the list goes on, failure is
      reverted and returned. */
  lemma StepWithoutReply(w: World, self: Addr, m: SubMsg, st: St, rsp: Option<Bytes>, depth: U32)
    requires Ready(st) && !m.replyOn.Unset? && !Sandbox(w, self, m, st, depth).out.Panic?
    requires Step(w, self, m, st, rsp, depth).sub.answered.None?
    ensures var out, s := Sandbox(w, self, m, st, depth).out, Step(w, self, m, st, rsp, depth).out;
      && !s.Panic? && Decided(m, st, out, s.st)
      && (out.Ok? ==> s.Ok? && s.value == rsp) && (out.Err? ==> s.Err? && s.error == out.error)
  {
    DecideMeans(m, st, Sandbox(w, self, m, st, depth).out);
  }

  /** What the reply call leads to: its data, if any, takes the place of earlier data; its
      error keeps its code and loses its kind. */
  ghost predicate AfterCall(rsp: Option<Bytes>, call: Out<Option<Bytes>>, s: Out<Option<Bytes>>) {
    match call
    case Panic(k, warm) => s == Panic(k, warm)
    case Ok(st, data) => s == Ok(st, if data == None then rsp else data)
    case Err(st, e) => s.Err? && s.st == st && s.error.kind == Plain && s.error.codespace == e.codespace && s.error.code == e.code
  }

  /** A sub-message with a reply: the contract that sent it is entered, in the state after the
      decision and at its own depth. */
  lemma StepWithReply(w: World, self: Addr, m: SubMsg, st: St, rsp: Option<Bytes>, depth: U32) returns (mid: St, reply: Reply)
    requires Ready(st) && Step(w, self, m, st, rsp, depth).sub.answered.Some?
    ensures var out, s := Sandbox(w, self, m, st, depth).out, Step(w, self, m, st, rsp, depth);
      && !out.Panic? && Decided(m, st, out, mid) && Ready(mid) && |st.events| <= |mid.events|
      && Replies(m, out, mid.events[|st.events|..], reply)
      && var call := Enter(w, self, OnReply(reply), mid, depth);
         s.sub.answered == Some(call.trace) && AfterCall(rsp, call.out, s.out)
  {
    var out := Sandbox(w, self, m, st, depth).out;
    DecideMeans(m, st, out);
    var v := Decide(m, st, out);
    mid, reply := v.st, v.due.value;
  }

  /** A panic, other than the one a private gas limit catches, is passed on. */
  lemma StepPanics(w: World, self: Addr, m: SubMsg, st: St, rsp: Option<Bytes>, depth: U32)
    requires Ready(st) && !m.replyOn.Unset? && Sandbox(w, self, m, st, depth).out.Panic?
    ensures var out := Sandbox(w, self, m, st, depth).out;
      Step(w, self, m, st, rsp, depth).out == Panic(out.kind, out.warm)
  {
  }

  /** The sandbox run itself: on a meter of its own if the limit is below what is left, else on
      the parent's; a message succeeds exactly if it is not too deep and its handler succeeds. */
  lemma SandboxSucceedsIff(w: World, self: Addr, m: SubMsg, st: St, depth: U32)
    requires Ready(st)
    ensures var d: U32 := (depth + 1) % TWO_32;
      var limited := m.gasLimit.Some? && m.gasLimit.value < st.limit - st.consumed;
      var st0 := if limited then st.(events := [], limit := m.gasLimit.value, consumed := 0) else st.(events := []);
      Sandbox(w, self, m, st, depth).out.Ok? <==>
        && d <= w.maxCallDepth
        && match m.msg
           case Wasm(target, op, payload, funds) => Enter(w, target, Call(op, self, payload, funds), st0, d).out.Ok?
           case Native(_, _, _) =>
             var run := w.native(self, m.msg, st.store, st0.limit - st0.consumed);
             st0.consumed + run.gas <= st0.limit && run.out.Handled?
  {
    var st0 := st.(events := []);
    if Limited(m, st) {
      var inner := st0.(limit := m.gasLimit.value, consumed := 0);
      HandledWhen(w, self, m.msg, inner, depth);
      SettledWhen(st0, m.gasLimit.value, DispatchMsg(w, self, m.msg, inner, depth));
    } else {
      HandledWhen(w, self, m.msg, st0, depth);
    }
  }

  lemma HandledWhen(w: World, self: Addr, msg: Msg, st: St, depth: U32)
    requires Ready(st)
    ensures var d: U32 := (depth + 1) % TWO_32;
      DispatchMsg(w, self, msg, st, depth).out.Ok? <==>
        && d <= w.maxCallDepth
        && match msg
           case Wasm(target, op, payload, funds) => Enter(w, target, Call(op, self, payload, funds), st.(events := []), d).out.Ok?
           case Native(_, _, _) =>
             var run := w.native(self, msg, st.store, st.limit - st.consumed);
             st.consumed + run.gas <= st.limit && run.out.Handled?
  {
    if msg.Native? { NativeWhen(w.native(self, msg, st.store, st.limit - st.consumed), st); }
  }

  lemma NativeWhen(run: NativeRun, st: St)
    requires Ready(st)
    ensures RunNative(run, st).Ok? <==> st.consumed + run.gas <= st.limit && run.out.Handled?
  {
  }

  lemma SettledWhen(st: St, gasLimit: U64, r: Run<MsgOk>)
    requires Ready(st) && gasLimit < Left(st) && Metered(st.(limit := gasLimit, consumed := 0), r.out)
    ensures ChargeParent(st, gasLimit, r).out.Ok? <==> r.out.Ok?
  {
  }

  /** The messages a list of sub-traces is about. */
  function MessagesOf(subs: Subs): seq<SubMsg> {
    match subs
    case End => []
    case More(f, rest) => [f.msg] + MessagesOf(rest)
  }

  /** Sub-messages are taken one after another in the order the contract gave them, each one
      in the state the one before has left, up to the first that fails. */
  lemma {:induction false} SubsInOrder(w: World, self: Addr, msgs: seq<SubMsg>, st: St, rsp: Option<Bytes>, depth: U32)
    requires Ready(st)
    ensures var r := DispatchSubs(w, self, msgs, st, rsp, depth);
      && MessagesOf(r.subs) <= msgs && (r.out.Ok? ==> MessagesOf(r.subs) == msgs) && (msgs != [] ==> r.subs.More?)
      && (msgs == [] ==> r.out == Ok(st, rsp))
    decreases Left(st), |msgs|
  {
    if msgs != [] {
      var s := Step(w, self, msgs[0], st, rsp, depth);
      StepAbout(w, self, msgs[0], st, rsp, depth);
      SubsUnfold(w, self, msgs, st, rsp, depth);
      if s.out.Ok? {
        SubsInOrder(w, self, msgs[1..], s.out.st, s.out.value, depth);
        PrefixMore(MessagesOf(DispatchSubs(w, self, msgs[1..], s.out.st, s.out.value, depth).subs), msgs);
      } else {
        PrefixMore([], msgs);
      }
    }
  }

  lemma SubsUnfold(w: World, self: Addr, msgs: seq<SubMsg>, st: St, rsp: Option<Bytes>, depth: U32)
    requires Ready(st) && msgs != []
    ensures var s, r := Step(w, self, msgs[0], st, rsp, depth), DispatchSubs(w, self, msgs, st, rsp, depth);
      && (!s.out.Ok? ==> !r.out.Ok? && r.subs == More(s.sub, End))
      && (s.out.Ok? ==>
           var rest := DispatchSubs(w, self, msgs[1..], s.out.st, s.out.value, depth); r == RunSubs(rest.out, More(s.sub, rest.subs)))
  {
  }

  lemma PrefixMore(ms: seq<SubMsg>, msgs: seq<SubMsg>)
    requires msgs != [] && ms <= msgs[1..]
    ensures [msgs[0]] + ms <= msgs && (ms == msgs[1..] ==> [msgs[0]] + ms == msgs)
  {
    assert msgs == [msgs[0]] + msgs[1..];
  }

  lemma StepAbout(w: World, self: Addr, m: SubMsg, st: St, rsp: Option<Bytes>, depth: U32)
    requires Ready(st)
    ensures Step(w, self, m, st, rsp, depth).sub.msg == m
  {
  }

  /** And they are those of the contract's response. */
  lemma EntryDispatches(w: World, self: Addr, entry: Entry, st: St, depth: U32)
    requires Ready(st) && Begin(w, self, entry, st).Ok?
    ensures var b, r := Begin(w, self, entry, st), Enter(w, self, entry, st, depth);
      && r.trace.ContractTrace? && r.trace.self == self && r.trace.entry == entry
      && MessagesOf(r.trace.subs) <= b.value.response.msgs && (r.out.Ok? ==> MessagesOf(r.trace.subs) == b.value.response.msgs)
  {
    var b := Begin(w, self, entry, st);
    SubsInOrder(w, self, b.value.response.msgs, b.st, None, depth);
  }

  // ---- one contract entry ----

  /** The discount: for replies, pinned codes, and what this transaction has loaded before. */
  function SetupOf(w: World, self: Addr, entry: Entry, st: St): nat {
    w.setupCost(entry.OnReply? || w.pinned(st.store, self, entry) || w.checksum(st.store, self, entry) in st.warm, entry)
  }

  /** Gas consumed when the VM is called: lookup, setup and preparation. */
  function BeforeVm(w: World, self: Addr, entry: Entry, st: St): nat {
    st.consumed + w.instance(st.store, self, entry).gas + SetupOf(w, self, entry, st) + w.prepare(st.store, self, entry).gas
  }

  /** The store the VM works on. */
  function PreparedStore(w: World, self: Addr, entry: Entry, st: St): Store {
    var prep := w.prepare(st.store, self, entry);
    if prep.Writes? then Apply(st.store, prep.writes) else st.store
  }

  /** The gas the VM is given: what is left, times the multiplier in 64 bits; everything if the
      meter has no limit to speak of. */
  function VmGas(w: World, limit: U64, consumed: nat): U64
    requires consumed <= limit
  {
    if consumed == limit then 0
    else if limit == MAX_UINT64 then MAX_UINT64
    else ((limit - consumed) * w.multiplier) % TWO_64
  }

  predicate VmGasRefused(w: World, limit: U64, consumed: nat)
    requires consumed <= limit
  {
    consumed < limit < MAX_UINT64 && ((limit - consumed) * w.multiplier) % TWO_64 < limit - consumed
  }

  /** VM gas in units of the SDK, rounded down. */
  function SdkGas(vmGas: U64, multiplier: Positive): nat { vmGas / multiplier }

  function VmRunOf(w: World, self: Addr, entry: Entry, st: St): VmRun
    requires BeforeVm(w, self, entry, st) <= st.limit
  {
    w.vm(self, entry, PreparedStore(w, self, entry, st), VmGas(w, st.limit, BeforeVm(w, self, entry, st)))
  }

  function AfterVm(w: World, self: Addr, entry: Entry, st: St): nat
    requires BeforeVm(w, self, entry, st) <= st.limit
  {
    var run := VmRunOf(w, self, entry, st);
    BeforeVm(w, self, entry, st) + run.hostGas + SdkGas(run.vmGas, w.multiplier)
  }

  function RecordOf(w: World, self: Addr, entry: Entry, st: St): Effect
    requires BeforeVm(w, self, entry, st) <= st.limit
  {
    w.persist(Apply(PreparedStore(w, self, entry, st), VmRunOf(w, self, entry, st).writes), self, entry)
  }

  lemma LoadedWhen(w: World, self: Addr, entry: Entry, st: St)
    requires Ready(st)
    ensures var l := Load(w, self, entry, st); var prep := w.prepare(st.store, self, entry);
      && (l.Ok? <==> w.instance(st.store, self, entry).missing.None? && prep.Writes? && BeforeVm(w, self, entry, st) <= st.limit)
      && (l.Ok? ==> l.value == prep && l.st.consumed == BeforeVm(w, self, entry, st))
      && (l.Ok? ==> l.st.limit == st.limit && l.st.store == PreparedStore(w, self, entry, st))
  {
  }

  lemma InvokedWhen(w: World, self: Addr, entry: Entry, st: St)
    requires Ready(st)
    ensures var v := Invoke(w, self, entry, st); var run := w.vm(self, entry, st.store, VmGas(w, st.limit, st.consumed));
      var after := st.consumed + run.hostGas + SdkGas(run.vmGas, w.multiplier);
      && (v.Ok? <==> !VmGasRefused(w, st.limit, st.consumed) && after < st.limit)
      && (v.Ok? ==> v.value == run && v.st.consumed == after && v.st.limit == st.limit && v.st.store == Apply(st.store, run.writes))
  {
  }

  predicate WellFormed(out: VmOut) {
    out.Returned? && out.response.attributes.Good? && out.response.custom.Good?
  }

  lemma ConcludedWhen(w: World, self: Addr, entry: Entry, run: VmRun, st: St)
    requires Ready(st)
    ensures var c := Conclude(w, self, entry, run, st); var pers := w.persist(st.store, self, entry);
      && (c.Ok? <==>
           && WellFormed(run.out) && pers.Writes?
           && st.consumed + pers.gas + w.eventCost(run.out.response) <= st.limit)
      && (c.Ok? ==> c.value.response == run.out.response && c.value.own == pers.writes)
      && (c.Ok? ==> c.st.consumed == st.consumed + pers.gas + w.eventCost(run.out.response) && c.st.limit == st.limit)
      && (c.Ok? ==> c.st.store == Apply(st.store, pers.writes))
  {
  }

  /** An entry comes to its response if and only if contract and code are found, nothing is
      refused, the VM returns a response with well-formed events, and the gas suffices: at the
      VM call for less than the limit, otherwise up to it. */
  lemma EntrySucceedsIff(w: World, self: Addr, entry: Entry, st: St)
    requires Ready(st)
    ensures Begin(w, self, entry, st).Ok? <==>
      && w.instance(st.store, self, entry).missing.None? && w.prepare(st.store, self, entry).Writes?
      && BeforeVm(w, self, entry, st) <= st.limit && !VmGasRefused(w, st.limit, BeforeVm(w, self, entry, st))
      && AfterVm(w, self, entry, st) < st.limit
      && WellFormed(VmRunOf(w, self, entry, st).out) && RecordOf(w, self, entry, st).Writes?
      && AfterVm(w, self, entry, st) + RecordOf(w, self, entry, st).gas + w.eventCost(VmRunOf(w, self, entry, st).out.response) <= st.limit
  {
    LoadedWhen(w, self, entry, st);
    var l := Load(w, self, entry, st);
    if l.Ok? {
      InvokedWhen(w, self, entry, l.st);
      var v := Invoke(w, self, entry, l.st);
      if v.Ok? { ConcludedWhen(w, self, entry, v.value, v.st); }
    }
  }

  /** What it has then paid: lookup, setup, preparation, host calls, VM gas divided by the
      multiplier, records and events, each once; and what it has written. */
  lemma EntryPays(w: World, self: Addr, entry: Entry, st: St)
    requires Ready(st) && Begin(w, self, entry, st).Ok? && BeforeVm(w, self, entry, st) <= st.limit
    ensures var b := Begin(w, self, entry, st); var run, record := VmRunOf(w, self, entry, st), RecordOf(w, self, entry, st);
      && b.st.consumed - st.consumed ==
           w.instance(st.store, self, entry).gas + SetupOf(w, self, entry, st) + w.prepare(st.store, self, entry).gas
           + run.hostGas + SdkGas(run.vmGas, w.multiplier) + record.gas + w.eventCost(b.value.response)
      && run.out == Returned(b.value.response) && record.Writes? && w.prepare(st.store, self, entry).Writes?
      && b.value.own == w.prepare(st.store, self, entry).writes + run.writes + record.writes
  {
    LoadedWhen(w, self, entry, st);
    var l := Load(w, self, entry, st);
    InvokedWhen(w, self, entry, l.st);
    var v := Invoke(w, self, entry, l.st);
    ConcludedWhen(w, self, entry, v.value, v.st);
  }

  /** The type of the event that tells of the entry. */
  function TypeOf(entry: Entry): string {
    match entry
    case OnReply(_) => "reply"
    case Call(Execute, _, _, _) => "execute"
    case Call(Instantiate, _, _, _) => "instantiate"
    case Call(Migrate, _, _, _) => "migrate"
  }

  /** What it has emitted: events of preparation and records, one event that tells of the entry
      and names the contract, then the attributes and the custom events of the response. */
  lemma EntryLogs(w: World, self: Addr, entry: Entry, st: St)
    requires Ready(st) && Begin(w, self, entry, st).Ok? && BeforeVm(w, self, entry, st) <= st.limit
    ensures var b := Begin(w, self, entry, st); var prep, record := w.prepare(st.store, self, entry), RecordOf(w, self, entry, st);
      && prep.Writes? && record.Writes? && b.value.response.attributes.Good? && b.value.response.custom.Good?
      && b.st.events == st.events + (prep.emitted + record.emitted + [Event(TypeOf(entry), [Attr([], self)])]
           + (b.value.response.attributes.events + b.value.response.custom.events))
  {
    EntrySucceedsIff(w, self, entry, st);
    LoadedWhen(w, self, entry, st);
    var l := Load(w, self, entry, st);
    InvokedWhen(w, self, entry, l.st);
    DispatchLaws.BeginLaw(w, self, entry, st);
  }

  /** Whatever has been loaded stays loaded in this transaction: a second entry of the same
      code gets the discount. */
  lemma LoadedIsDiscounted(w: World, self: Addr, entry: Entry, st: St)
    requires Ready(st) && Setup(w, self, entry, st).Ok?
    ensures var s := Setup(w, self, entry, st); var sum := w.checksum(st.store, self, entry);
      && st.warm <= s.st.warm <= st.warm + {sum}
      && (entry.OnReply? || w.pinned(st.store, self, entry) || sum == [] || sum in s.st.warm)
  {
  }

  /** An error of a sub-message that was not replied to fails the call: of an execution it is
      passed on as it is, so that its text stays readable where it was; the other entries keep
      its code only. */
  lemma DispatchErrors(w: World, self: Addr, entry: Entry, st: St, depth: U32)
    requires Ready(st) && Begin(w, self, entry, st).Ok?
    requires var b := Begin(w, self, entry, st); DispatchSubs(w, self, b.value.response.msgs, b.st, None, depth).out.Err?
    ensures var b := Begin(w, self, entry, st);
      var e := DispatchSubs(w, self, b.value.response.msgs, b.st, None, depth).out;
      var out := Enter(w, self, entry, st, depth).out;
      && out.Err? && out.st == e.st && out.error.codespace == e.error.codespace && out.error.code == e.error.code
      && (if entry.Call? && entry.op.Execute? then out.error == e.error else out.error.kind == Plain)
  {
  }

  /** A contract's own error is what its caller may read in a reply; a crash is not. */
  lemma ContractErrorsAreShown(w: World, self: Addr, entry: Entry, run: VmRun, st: St)
    requires Ready(st) && (run.out.Failed? || run.out.Crashed?)
    ensures var c := Conclude(w, self, entry, run, st);
      && c.Err? && c.st == st && c.error.codespace == "wasm"
      && c.error.code == (if run.out.Crashed? then 29 else match entry
           case OnReply(_) => 5
           case Call(op, _, _, _) => match op case Execute => 5 case Instantiate => 4 case Migrate => 11)
      && Redact(c.error) == if run.out.Failed? then Verbatim(run.out.text) else Coded("wasm", 29)
  {
  }
}
