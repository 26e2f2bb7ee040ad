/** What holds of every run of the dispatcher, whatever contracts do. */
module DispatchLaws {
  import opened Bytes
  import opened Gas
  import opened Kv
  import opened Events
  import opened Dispatch

  // ---- reading a run off its tree ----

  /** The writes of the succeeded sub-messages and replies, in order, at every depth. */
  function Written(t: Trace): seq<Write> {
    match t
    case NativeTrace(_, run) => run.writes
    case ContractTrace(_, _, _, _, began, subs) => began.own + WrittenBySubs(subs)
    case _ => []
  }

  function WrittenBySubs(s: Subs): seq<Write> {
    match s
    case End => []
    case More(f, rest) => WrittenBySub(f) + WrittenBySubs(rest)
  }

  function WrittenBySub(f: SubTrace): seq<Write> {
    (if f.verdict.Committed? then Written(f.run) else [])
    + (if f.answered.Some? then Written(f.answered.value) else [])
  }

  /** Events a handler put on the event manager it was given, and events it returned. */
  function Direct(t: Trace): seq<Event> {
    if t.NativeTrace? then t.run.emitted else []
  }

  function Returned(t: Trace): seq<Event>
    decreases t, 1
  {
    match t
    case NativeTrace(_, run) => if run.out.Handled? then run.out.ok.events else []
    case _ => Emitted(t)
  }

  function Emitted(t: Trace): seq<Event>
    decreases t, 0
  {
    match t
    case ContractTrace(_, self, entry, _, began, subs) =>
      OwnEvents(self, entry, began) + EmittedBySubs(subs)
    case _ => []
  }

  /** Events on the way (those of a funds transfer first), the entry event, the response's. */
  function OwnEvents(self: Addr, entry: Entry, began: Began): seq<Event> {
    began.emitted + [EntryEvent(self, entry)] + EventsOf(began.response)
  }

  function EmittedBySubs(s: Subs): seq<Event>
    decreases s, 0
  {
    match s
    case End => []
    case More(f, rest) => EmittedBySub(f) + EmittedBySubs(rest)
  }

  function EmittedBySub(f: SubTrace): seq<Event>
    decreases f, 0
  {
    (if f.verdict.Committed? then PassedOn(f.msg, Direct(f.run), Returned(f.run)) else [])
    + (if f.answered.Some? then Emitted(f.answered.value) else [])
  }

  /** The non-nil data of the replies, in dispatch order. */
  function ReplyData(s: Subs): seq<Bytes> {
    match s
    case End => []
    case More(f, rest) => ReplyDataOf(f) + ReplyData(rest)
  }

  function ReplyDataOf(f: SubTrace): seq<Bytes> {
    if f.answered.Some? && Data(f.answered.value).Some? then [Data(f.answered.value).value] else []
  }

  /** The last non-nil reply data, else the contract's own. */
  function Data(t: Trace): Option<Bytes> {
    match t
    case ContractTrace(_, _, _, _, began, subs) =>
      var ds := ReplyData(subs);
      if ds == [] then began.response.data else Some(ds[|ds| - 1])
    case _ => None
  }

  /** Gas: what every entry charged; an exhausted run counts as its limit. */
  function Spent(t: Trace): nat {
    match t
    case Stopped => 0
    case FailedEntry(_, _, _, gas, _) => gas
    case Exhausted(limit, _) => limit
    case NativeTrace(_, run) => run.gas
    case ContractTrace(_, _, _, gas, _, subs) => gas + SpentBySubs(subs)
  }

  function SpentBySubs(s: Subs): nat {
    match s
    case End => 0
    case More(f, rest) => SpentBySub(f) + SpentBySubs(rest)
  }

  function SpentBySub(f: SubTrace): nat {
    Spent(f.run) + (if f.answered.Some? then Spent(f.answered.value) else 0)
  }

  /** Contract entries whose setup was paid for, whatever became of them. */
  function Entries(t: Trace): nat {
    match t
    case FailedEntry(_, _, _, _, paid) => if paid then 1 else 0
    case Exhausted(_, inner) => Entries(inner)
    case ContractTrace(_, _, _, _, _, subs) => 1 + EntriesOfSubs(subs)
    case _ => 0
  }

  function EntriesOfSubs(s: Subs): nat {
    match s
    case End => 0
    case More(f, rest) => EntriesOfSub(f) + EntriesOfSubs(rest)
  }

  function EntriesOfSub(f: SubTrace): nat {
    Entries(f.run) + (if f.answered.Some? then Entries(f.answered.value) else 0)
  }

  /** Every handler, failed or not, ran at counter value = nesting level <= max; a
      sub-message is one level deeper than its sender, a reply is not. */
  predicate AtLevel(t: Trace, level: nat, max: nat) {
    match t
    case Stopped => true
    case FailedEntry(depth, _, _, _, _) => depth == level <= max
    case Exhausted(_, inner) => AtLevel(inner, level, max)
    case NativeTrace(depth, _) => depth == level <= max
    case ContractTrace(depth, _, _, _, _, subs) => depth == level <= max && SubsAtLevel(subs, level, max)
  }

  predicate SubsAtLevel(s: Subs, level: nat, max: nat) {
    match s
    case End => true
    case More(f, rest) => SubAtLevel(f, level, max) && SubsAtLevel(rest, level, max)
  }

  predicate SubAtLevel(f: SubTrace, level: nat, max: nat) {
    AtLevel(f.run, level + 1, max) && (f.answered.Some? ==> AtLevel(f.answered.value, level, max))
  }

  /** What a message returns when it succeeds. */
  function Result(w: World, msg: Msg, t: Trace): MsgOk {
    match t
    case NativeTrace(_, run) => if run.out.Handled? then run.out.ok else MsgOk([], [], [])
    case _ =>
      var bytes := w.encode(msg, Data(t));
      MsgOk(Emitted(t), [bytes], [[MsgResponse("wasm", bytes)]])
  }

  /** The reply a decided sub-message owes its sender: id and payload of the sub-message
      and, if it was committed, its events, first data item and responses, else its
      redacted error. */
  function ReplyTo(w: World, f: SubTrace): Reply {
    match f.verdict
    case Reverted(e) => ErrReply(f.msg, e)
    case _ => OkReply(f.msg, PassedOn(f.msg, Direct(f.run), Returned(f.run)), Result(w, f.msg.msg, f.run))
  }

  /** Replies fire exactly on the outcomes their mode asks for, the contract is entered
      with exactly the reply owed, whether that entry then fails or not, and nothing is
      dispatched after an unanswered failure. */
  predicate Answered(w: World, t: Trace) {
    match t
    case Exhausted(_, inner) => Answered(w, inner)
    case ContractTrace(_, _, _, _, _, subs) => SubsAnswered(w, subs)
    case _ => true
  }

  predicate SubsAnswered(w: World, s: Subs) {
    match s
    case End => true
    case More(f, rest) =>
      SubAnswered(w, f) && SubsAnswered(w, rest) && (rest.More? ==> f.verdict.Committed? || f.answered.Some?)
  }

  predicate SubAnswered(w: World, f: SubTrace) {
    && Answered(w, f.run)
    && (f.answered.Some? ==> Answered(w, f.answered.value))
    && (f.verdict.Committed? ==> (f.answered.Some? <==> Wants(f.msg.replyOn, true)))
    && (f.verdict.Reverted? ==> (f.answered.Some? <==> Wants(f.msg.replyOn, false)))
    && (f.verdict.Aborted? ==> f.answered.None?)
    && (f.answered.Some? ==> Entered(f.answered.value, OnReply(ReplyTo(w, f))))
  }

  /** The trace of a contract entry, and of which. */
  predicate Entered(t: Trace, entry: Entry) {
    (t.ContractTrace? || t.FailedEntry?) && t.entry == entry
  }

  // ---- the induction ----

  /** Gas and entries: a run that returns has spent exactly what its tree says. */
  ghost predicate Accounted<T(!new)>(st: St, out: Out<T>, spent: nat, entries: nat)
    requires Ready(st)
  {
    if out.Panic? then entries <= Left(st)
    else out.st.consumed == st.consumed + spent && entries <= spent
  }

  ghost predicate Tracked(w: World, depth: U32) {
    w.maxCallDepth < TWO_32 - 1 && depth <= w.maxCallDepth
  }

  /** Effects of a contract call on the context it ran in. */
  ghost predicate CallEffects(st: St, r: Run<Option<Bytes>>) {
    r.out.Ok? ==>
      && r.out.st.store == Apply(st.store, Written(r.trace))
      && r.out.st.events == st.events + Emitted(r.trace)
      && r.out.value == Data(r.trace)
  }

  ghost predicate MsgEffects(w: World, msg: Msg, st: St, r: Run<MsgOk>) {
    r.out.Ok? ==>
      && r.out.st.store == Apply(st.store, Written(r.trace))
      && r.out.st.events == st.events + Direct(r.trace)
      && r.out.value == Result(w, msg, r.trace) && r.out.value.events == Returned(r.trace)
  }

  /** Latest reply data on top of what earlier sub-messages left. */
  function Latest(ds: seq<Bytes>, rsp: Option<Bytes>): Option<Bytes> {
    if ds == [] then rsp else Some(ds[|ds| - 1])
  }

  ghost predicate SubsEffects(st: St, rsp: Option<Bytes>, out: Out<Option<Bytes>>, subs: Subs) {
    out.Ok? ==>
      && out.st.store == Apply(st.store, WrittenBySubs(subs))
      && out.st.events == st.events + EmittedBySubs(subs)
      && out.value == Latest(ReplyData(subs), rsp)
  }

  ghost predicate CallLaw(w: World, st: St, r: Run<Option<Bytes>>, depth: U32)
    requires Ready(st)
  {
    && Accounted(st, r.out, Spent(r.trace), Entries(r.trace))
    && (Tracked(w, depth) ==> AtLevel(r.trace, depth, w.maxCallDepth))
    && Answered(w, r.trace)
    && CallEffects(st, r)
  }

  ghost predicate MsgLaw(w: World, msg: Msg, st: St, r: Run<MsgOk>, depth: U32)
    requires Ready(st)
  {
    && Accounted(st, r.out, Spent(r.trace), Entries(r.trace))
    && (Tracked(w, depth) ==> AtLevel(r.trace, depth + 1, w.maxCallDepth))
    && Answered(w, r.trace)
    && MsgEffects(w, msg, st, r)
  }

  ghost predicate SubsLaw(w: World, st: St, rsp: Option<Bytes>, out: Out<Option<Bytes>>, subs: Subs, depth: U32)
    requires Ready(st)
  {
    && Accounted(st, out, SpentBySubs(subs), EntriesOfSubs(subs))
    && (Tracked(w, depth) ==> SubsAtLevel(subs, depth, w.maxCallDepth))
    && SubsAnswered(w, subs)
    && SubsEffects(st, rsp, out, subs)
  }

  ghost predicate StepEffects(st: St, rsp: Option<Bytes>, out: Out<Option<Bytes>>, f: SubTrace) {
    out.Ok? ==>
      && out.st.store == Apply(st.store, WrittenBySub(f))
      && out.st.events == st.events + EmittedBySub(f)
      && out.value == Latest(ReplyDataOf(f), rsp)
  }

  ghost predicate OneLaw(w: World, st: St, rsp: Option<Bytes>, out: Out<Option<Bytes>>, f: SubTrace, depth: U32)
    requires Ready(st)
  {
    && Accounted(st, out, SpentBySub(f), EntriesOfSub(f))
    && (Tracked(w, depth) ==> SubAtLevel(f, depth, w.maxCallDepth))
    && SubAnswered(w, f)
    && StepEffects(st, rsp, out, f)
  }

  lemma Assoc(a: seq<Event>, b: seq<Event>, c: seq<Event>)
    ensures (a + b) + c == a + (b + c)
  {
  }

  lemma HandleEffects(self: Addr, entry: Entry, depth: U32, st: St, b: Out<Began>, gas: nat, subs: RunSubs)
    requires b.Ok? && b.st.store == Apply(st.store, b.value.own)
    requires b.st.events == st.events + OwnEvents(self, entry, b.value)
    requires SubsEffects(b.st, None, subs.out, subs.subs)
    ensures CallEffects(st, Handle(self, entry, depth, gas, b.value, subs))
  {
    ApplyConcat(st.store, b.value.own, WrittenBySubs(subs.subs));
    Assoc(st.events, OwnEvents(self, entry, b.value), EmittedBySubs(subs.subs));
  }

  lemma HandleLaw(w: World, self: Addr, entry: Entry, depth: U32, st: St, b: Out<Began>, subs: RunSubs)
    requires Ready(st) && b.Ok? && st.limit == b.st.limit && st.consumed < b.st.consumed <= st.limit
    requires b.st.store == Apply(st.store, b.value.own)
    requires b.st.events == st.events + OwnEvents(self, entry, b.value)
    requires SubsLaw(w, b.st, None, subs.out, subs.subs, depth)
    ensures CallLaw(w, st, Handle(self, entry, depth, b.st.consumed - st.consumed, b.value, subs), depth)
  {
    HandleEffects(self, entry, depth, st, b, b.st.consumed - st.consumed, subs);
  }

  lemma BeginStore(w: World, self: Addr, entry: Entry, st: St)
    requires Ready(st)
    ensures var b := Begin(w, self, entry, st); b.Ok? ==> b.st.store == Apply(st.store, b.value.own)
  {
    var b := Begin(w, self, entry, st);
    if b.Ok? {
      var l := Load(w, self, entry, st);
      var v := Invoke(w, self, entry, l.st);
      var c := Conclude(w, self, entry, v.value, v.st);
      ApplyConcat(st.store, l.value.writes, v.value.writes);
      ApplyConcat(st.store, l.value.writes + v.value.writes, c.value.own);
    }
  }

  lemma ConcludeEvents(w: World, self: Addr, entry: Entry, run: VmRun, st: St)
    requires Ready(st)
    ensures var c := Conclude(w, self, entry, run, st);
      c.Ok? ==> run.out.Returned? && c.value.response == run.out.response && c.st.events == st.events + OwnEvents(self, entry, c.value)
  {
    var c := Conclude(w, self, entry, run, st);
    if c.Ok? {
      var own, rest := [EntryEvent(self, entry)], EventsOf(run.out.response);
      assert c.st.events == ((st.events + c.value.emitted) + own) + rest;
      Assoc(st.events, c.value.emitted, own);
      Assoc(st.events, c.value.emitted + own, rest);
    }
  }

  lemma BeginLaw(w: World, self: Addr, entry: Entry, st: St)
    requires Ready(st)
    ensures var b := Begin(w, self, entry, st);
      b.Ok? ==> b.st.store == Apply(st.store, b.value.own) && b.st.events == st.events + OwnEvents(self, entry, b.value)
  {
    BeginStore(w, self, entry, st);
    var l := Load(w, self, entry, st);
    if l.Ok? {
      var v := Invoke(w, self, entry, l.st);
      if v.Ok? {
        ConcludeEvents(w, self, entry, v.value, v.st);
        var c := Conclude(w, self, entry, v.value, v.st);
        if c.Ok? { JoinEvents(st.events, l.value.emitted, c.value.emitted, [EntryEvent(self, entry)], EventsOf(c.value.response)); }
      }
    }
  }

  lemma JoinEvents(a: seq<Event>, b: seq<Event>, c: seq<Event>, d: seq<Event>, e: seq<Event>)
    ensures (a + b) + (c + d + e) == a + (b + c + d + e)
  {
  }

  lemma {:induction false} EnterLaw(w: World, self: Addr, entry: Entry, st: St, depth: U32)
    requires Ready(st)
    ensures CallLaw(w, st, Enter(w, self, entry, st, depth), depth)
    decreases Left(st), 0, 0
  {
    var b := Begin(w, self, entry, st);
    if b.Ok? {
      BeginLaw(w, self, entry, st);
      DispatchSubsLaw(w, self, b.value.response.msgs, b.st, None, depth);
      HandleLaw(w, self, entry, depth, st, b, DispatchSubs(w, self, b.value.response.msgs, b.st, None, depth));
    }
  }

  lemma AsMessageLaw(w: World, msg: Msg, st: St, r: Run<Option<Bytes>>, depth: U32, d: U32)
    requires Ready(st) && d == (depth + 1) % TWO_32 && d <= w.maxCallDepth
    requires CallLaw(w, st.(events := []), r, d) && (r.out.Ok? ==> r.trace.ContractTrace?)
    ensures MsgLaw(w, msg, st, AsMessage(w, msg, st.events, r), depth)
  {
  }

  lemma {:induction false} DispatchMsgLaw(w: World, self: Addr, msg: Msg, st: St, depth: U32)
    requires Ready(st)
    ensures MsgLaw(w, msg, st, DispatchMsg(w, self, msg, st, depth), depth)
    decreases Left(st), 1, 0
  {
    var d := (depth + 1) % TWO_32;
    if d <= w.maxCallDepth && msg.Wasm? {
      var entry := Call(msg.op, self, msg.payload, msg.funds);
      EnterLaw(w, msg.target, entry, st.(events := []), d);
      AsMessageLaw(w, msg, st, Enter(w, msg.target, entry, st.(events := []), d), depth, d);
    }
  }

  /** Settlement: the parent pays exactly what the limited meter consumed, or the
      whole limit after an out-of-gas panic, and never runs out by paying. */
  lemma ChargeParentLaw(w: World, msg: Msg, st: St, gasLimit: U64, r: Run<MsgOk>, depth: U32)
    requires Ready(st) && gasLimit < Left(st)
    requires Metered(st.(limit := gasLimit, consumed := 0), r.out)
    ensures var s := ChargeParent(st, gasLimit, r);
      && (r.out.Ok? ==> s.out == Ok(r.out.st.(limit := st.limit, consumed := st.consumed + r.out.st.consumed), r.out.value))
      && (r.out.Err? ==> s.out == Err(r.out.st.(limit := st.limit, consumed := st.consumed + r.out.st.consumed), r.out.error))
      && (r.out.Panic? && r.out.kind.OutOfGas? ==>
            s.out == Err(st.(warm := r.out.warm, consumed := st.consumed + gasLimit), SUBMSG_OUT_OF_GAS))
      && (r.out.Panic? && !r.out.kind.OutOfGas? ==> s.out == Panic(r.out.kind, r.out.warm))
      && (!s.out.Panic? ==> s.out.st.consumed <= st.consumed + gasLimit < st.limit)
    ensures MsgLaw(w, msg, st.(limit := gasLimit, consumed := 0), r, depth) ==> MsgLaw(w, msg, st, ChargeParent(st, gasLimit, r), depth)
  {
  }

  lemma {:induction false} SandboxLaw(w: World, self: Addr, m: SubMsg, st: St, depth: U32)
    requires Ready(st)
    ensures MsgLaw(w, m.msg, st.(events := []), Sandbox(w, self, m, st, depth), depth)
    decreases Left(st), 2, 0
  {
    var st0 := st.(events := []);
    if Limited(m, st) {
      var inner := st0.(limit := m.gasLimit.value, consumed := 0);
      DispatchMsgLaw(w, self, m.msg, inner, depth);
      ChargeParentLaw(w, m.msg, st0, m.gasLimit.value, DispatchMsg(w, self, m.msg, inner, depth), depth);
    } else {
      DispatchMsgLaw(w, self, m.msg, st0, depth);
    }
  }

  /** A sub-message that needs no reply. */
  lemma UnansweredLaw(w: World, m: SubMsg, st: St, rsp: Option<Bytes>, box: Run<MsgOk>, depth: U32)
    requires Ready(st) && MsgLaw(w, m.msg, st.(events := []), box, depth) && Metered(st, box.out) && !m.replyOn.Unset?
    requires !box.out.Panic? && Decide(m, st, box.out).due.None?
    ensures var v := Decide(m, st, box.out);
      OneLaw(w, st, rsp, if v.verdict.Committed? then Ok(v.st, rsp) else Err(v.st, box.out.error),
             SubTrace(m, box.trace, v.verdict, None), depth)
  {
    var f := SubTrace(m, box.trace, Decide(m, st, box.out).verdict, None);
    assert f.verdict.Committed? ==> WrittenBySub(f) == Written(box.trace);
    assert f.verdict.Committed? ==> EmittedBySub(f) == PassedOn(m, Direct(box.trace), Returned(box.trace));
    assert [] + Direct(box.trace) == Direct(box.trace);
  }

  lemma CommittedEffects(m: SubMsg, st: St, rsp: Option<Bytes>, run: Trace, passed: seq<Event>, mid: St, a: Run<Option<Bytes>>)
    requires mid.store == Apply(st.store, Written(run)) && mid.events == st.events + passed
    requires passed == PassedOn(m, Direct(run), Returned(run)) && CallEffects(mid, a)
    ensures var s := AfterReply(m, run, Committed, rsp, a); StepEffects(st, rsp, s.out, s.sub)
  {
    ApplyConcat(st.store, Written(run), Written(a.trace));
    Assoc(st.events, passed, Emitted(a.trace));
  }

  lemma RevertedEffects(m: SubMsg, st: St, rsp: Option<Bytes>, run: Trace, e: Error, mid: St, a: Run<Option<Bytes>>)
    requires mid.store == st.store && mid.events == st.events && CallEffects(mid, a)
    ensures var s := AfterReply(m, run, Reverted(e), rsp, a); StepEffects(st, rsp, s.out, s.sub)
  {
    var f := SubTrace(m, run, Reverted(e), Some(a.trace));
    assert WrittenBySub(f) == Written(a.trace) && EmittedBySub(f) == Emitted(a.trace);
  }

  /** A sub-message that is answered by a reply call. */
  lemma AfterReplyLaw(w: World, self: Addr, m: SubMsg, st: St, rsp: Option<Bytes>, box: Run<MsgOk>, a: Run<Option<Bytes>>, depth: U32)
    requires Ready(st) && MsgLaw(w, m.msg, st.(events := []), box, depth) && Metered(st, box.out)
    requires !box.out.Panic? && Decide(m, st, box.out).due.Some?
    requires CallLaw(w, Decide(m, st, box.out).st, a, depth)
    requires Entered(a.trace, OnReply(Decide(m, st, box.out).due.value))
    ensures var s := AfterReply(m, box.trace, Decide(m, st, box.out).verdict, rsp, a);
      OneLaw(w, st, rsp, s.out, s.sub, depth)
  {
    var v := Decide(m, st, box.out);
    if box.out.Ok? {
      assert [] + Direct(box.trace) == Direct(box.trace);
      CommittedEffects(m, st, rsp, box.trace, PassedOn(m, box.out.st.events, box.out.value.events), v.st, a);
    } else {
      RevertedEffects(m, st, rsp, box.trace, box.out.error, v.st, a);
    }
  }

  lemma {:induction false} StepLaw(w: World, self: Addr, m: SubMsg, st: St, rsp: Option<Bytes>, depth: U32)
    requires Ready(st)
    ensures var s := Step(w, self, m, st, rsp, depth);
      && OneLaw(w, st, rsp, s.out, s.sub, depth)
      && (s.out.Ok? ==> s.sub.verdict.Committed? || s.sub.answered.Some?)
    decreases Left(st), 3, 0
  {
    if !m.replyOn.Unset? {
      SandboxLaw(w, self, m, st, depth);
      var box := Sandbox(w, self, m, st, depth);
      if !box.out.Panic? {
        var v := Decide(m, st, box.out);
        if v.due.Some? {
          EnterLaw(w, self, OnReply(v.due.value), v.st, depth);
          EnterDepth(w, self, OnReply(v.due.value), v.st, depth);
          AfterReplyLaw(w, self, m, st, rsp, box, Enter(w, self, OnReply(v.due.value), v.st, depth), depth);
        } else {
          UnansweredLaw(w, m, st, rsp, box, depth);
        }
      }
    }
  }

  lemma JoinEffects(st: St, rsp: Option<Bytes>, s: RunStep, rest: RunSubs)
    requires s.out.Ok? && StepEffects(st, rsp, s.out, s.sub)
    requires SubsEffects(s.out.st, s.out.value, rest.out, rest.subs)
    ensures SubsEffects(st, rsp, rest.out, More(s.sub, rest.subs))
  {
    ApplyConcat(st.store, WrittenBySub(s.sub), WrittenBySubs(rest.subs));
    Assoc(st.events, EmittedBySub(s.sub), EmittedBySubs(rest.subs));
  }

  lemma {:induction false} DispatchSubsLaw(w: World, self: Addr, msgs: seq<SubMsg>, st: St, rsp: Option<Bytes>, depth: U32)
    requires Ready(st)
    ensures var r := DispatchSubs(w, self, msgs, st, rsp, depth);
      SubsLaw(w, st, rsp, r.out, r.subs, depth)
    decreases Left(st), 4, |msgs|
  {
    if msgs != [] {
      StepLaw(w, self, msgs[0], st, rsp, depth);
      var s := Step(w, self, msgs[0], st, rsp, depth);
      if s.out.Ok? {
        DispatchSubsLaw(w, self, msgs[1..], s.out.st, s.out.value, depth);
        var rest := DispatchSubs(w, self, msgs[1..], s.out.st, s.out.value, depth);
        JoinEffects(st, rsp, s, rest);
      }
    }
  }

  // ---- the laws one by one, for a whole contract call ----

  /** The store after a successful call is the in-order composition of exactly the
      writes of the succeeded sub-messages and the replies, at every depth. */
  lemma CommittedWritesOnly(w: World, self: Addr, entry: Entry, st: St, depth: U32)
    requires Ready(st) && Enter(w, self, entry, st, depth).out.Ok?
    ensures var r := Enter(w, self, entry, st, depth); r.out.st.store == Apply(st.store, Written(r.trace))
  {
    EnterLaw(w, self, entry, st, depth);
  }

  /** The answer of a call is the last non-nil reply data, else the contract's own. */
  lemma LastReplyDataWins(w: World, self: Addr, entry: Entry, st: St, depth: U32)
    requires Ready(st) && Enter(w, self, entry, st, depth).out.Ok?
    ensures var r := Enter(w, self, entry, st, depth); r.out.value == Data(r.trace)
  {
    EnterLaw(w, self, entry, st, depth);
  }

  /** The log grows by the call's own events and the filtered events of committed
      sub-messages, interleaved with the events of their replies. */
  lemma EventsInOrder(w: World, self: Addr, entry: Entry, st: St, depth: U32)
    requires Ready(st) && Enter(w, self, entry, st, depth).out.Ok?
    ensures var r := Enter(w, self, entry, st, depth); r.out.st.events == st.events + Emitted(r.trace)
  {
    EnterLaw(w, self, entry, st, depth);
  }

  lemma RepliesAsRequested(w: World, self: Addr, entry: Entry, st: St, depth: U32)
    requires Ready(st)
    ensures Answered(w, Enter(w, self, entry, st, depth).trace)
  {
    EnterLaw(w, self, entry, st, depth);
  }

  /** Gas is conserved through all nested meters, and failures are paid for: the
      meter moves by what the tree spent, each exhausted run counting as its limit. */
  lemma GasConserved(w: World, self: Addr, entry: Entry, st: St, depth: U32)
    requires Ready(st)
    ensures var r := Enter(w, self, entry, st, depth);
      !r.out.Panic? ==> r.out.st.consumed == st.consumed + Spent(r.trace) <= st.limit
  {
    EnterLaw(w, self, entry, st, depth);
  }

  /** Replies do not deepen the call stack, so only gas bounds a run: there are never
      more contract entries than units of gas. */
  lemma EntriesPaidFor(w: World, self: Addr, entry: Entry, st: St, depth: U32)
    requires Ready(st)
    ensures var r := Enter(w, self, entry, st, depth);
      Entries(r.trace) <= if r.out.Panic? then Left(st) else r.out.st.consumed - st.consumed
  {
    EnterLaw(w, self, entry, st, depth);
  }

  /** No handler runs deeper than the maximum, as long as the maximum leaves the
      32-bit counter room to overshoot. */
  lemma DepthBounded(w: World, self: Addr, entry: Entry, st: St, depth: U32)
    requires Ready(st) && w.maxCallDepth < TWO_32 - 1 && depth <= w.maxCallDepth
    ensures AtLevel(Enter(w, self, entry, st, depth).trace, depth, w.maxCallDepth)
  {
    EnterLaw(w, self, entry, st, depth);
  }

  // ---- when the maximum call depth is worth nothing ----

  const AGAIN: Entry := Call(Execute, [], [], [])

  /** Gas of a lookup, and of lookup and setup. */
  const LOOKUP := 2000
  const LOOP_COST := 62000

  /** A world in which one contract, at address [], does nothing but call itself. */
  function LoopWorld(max: U32): World {
    World(max, 1, (s, a, e) => Instance(LOOKUP, None), (s, a, e) => [], (s, a, e) => true, (d, e) => LOOP_COST - LOOKUP,
      (s, a, e) => Writes(0, [], []), (a, e, s, g) => VmRun([], 0, 0, {}, VmOut.Returned(LOOP)), (s, a, e) => Writes(0, [], []),
      r => 0, (m, d) => [], (a, m, s, g) => NativeRun([], 0, {}, [], Panicked(0)))
  }

  const CALL_AGAIN := SubMsg(0, Wasm([], Execute, [], []), [], None, Never)
  const LOOP := Response([CALL_AGAIN], Good([]), Good([]), None)

  ghost predicate BeginsLoop(w: World, entry: Entry, st: St)
    requires Ready(st)
  {
    var b := Begin(w, [], entry, st);
    b.Ok? && b.value.response == LOOP && b.st.limit == st.limit && b.st.consumed == st.consumed + LOOP_COST
  }

  ghost predicate IsLoop(w: World) {
    forall entry, st | Ready(st) && Left(st) > LOOP_COST :: BeginsLoop(w, entry, st)
  }

  lemma LoopWorldIsLoop(max: U32)
    ensures IsLoop(LoopWorld(max))
  {
    forall entry, st | Ready(st) && Left(st) > LOOP_COST ensures BeginsLoop(LoopWorld(max), entry, st) { LoopBegins(max, entry, st); }
  }

  lemma LoopBegins(max: U32, entry: Entry, st: St)
    requires Ready(st) && Left(st) > LOOP_COST
    ensures BeginsLoop(LoopWorld(max), entry, st)
  {
    var w := LoopWorld(max);
    var l := Load(w, [], entry, st);
    assert l.Ok? && l.st.limit == st.limit && l.st.consumed == st.consumed + LOOP_COST;
    var v := Invoke(w, [], entry, l.st);
    assert v.Ok? && v.st.limit == st.limit && v.st.consumed == l.st.consumed && v.value.out == VmOut.Returned(LOOP);
  }

  lemma FirstSub(w: World, self: Addr, msgs: seq<SubMsg>, st: St, depth: U32)
    requires Ready(st) && msgs != [] && !msgs[0].replyOn.Unset?
    ensures var subs := DispatchSubs(w, self, msgs, st, None, depth).subs;
      subs.More? && subs.first.run == Sandbox(w, self, msgs[0], st, depth).trace
  {
    StepTrace(w, self, msgs[0], st, None, depth);
  }

  lemma StepTrace(w: World, self: Addr, m: SubMsg, st: St, rsp: Option<Bytes>, depth: U32)
    requires Ready(st) && !m.replyOn.Unset?
    ensures Step(w, self, m, st, rsp, depth).sub.run == Sandbox(w, self, m, st, depth).trace
  {
  }

  lemma SandboxTrace(w: World, self: Addr, m: SubMsg, st: St, depth: U32)
    requires Ready(st) && m.gasLimit.None? && m.msg.Wasm? && (depth + 1) % TWO_32 <= w.maxCallDepth
    ensures Sandbox(w, self, m, st, depth).trace
      == Enter(w, m.msg.target, Call(m.msg.op, self, m.msg.payload, m.msg.funds), st.(events := []), (depth + 1) % TWO_32).trace
  {
  }

  lemma EnterSubs(w: World, self: Addr, entry: Entry, st: St, depth: U32)
    requires Ready(st) && Begin(w, self, entry, st).Ok?
    ensures var b, t := Begin(w, self, entry, st), Enter(w, self, entry, st, depth).trace;
      t.ContractTrace? && t.subs == DispatchSubs(w, self, b.value.response.msgs, b.st, None, depth).subs
  {
  }

  lemma FirstRun(w: World, st: St, depth: U32)
    requires Ready(st) && (depth + 1) % TWO_32 <= w.maxCallDepth
    ensures var subs := DispatchSubs(w, [], LOOP.msgs, st, None, depth).subs;
      subs.More? && subs.first.run == Enter(w, [], AGAIN, st.(events := []), (depth + 1) % TWO_32).trace
  {
    FirstSub(w, [], LOOP.msgs, st, depth);
    SandboxTrace(w, [], CALL_AGAIN, st, depth);
  }

  lemma WrongInside(t: Trace, inner: Trace, level: nat, max: nat)
    requires t.ContractTrace? && t.subs.More? && t.subs.first.run == inner && !AtLevel(inner, level + 1, max)
    ensures !AtLevel(t, level, max)
  {
    assert SubsAtLevel(t.subs, level, max) ==> SubAtLevel(t.subs.first, level, max);
  }

  lemma WrongDepth(t: Trace, level: nat, max: nat)
    requires (t.ContractTrace? || t.FailedEntry?) && t.depth != level
    ensures !AtLevel(t, level, max)
  {
  }

  type Runner = (Entry, St, U32) -> Trace

  /** The traces of the looping contract. */
  ghost function LoopRunner(w: World): Runner {
    (entry: Entry, st: St, depth: U32) => if Ready(st) then Enter(w, [], entry, st, depth).trace else Stopped
  }

  /** What runs inside a call is the next one, with the gas of one call less. */
  ghost predicate Nests(run: Runner, entry: Entry, st: St, st1: St, depth: U32)
    requires Ready(st)
  {
    var t := run(entry, st, depth);
    && Ready(st1) && Left(st1) == Left(st) - LOOP_COST
    && t.ContractTrace? && t.depth == depth && t.subs.More? && t.subs.first.run == run(AGAIN, st1, (depth + 1) % TWO_32)
  }

  ghost predicate NestsAt(run: Runner, entry: Entry, st: St, depth: U32)
    requires Ready(st)
  {
    exists st1 :: Nests(run, entry, st, st1, depth)
  }

  ghost predicate NestsOn(run: Runner) {
    forall entry, st, depth: U32 | Ready(st) && Left(st) > LOOP_COST :: NestsAt(run, entry, st, depth)
  }

  lemma LoopNests(w: World)
    requires IsLoop(w) && w.maxCallDepth == TWO_32 - 1
    ensures NestsOn(LoopRunner(w))
  {
    var run := LoopRunner(w);
    forall entry, st, depth: U32 | Ready(st) && Left(st) > LOOP_COST ensures NestsAt(run, entry, st, depth) {
      var st1 := LoopNestsAt(w, entry, st, depth);
    }
  }

  lemma LoopNestsAt(w: World, entry: Entry, st: St, depth: U32) returns (st1: St)
    requires IsLoop(w) && w.maxCallDepth == TWO_32 - 1 && Ready(st) && Left(st) > LOOP_COST
    ensures Nests(LoopRunner(w), entry, st, st1, depth)
  {
    assert BeginsLoop(w, entry, st);
    EnterSubs(w, [], entry, st, depth);
    EnterDepth(w, [], entry, st, depth);
    var b := Begin(w, [], entry, st);
    FirstRun(w, b.st, depth);
    st1 := b.st.(events := []);
  }

  /** With enough gas the loop reaches the level where the counter wraps. */
  lemma {:induction false} LoopWraps(run: Runner, entry: Entry, st: St, depth: U32)
    requires NestsOn(run) && Ready(st) && Left(st) > LOOP_COST * (TWO_32 - depth + 1)
    ensures !AtLevel(run(entry, st, depth), depth, TWO_32 - 1)
    decreases TWO_32 - depth
  {
    assert NestsAt(run, entry, st, depth);
    var st1 :| Nests(run, entry, st, st1, depth);
    var inner := run(AGAIN, st1, (depth + 1) % TWO_32);
    if depth + 1 < TWO_32 {
      LoopWraps(run, AGAIN, st1, depth + 1);
    } else {
      assert NestsAt(run, AGAIN, st1, 0);
      WrongDepth(inner, TWO_32, TWO_32 - 1);
    }
    WrongInside(run(entry, st, depth), inner, depth, TWO_32 - 1);
  }

  lemma EnterDepth(w: World, self: Addr, entry: Entry, st: St, depth: U32)
    requires Ready(st)
    ensures var t := Enter(w, self, entry, st, depth).trace; Entered(t, entry) && t.depth == depth
  {
  }

  ghost predicate DepthKept(w: World, self: Addr, entry: Entry, st: St)
    requires Ready(st)
  {
    AtLevel(Enter(w, self, entry, st, 0).trace, 0, w.maxCallDepth)
  }

  /** The maximum bounds the true nesting of every handler, in every world and for every
      call, exactly when it is not the largest 32-bit number. */
  lemma DepthBoundedIff(max: U32)
    ensures max < TWO_32 - 1 <==>
      forall w: World, self, entry, st | w.maxCallDepth == max && Ready(st) :: DepthKept(w, self, entry, st)
  {
    if max < TWO_32 - 1 {
      forall w: World, self, entry, st | w.maxCallDepth == max && Ready(st) ensures DepthKept(w, self, entry, st) {
        DepthBounded(w, self, entry, st, 0);
      }
    } else {
      var st := St(map[], MAX_UINT64, 0, {}, []);
      LoopWorldIsLoop(max);
      LoopNests(LoopWorld(max));
      LoopWraps(LoopRunner(LoopWorld(max)), AGAIN, st, 0);
      assert !DepthKept(LoopWorld(max), [], AGAIN, st);
    }
  }
}
