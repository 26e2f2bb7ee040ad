/** Sub-queries of contracts: nested gas meters that are settled even on panic, stores
    that are thrown away, and the query stack. */
module Queries {
  import opened Bytes
  import opened Gas
  import opened Kv
  import Dispatch

  type Error = Dispatch.Error
  type U32 = Dispatch.U32

  const STACK_EXCEEDED := Dispatch.Error(Dispatch.Plain, "wasm", 27, "max query stack size exceeded")

  /** What a query plugin other than a smart query does. */
  datatype Outcome = Gives(data: Bytes) | Fails(error: Error) | Breaks(code: nat)

  datatype VmOut = VmError(text: string) | ContractError(text: string) | Data(bytes: Bytes)

  /** Any query, together with everything that happens while it is answered. */
  datatype Query =
    | Native(writes: seq<Write>, gas: U64, out: Outcome)
    | Smart(found: Dispatch.Instance, cost: Dispatch.Positive, script: Script)

  /** A VM run: host calls that charge gas, sub-queries, and its end. A host call that
      panics stops the VM, which then reports stopGas. */
  datatype Script =
    | Done(vmGas: U64, out: VmOut)
    | Host(gas: U64, stopGas: U64, rest: Script)
    | Ask(gasLimit: U64, query: Query, stopGas: U64, rest: Script)

  /** toVm translates the errors that have a VM system error of their own. */
  datatype Config = Config(multiplier: Dispatch.Positive, maxStack: U32, toVm: Error -> Option<string>)

  /** What the asking contract gets to see. */
  datatype Shown = ShownData(data: Bytes) | ShownError(text: Dispatch.ErrText) | Aborted(kind: PanicKind)

  /** The end of QueryHandler.Query: system errors are translated and shown, others redacted. */
  function Show(cfg: Config, r: Reply): Shown {
    match r
    case Answer(data) => ShownData(data)
    case Failure(e) =>
      if cfg.toVm(e).Some? then ShownError(Dispatch.Verbatim(cfg.toVm(e).value)) else ShownError(Dispatch.Redact(e))
    case Panicked(kind) => Aborted(kind)
  }

  datatype Reply = Answer(data: Bytes) | Failure(error: Error) | Panicked(kind: PanicKind)

  datatype Meter = Meter(limit: U64, consumed: U64)

  /** What was charged by whoever did the work, in order, and how deeply nested the
      smart queries were that got past the stack check. */
  datatype Log = Log(charges: seq<U64>, nesting: seq<nat>)

  function Join(a: Log, b: Log): Log { Log(a.charges + b.charges, a.nesting + b.nesting) }

  function Spend(m: Meter, gas: U64): Meter { m.(consumed := Added(m.consumed, gas)) }

  /** checkAndIncreaseQueryStackSize: the size is a 32-bit counter. */
  function Increased(size: U32, max: U32): Option<U32> {
    var next: U32 := (size + 1) % TWO_32;
    if next > max then None else Some(next)
  }

  /** QueryHandler.Query, without the redaction of its error: own meter for the query, and
      the caller's meter charged with what it consumed, whatever happened. */
  function SubQuery(cfg: Config, q: Query, gasLimit: U64, m: Meter, size: U32, nest: nat): (Meter, Reply, Log)
    decreases q, 1
  {
    var (sub, reply, log) := Handle(cfg, q, Meter(FromVmGas(gasLimit, cfg.multiplier), 0), size, nest);
    match Raises(m.limit, m.consumed, sub.consumed)
    case Some(p) => (Spend(m, sub.consumed), Panicked(p), log)
    case None => (Spend(m, sub.consumed), reply, log)
  }

  function HandleNative(gas: U64, out: Outcome, m: Meter): Reply {
    match Raises(m.limit, m.consumed, gas)
    case Some(p) => Panicked(p)
    case None =>
      match out
      case Gives(data) => Answer(data)
      case Fails(e) => Failure(e)
      case Breaks(code) => Panicked(OtherPanic(code))
  }

  /** consumeRuntimeGas and what QuerySmart makes of the VM's result. */
  function Finish(cfg: Config, m: Meter, vmGas: U64, out: VmOut): (Meter, Reply) {
    var gas := FromVmGas(vmGas, cfg.multiplier);
    match RuntimeRaises(m.limit, m.consumed, gas)
    case Some(p) => (Spend(m, gas), Panicked(p))
    case None =>
      (Spend(m, gas),
       match out
       case VmError(t) => Failure(Dispatch.Error(Dispatch.Plain, "wasm", 29, t))
       case ContractError(t) => Failure(Dispatch.Error(Dispatch.Deterministic, "wasm", 9, t))
       case Data(bytes) => Answer(bytes))
  }

  /** HandleQuery; for a smart query that is QuerySmart. */
  function Handle(cfg: Config, q: Query, m: Meter, size: U32, nest: nat): (Meter, Reply, Log)
    decreases q, 0
  {
    match q
    case Native(_, gas, out) => (Spend(m, gas), HandleNative(gas, out, m), Log([gas], []))
    case Smart(found, cost, script) =>
      match Increased(size, cfg.maxStack)
      case None => (m, Failure(STACK_EXCEEDED), Log([], []))
      case Some(next) =>
        var looked := Log([found.gas], [nest + 1]);
        match Raises(m.limit, m.consumed, found.gas)
        case Some(p) => (Spend(m, found.gas), Panicked(p), looked)
        case None =>
          if found.missing.Some? then (Spend(m, found.gas), Failure(found.missing.value), looked)
          else
            var (m1, reply, log) := RunSmart(cfg, cost, script, Spend(m, found.gas), next, nest + 1);
            (m1, reply, Join(looked, log))
  }

  /** QuerySmart, once the contract is found. */
  function RunSmart(cfg: Config, cost: U64, script: Script, m: Meter, size: U32, nest: nat): (Meter, Reply, Log)
    decreases script, 1
  {
    match Raises(m.limit, m.consumed, cost)
    case Some(p) => (Spend(m, cost), Panicked(p), Log([cost], []))
    case None =>
      var (m1, vmGas, out, log) := RunScript(cfg, script, Spend(m, cost), size, nest);
      var (m2, reply) := Finish(cfg, m1, vmGas, out);
      (m2, reply, Join(Log([cost], []), Join(log, Log([FromVmGas(vmGas, cfg.multiplier)], []))))
  }

  function RunScript(cfg: Config, s: Script, m: Meter, size: U32, nest: nat): (Meter, U64, VmOut, Log)
    decreases s, 0
  {
    match s
    case Done(vmGas, out) => (m, vmGas, out, Log([], []))
    case Host(gas, stopGas, rest) =>
      if Raises(m.limit, m.consumed, gas).Some? then (Spend(m, gas), stopGas, VmError("host call"), Log([gas], []))
      else
        var (m1, vmGas, out, log) := RunScript(cfg, rest, Spend(m, gas), size, nest);
        (m1, vmGas, out, Join(Log([gas], []), log))
    case Ask(gasLimit, q, stopGas, rest) =>
      var (m1, reply, log) := SubQuery(cfg, q, gasLimit, m, size, nest);
      if reply.Panicked? then (m1, stopGas, VmError("sub-query"), log)
      else
        var (m2, vmGas, out, log2) := RunScript(cfg, rest, m1, size, nest);
        (m2, vmGas, out, Join(log, log2))
  }

  // ---- gas: the caller pays for the whole subtree, once ----

  function Sum(xs: seq<U64>): nat {
    if xs == [] then 0 else xs[0] + Sum(xs[1..])
  }

  lemma {:induction false} SumConcat(xs: seq<U64>, ys: seq<U64>)
    ensures Sum(xs + ys) == Sum(xs) + Sum(ys)
  {
    if xs == [] {
      assert xs + ys == ys;
    } else {
      assert (xs + ys)[1..] == xs[1..] + ys;
      SumConcat(xs[1..], ys);
    }
  }

  /** The meter went from m to m2 by exactly these charges; the counter stops at 2^64 - 1. */
  ghost predicate Paid(m: Meter, m2: Meter, log: Log) {
    m2.limit == m.limit && m2.consumed == if m.consumed + Sum(log.charges) >= TWO_64 then MAX_UINT64 else m.consumed + Sum(log.charges)
  }

  lemma PaidOne(m: Meter, gas: U64, nesting: seq<nat>)
    ensures Paid(m, Spend(m, gas), Log([gas], nesting))
  {
  }

  lemma PaidTwice(m: Meter, m1: Meter, m2: Meter, a: Log, b: Log)
    requires Paid(m, m1, a) && Paid(m1, m2, b)
    ensures Paid(m, m2, Join(a, b))
  {
    SumConcat(a.charges, b.charges);
  }

  lemma {:induction false} HandlePaid(cfg: Config, q: Query, m: Meter, size: U32, nest: nat)
    ensures var (m2, _, log) := Handle(cfg, q, m, size, nest); Paid(m, m2, log)
    decreases q, 0
  {
    match q
    case Native(_, gas, _) => PaidOne(m, gas, []);
    case Smart(found, cost, script) =>
      PaidOne(m, found.gas, [nest + 1]);
      var next, m1 := Increased(size, cfg.maxStack), Spend(m, found.gas);
      if next.Some? {
        SmartPaid(cfg, cost, script, m1, next.value, nest + 1);
        var (m2, _, log) := RunSmart(cfg, cost, script, m1, next.value, nest + 1);
        PaidTwice(m, m1, m2, Log([found.gas], [nest + 1]), log);
      }
  }

  lemma {:induction false} SmartPaid(cfg: Config, cost: U64, script: Script, m: Meter, size: U32, nest: nat)
    ensures var (m2, _, log) := RunSmart(cfg, cost, script, m, size, nest); Paid(m, m2, log)
    decreases script, 1
  {
    PaidOne(m, cost, []);
    if Raises(m.limit, m.consumed, cost).None? {
      ScriptPaid(cfg, script, Spend(m, cost), size, nest);
      var (m1, vmGas, out, log) := RunScript(cfg, script, Spend(m, cost), size, nest);
      var gas := FromVmGas(vmGas, cfg.multiplier);
      PaidOne(m1, gas, []);
      PaidTwice(Spend(m, cost), m1, Spend(m1, gas), log, Log([gas], []));
      PaidTwice(m, Spend(m, cost), Spend(m1, gas), Log([cost], []), Join(log, Log([gas], [])));
    }
  }

  lemma {:induction false} ScriptPaid(cfg: Config, s: Script, m: Meter, size: U32, nest: nat)
    ensures var (m2, _, _, log) := RunScript(cfg, s, m, size, nest); Paid(m, m2, log)
    decreases s, 0
  {
    match s
    case Done(_, _) =>
    case Host(gas, _, rest) =>
      PaidOne(m, gas, []);
      if Raises(m.limit, m.consumed, gas).None? {
        ScriptPaid(cfg, rest, Spend(m, gas), size, nest);
        var (m1, _, _, log) := RunScript(cfg, rest, Spend(m, gas), size, nest);
        PaidTwice(m, Spend(m, gas), m1, Log([gas], []), log);
      }
    case Ask(gasLimit, q, _, rest) =>
      CallerPaysForSubtree(cfg, q, gasLimit, m, size, nest);
      var (m1, reply, log) := SubQuery(cfg, q, gasLimit, m, size, nest);
      if !reply.Panicked? {
        ScriptPaid(cfg, rest, m1, size, nest);
        var (m2, _, _, log2) := RunScript(cfg, rest, m1, size, nest);
        PaidTwice(m, m1, m2, log, log2);
      }
  }

  /** Whatever a query does, at any depth, answered, failed or panicked: the caller's meter
      moves by exactly the sum of what was charged inside, each charge counted once. */
  lemma {:induction false} CallerPaysForSubtree(cfg: Config, q: Query, gasLimit: U64, m: Meter, size: U32, nest: nat)
    ensures var (m2, _, log) := SubQuery(cfg, q, gasLimit, m, size, nest); Paid(m, m2, log)
    decreases q, 1
  {
    HandlePaid(cfg, q, Meter(FromVmGas(gasLimit, cfg.multiplier), 0), size, nest);
  }

  // ---- the query stack ----

  ghost predicate AtMost(xs: seq<nat>, max: nat) {
    forall i | 0 <= i < |xs| :: xs[i] <= max
  }

  lemma {:induction false} HandleNesting(cfg: Config, q: Query, m: Meter, size: U32)
    requires size <= cfg.maxStack && cfg.maxStack + 1 < TWO_32
    ensures AtMost(Handle(cfg, q, m, size, size).2.nesting, cfg.maxStack)
    decreases q, 0
  {
    match q
    case Native(_, _, _) =>
    case Smart(found, cost, script) =>
      var next := Increased(size, cfg.maxStack);
      if next.Some? {
        IncreasedExactly(size, cfg.maxStack);
        ScriptNesting(cfg, script, Spend(Spend(m, found.gas), cost), next.value);
      }
  }

  lemma {:induction false} ScriptNesting(cfg: Config, s: Script, m: Meter, size: U32)
    requires size <= cfg.maxStack && cfg.maxStack + 1 < TWO_32
    ensures AtMost(RunScript(cfg, s, m, size, size).3.nesting, cfg.maxStack)
    decreases s, 0
  {
    match s
    case Done(_, _) =>
    case Host(gas, _, rest) => ScriptNesting(cfg, rest, Spend(m, gas), size);
    case Ask(gasLimit, q, _, rest) =>
      HandleNesting(cfg, q, Meter(FromVmGas(gasLimit, cfg.multiplier), 0), size);
      var (m1, reply, log) := SubQuery(cfg, q, gasLimit, m, size, size);
      if !reply.Panicked? { ScriptNesting(cfg, rest, m1, size); }
  }

  /** The counter follows the nesting unless it wraps, which takes a maximum of 2^32 - 1. */
  lemma IncreasedExactly(size: U32, max: U32)
    ensures Increased(size, max) == (if size + 1 <= max then Some(size + 1) else if size + 1 == TWO_32 then Some(0) else None)
  {
  }

  /** VM gas for n units of gas, or all there is. */
  function GasFor(cfg: Config, n: nat): U64 {
    if cfg.multiplier * n < TWO_64 then cfg.multiplier * n else MAX_UINT64
  }

  lemma DivideProduct(m: nat, n: nat)
    requires m > 0
    ensures (n * m) / m == n
  {
    var q := (n * m) / m;
    assert q * m <= n * m < q * m + m;
    MulMonotone(q + 1, n, m);
    MulMonotone(n + 1, q, m);
  }

  /** What is bought with it: the n units, or at least k of them if k alone can be bought. */
  lemma GasForPays(cfg: Config, n: nat, k: nat)
    requires k <= n && cfg.multiplier * k < TWO_64
    ensures FromVmGas(GasFor(cfg, n), cfg.multiplier) >= k
    ensures cfg.multiplier * n < TWO_64 ==> FromVmGas(GasFor(cfg, n), cfg.multiplier) == n
  {
    DivideProduct(cfg.multiplier, n);
    var q := FromVmGas(GasFor(cfg, n), cfg.multiplier);
    MulMonotone(k, n, cfg.multiplier);
    MulMonotone(q + 1, k, cfg.multiplier);
    assert GasFor(cfg, n) < q * cfg.multiplier + cfg.multiplier;
  }

  /** What a smart query is charged before its contract runs. */
  datatype Price = Price(lookup: Dispatch.Positive, setup: Dispatch.Positive)

  function Per(p: Price): nat { p.lookup + p.setup }

  /** Gas for n queries, and one unit more because the runtime charge may not hit the limit. */
  function Need(p: Price, n: nat): nat { Per(p) * n + 1 }

  lemma NeedMore(p: Price, n: nat)
    ensures Need(p, n + 1) == Need(p, n) + Per(p)
  {
  }

  /** n smart queries inside each other, each handing on what the rest of the chain needs. */
  function Chain(cfg: Config, p: Price, n: nat): Query {
    Smart(Dispatch.Instance(p.lookup, None), p.setup,
      if n <= 1 then Done(0, Data([])) else Ask(GasFor(cfg, Need(p, n - 1)), Chain(cfg, p, n - 1), 0, Done(0, Data([]))))
  }

  lemma {:induction false} ChainNests(cfg: Config, p: Price, n: nat, limit: U64, size: U32, nest: nat)
    requires cfg.maxStack + 1 == TWO_32 && n > 0 && limit >= Per(p) && cfg.multiplier * Per(p) < TWO_64
    ensures nest + n in Handle(cfg, Chain(cfg, p, n), Meter(limit, 0), size, nest).2.nesting
    decreases n
  {
    IncreasedExactly(size, cfg.maxStack);
    var next := Increased(size, cfg.maxStack).value;
    var log := Handle(cfg, Chain(cfg, p, n), Meter(limit, 0), size, nest).2;
    assert log.nesting[0] == nest + 1;
    if n > 1 {
      var gas := GasFor(cfg, Need(p, n - 1));
      NeedMore(p, n - 2);
      GasForPays(cfg, Need(p, n - 1), Per(p));
      ChainNests(cfg, p, n - 1, FromVmGas(gas, cfg.multiplier), next, nest + 1);
      AskFirst(cfg, gas, Chain(cfg, p, n - 1), Meter(limit, Per(p)), next, nest + 1, nest + n);
      EntersScript(cfg, p, Chain(cfg, p, n).script, limit, size, next, nest, nest + n);
    }
  }

  /** What a sub-query enters is entered by the script that asks it. */
  lemma AskFirst(cfg: Config, gasLimit: U64, q: Query, m: Meter, size: U32, nest: nat, x: nat)
    requires x in SubQuery(cfg, q, gasLimit, m, size, nest).2.nesting
    ensures x in RunScript(cfg, Ask(gasLimit, q, 0, Done(0, Data([]))), m, size, nest).3.nesting
  {
  }

  /** And what a script enters, by the smart query that runs it, once it is paid for. */
  lemma EntersScript(cfg: Config, p: Price, script: Script, limit: U64, size: U32, next: U32, nest: nat, x: nat)
    requires Increased(size, cfg.maxStack) == Some(next) && Per(p) <= limit
    requires x in RunScript(cfg, script, Meter(limit, Per(p)), next, nest + 1).3.nesting
    ensures x in Handle(cfg, Smart(Dispatch.Instance(p.lookup, None), p.setup, script), Meter(limit, 0), size, nest).2.nesting
  {
    assert Spend(Spend(Meter(limit, 0), p.lookup), p.setup) == Meter(limit, Per(p));
  }

  /** With gas for all of it the chain is answered, and every query has paid. */
  lemma {:induction false} ChainAnswers(cfg: Config, p: Price, n: nat, limit: U64, size: U32, nest: nat)
    requires cfg.maxStack + 1 == TWO_32 && 0 < n && Need(p, n) <= limit && cfg.multiplier * Need(p, n) < TWO_64
    ensures var (m, reply, _) := Handle(cfg, Chain(cfg, p, n), Meter(limit, 0), size, nest);
      m == Meter(limit, Need(p, n) - 1) && reply == Answer([])
    decreases n
  {
    IncreasedExactly(size, cfg.maxStack);
    var next := Increased(size, cfg.maxStack).value;
    NeedMore(p, n - 1);
    if n > 1 {
      var before := Need(p, n - 1);
      MulMonotone(before, Need(p, n), cfg.multiplier);
      GasForPays(cfg, before, before);
      ChainAnswers(cfg, p, n - 1, before, next, nest + 1);
      AskAnswers(cfg, GasFor(cfg, before), Chain(cfg, p, n - 1), limit, Per(p), next, nest + 1, before - 1);
    }
    SmartAnswers(cfg, p, Chain(cfg, p, n).script, limit, size, next, nest, Need(p, n) - 1);
  }

  lemma SmartAnswers(cfg: Config, p: Price, script: Script, limit: U64, size: U32, next: U32, nest: nat, used: U64)
    requires Increased(size, cfg.maxStack) == Some(next) && Per(p) <= used < limit
    requires var (m, vmGas, out, _) := RunScript(cfg, script, Meter(limit, Per(p)), next, nest + 1);
      m == Meter(limit, used) && vmGas == 0 && out == Data([])
    ensures var (m, reply, _) := Handle(cfg, Smart(Dispatch.Instance(p.lookup, None), p.setup, script), Meter(limit, 0), size, nest);
      m == Meter(limit, used) && reply == Answer([])
  {
    assert Spend(Spend(Meter(limit, 0), p.lookup), p.setup) == Meter(limit, Per(p));
    NothingSpent(cfg, Meter(limit, used));
  }

  lemma NothingSpent(cfg: Config, m: Meter)
    requires m.consumed < m.limit
    ensures FromVmGas(0, cfg.multiplier) == 0
    ensures Finish(cfg, m, 0, Data([])) == (m, Answer([]))
  {
    DivideProduct(cfg.multiplier, 0);
  }

  lemma AskAnswers(cfg: Config, gasLimit: U64, q: Query, limit: U64, spent: U64, size: U32, nest: nat, used: nat)
    requires var (m, reply, _) := Handle(cfg, q, Meter(FromVmGas(gasLimit, cfg.multiplier), 0), size, nest);
      m.consumed == used && reply == Answer([])
    requires used + spent < limit
    ensures var (m, vmGas, out, _) := RunScript(cfg, Ask(gasLimit, q, 0, Done(0, Data([]))), Meter(limit, spent), size, nest);
      m == Meter(limit, used + spent) && vmGas == 0 && out == Data([])
  {
    assert SubQuery(cfg, q, gasLimit, Meter(limit, spent), size, nest).0 == Meter(limit, used + spent);
  }

  ghost predicate Bounded(cfg: Config, q: Query, gasLimit: U64, m: Meter) {
    AtMost(SubQuery(cfg, q, gasLimit, m, 0, 0).2.nesting, cfg.maxStack)
  }

  lemma QueryNesting(cfg: Config, q: Query, gasLimit: U64, m: Meter)
    requires cfg.maxStack + 1 < TWO_32
    ensures Bounded(cfg, q, gasLimit, m)
  {
    HandleNesting(cfg, q, Meter(FromVmGas(gasLimit, cfg.multiplier), 0), 0);
  }

  /** With the largest maximum, a chain of 2^32 queries that all pay gets through, at any
      price that buys a single query. */
  lemma LongChainNotBounded(cfg: Config, p: Price)
    requires cfg.maxStack + 1 == TWO_32 && cfg.multiplier * Per(p) < TWO_64
    ensures !Bounded(cfg, Chain(cfg, p, TWO_32), GasFor(cfg, Need(p, TWO_32)), Meter(MAX_UINT64, 0))
  {
    var n, gas := TWO_32, GasFor(cfg, Need(p, TWO_32));
    NeedMore(p, TWO_32 - 1);
    GasForPays(cfg, Need(p, n), Per(p));
    ChainNests(cfg, p, n, FromVmGas(gas, cfg.multiplier), 0, 0);
    var nesting := SubQuery(cfg, Chain(cfg, p, n), gas, Meter(MAX_UINT64, 0), 0, 0).2.nesting;
    var i :| 0 <= i < |nesting| && nesting[i] == n;
  }

  /** And where VM gas for all of them fits 64 bits, it is not only entered but answered. */
  lemma LongChainAnswered(cfg: Config, p: Price)
    requires cfg.maxStack + 1 == TWO_32 && cfg.multiplier * Need(p, TWO_32) < TWO_64
    ensures SubQuery(cfg, Chain(cfg, p, TWO_32), GasFor(cfg, Need(p, TWO_32)), Meter(MAX_UINT64, 0), 0, 0).1 == Answer([])
  {
    var need := Need(p, TWO_32);
    MulMonotone(1, cfg.multiplier, need);
    GasForPays(cfg, need, need);
    ChainAnswers(cfg, p, TWO_32, need, 0, 0);
  }

  // Reads of the store are charged, so every lookup costs something.

  predicate Priced(q: Query) {
    q.Native? || (q.found.gas > 0 && PricedScript(q.script))
  }

  predicate PricedScript(s: Script) {
    match s
    case Done(_, _) => true
    case Host(_, _, rest) => PricedScript(rest)
    case Ask(_, q, _, rest) => Priced(q) && PricedScript(rest)
  }

  lemma {:induction false} ChainPriced(cfg: Config, p: Price, n: nat)
    ensures Priced(Chain(cfg, p, n))
  {
    if n > 1 { ChainPriced(cfg, p, n - 1); }
  }

  /** One unit of gas does not buy lookup and setup, so nothing is asked from inside. */
  lemma PoorNesting(cfg: Config, q: Query, m: Meter)
    requires Priced(q) && m.limit <= 1 && m.consumed == 0 && cfg.maxStack >= 1
    ensures AtMost(Handle(cfg, q, m, 0, 0).2.nesting, cfg.maxStack)
  {
  }

  /** A multiplier of 2^63 or more turns any amount of VM gas into at most one unit. */
  lemma DearGas(cfg: Config, gas: U64)
    requires cfg.multiplier >= TWO_64 / 2
    ensures FromVmGas(gas, cfg.multiplier) <= 1
  {
    SmallQuotient(gas, cfg.multiplier);
  }

  lemma SmallQuotient(x: nat, m: nat)
    requires m > 0 && x < 2 * m
    ensures x / m <= 1
  {
    var q := x / m;
    assert q * m <= x;
    MulMonotone(2, q, m);
  }

  /** The maximum bounds the nesting of smart queries whatever is asked if it is below
      2^32 - 1; otherwise it does so, among queries whose lookups are charged, exactly when
      no sub-query can pay for its contract. */
  lemma StackBoundedIff(cfg: Config)
    ensures cfg.maxStack + 1 < TWO_32 ==> forall q, gasLimit, m :: Bounded(cfg, q, gasLimit, m)
    ensures cfg.maxStack + 1 < TWO_32 || cfg.multiplier >= TWO_64 / 2 <==>
      forall q, gasLimit, m | Priced(q) :: Bounded(cfg, q, gasLimit, m)
  {
    if cfg.maxStack + 1 < TWO_32 {
      forall q, gasLimit, m ensures Bounded(cfg, q, gasLimit, m) { QueryNesting(cfg, q, gasLimit, m); }
    } else if cfg.multiplier >= TWO_64 / 2 {
      forall q, gasLimit, m | Priced(q) ensures Bounded(cfg, q, gasLimit, m) {
        DearGas(cfg, gasLimit);
        PoorNesting(cfg, q, Meter(FromVmGas(gasLimit, cfg.multiplier), 0));
      }
    } else {
      var p := Price(1, 1);
      LongChainNotBounded(cfg, p);
      ChainPriced(cfg, p, TWO_32);
    }
  }

  // ---- the same, on meters and cached stores ----

  /** QueryHandler.Query: the cached context is never committed, nothing but the caller's
      meter changes, and the contract sees a translated or redacted error. */
  method RunQuery(cfg: Config, q: Query, gasLimit: U64, layer: Layer, meter: GasMeter, size: U32, ghost nest: nat) returns (r: Shown)
    requires layer.Valid()
    modifies meter
    ensures var (m, reply, _) := SubQuery(cfg, q, gasLimit, Meter(meter.limit, old(meter.consumed)), size, nest);
      meter.consumed == m.consumed && r == Show(cfg, reply)
    ensures layer.View() == old(layer.View())
    decreases q, 1
  {
    var sub := new GasMeter(FromVmGas(gasLimit, cfg.multiplier));
    var cache := new Layer.Cache(layer);
    var reply := RunHandle(cfg, q, cache, sub, size, nest);
    var panic := meter.ConsumeGas(sub.consumed);
    if panic.Some? { return Aborted(panic.value); }
    match reply
    case Answer(data) => return ShownData(data);
    case Panicked(kind) => return Aborted(kind);
    case Failure(e) =>
      var system := cfg.toVm(e);
      if system.Some? { return ShownError(Dispatch.Verbatim(system.value)); }
      return ShownError(Dispatch.Redact(e));
  }

  /** HandleQuery and QuerySmart on the cached context. */
  method RunHandle(cfg: Config, q: Query, layer: Layer, meter: GasMeter, size: U32, ghost nest: nat) returns (r: Reply)
    requires layer.Valid()
    modifies layer, meter
    ensures var (m, reply, _) := Handle(cfg, q, Meter(meter.limit, old(meter.consumed)), size, nest);
      meter.consumed == m.consumed && r == reply
    decreases q, 0
  {
    match q {
      case Native(writes, gas, out) =>
        layer.ApplyAll(writes);
        var panic := meter.ConsumeGas(gas);
        if panic.Some? { return Panicked(panic.value); }
        r := match out case Gives(data) => Answer(data) case Fails(e) => Failure(e) case Breaks(code) => Panicked(OtherPanic(code));
      case Smart(found, cost, script) =>
        var next := Increased(size, cfg.maxStack);
        if next.None? { return Failure(STACK_EXCEEDED); }
        var panic := meter.ConsumeGas(found.gas);
        if panic.Some? { return Panicked(panic.value); }
        if found.missing.Some? { return Failure(found.missing.value); }
        r := QuerySmart(cfg, cost, script, layer, meter, next.value, nest + 1);
    }
  }

  method QuerySmart(cfg: Config, cost: U64, script: Script, layer: Layer, meter: GasMeter, size: U32, ghost nest: nat) returns (r: Reply)
    requires layer.Valid()
    modifies meter
    ensures var (m, reply, _) := RunSmart(cfg, cost, script, Meter(meter.limit, old(meter.consumed)), size, nest);
      meter.consumed == m.consumed && r == reply
    decreases script, 1
  {
    var panic := meter.ConsumeGas(cost);
    if panic.Some? { return Panicked(panic.value); }
    ScriptPaid(cfg, script, Meter(meter.limit, meter.consumed), size, nest);
    var vmGas, out := RunVm(cfg, script, layer, meter, size, nest);
    panic := meter.ConsumeRuntimeGas(FromVmGas(vmGas, cfg.multiplier));
    if panic.Some? { return Panicked(panic.value); }
    r := match out
      case VmError(t) => Failure(Dispatch.Error(Dispatch.Plain, "wasm", 29, t))
      case ContractError(t) => Failure(Dispatch.Error(Dispatch.Deterministic, "wasm", 9, t))
      case Data(bytes) => Answer(bytes);
  }

  /** The VM run: a panic inside a host call is caught at the boundary and stops the VM. */
  method RunVm(cfg: Config, s: Script, layer: Layer, meter: GasMeter, size: U32, ghost nest: nat) returns (vmGas: U64, out: VmOut)
    requires layer.Valid()
    modifies meter
    ensures var (m, gas, o, _) := RunScript(cfg, s, Meter(meter.limit, old(meter.consumed)), size, nest);
      meter.consumed == m.consumed && vmGas == gas && out == o
    decreases s, 0
  {
    match s {
      case Done(gas, o) => return gas, o;
      case Host(gas, stopGas, rest) =>
        var panic := meter.ConsumeGas(gas);
        if panic.Some? { return stopGas, VmError("host call"); }
        vmGas, out := RunVm(cfg, rest, layer, meter, size, nest);
      case Ask(gasLimit, q, stopGas, rest) =>
        var reply := RunQuery(cfg, q, gasLimit, layer, meter, size, nest);
        if reply.Aborted? { return stopGas, VmError("sub-query"); }
        vmGas, out := RunVm(cfg, rest, layer, meter, size, nest);
    }
  }
}
