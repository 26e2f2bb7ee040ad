/** What a query comes to, said of its inputs alone: when it is answered, how much gas it may
    use, and what the asking contract sees of an error. */
module QueryOutcomes {
  import opened Bytes
  import opened Gas
  import Dispatch
  import opened Queries

  /** A query other than a smart query answers as its plugin does if its gas fits the meter. */
  lemma NativeOutcome(cfg: Config, q: Query, m: Meter, size: U32, nest: nat)
    requires q.Native?
    ensures var (m2, reply, _) := Handle(cfg, q, m, size, nest);
      if m.consumed + q.gas > m.limit then reply.Panicked?
      else m2 == m.(consumed := m.consumed + q.gas) && match q.out
        case Gives(data) => reply == Answer(data)
        case Fails(e) => reply == Failure(e)
        case Breaks(code) => reply == Panicked(OtherPanic(code))
  {
  }

  /** Lookup and setup can be paid for, and the contract is found. */
  predicate Runs(cfg: Config, q: Query, m: Meter, size: U32)
    requires q.Smart?
  {
    && (size + 1) % TWO_32 <= cfg.maxStack && q.found.missing.None?
    && m.consumed + q.found.gas + q.cost <= m.limit
  }

  /** The VM run of a smart query: what it has consumed, the gas it reports and its result. */
  function VmOf(cfg: Config, q: Query, m: Meter, size: U32, nest: nat): (Meter, U64, VmOut)
    requires q.Smart? && Runs(cfg, q, m, size)
  {
    var (m1, vmGas, out, _) := RunScript(cfg, q.script, m.(consumed := m.consumed + q.found.gas + q.cost), (size + 1) % TWO_32, nest + 1);
    (m1, vmGas, out)
  }

  /** A smart query is answered with data if and only if the stack is not full, lookup and setup
      are paid for, the VM ends with that data, and its gas leaves the meter below its limit. */
  lemma SmartAnsweredIff(cfg: Config, q: Query, m: Meter, size: U32, nest: nat, data: Bytes)
    requires q.Smart?
    ensures Handle(cfg, q, m, size, nest).1 == Answer(data) <==>
      && Runs(cfg, q, m, size)
      && var (m1, vmGas, out) := VmOf(cfg, q, m, size, nest);
         out == Data(data) && m1.consumed + vmGas / cfg.multiplier < m1.limit
  {
    if Runs(cfg, q, m, size) { SmartRuns(cfg, q, m, size, nest); }
  }

  lemma SmartRuns(cfg: Config, q: Query, m: Meter, size: U32, nest: nat)
    requires q.Smart? && Runs(cfg, q, m, size)
    ensures var (m1, vmGas, out) := VmOf(cfg, q, m, size, nest);
      var (m2, reply, _) := Handle(cfg, q, m, size, nest);
      && (m2, reply) == Finish(cfg, m1, vmGas, out)
  {
    var m0 := m.(consumed := m.consumed + q.found.gas + q.cost);
    assert Spend(Spend(m, q.found.gas), q.cost) == m0;
  }

  /** Past the maximum a smart query is refused, for free. */
  lemma StackFull(cfg: Config, q: Query, m: Meter, size: U32, nest: nat)
    requires q.Smart? && (size + 1) % TWO_32 > cfg.maxStack
    ensures Handle(cfg, q, m, size, nest).0 == m && Handle(cfg, q, m, size, nest).1 == Failure(STACK_EXCEEDED)
  {
  }

  /** A query that does not panic has stayed within the limit its caller set. */
  lemma WithinLimit(cfg: Config, q: Query, gasLimit: U64, m: Meter, size: U32, nest: nat)
    requires !SubQuery(cfg, q, gasLimit, m, size, nest).1.Panicked?
    ensures var (m2, _, log) := SubQuery(cfg, q, gasLimit, m, size, nest);
      && m.consumed <= m2.consumed <= m2.limit == m.limit
      && m2.consumed - m.consumed <= gasLimit / cfg.multiplier
      && m2.consumed == m.consumed + Sum(log.charges)
  {
    var sub := Meter(FromVmGas(gasLimit, cfg.multiplier), 0);
    HandleWithin(cfg, q, sub, size, nest);
    HandlePaid(cfg, q, sub, size, nest);
    CallerPaysForSubtree(cfg, q, gasLimit, m, size, nest);
  }

  lemma HandleWithin(cfg: Config, q: Query, m: Meter, size: U32, nest: nat)
    requires m.consumed <= m.limit && !Handle(cfg, q, m, size, nest).1.Panicked?
    ensures var (m2, _, _) := Handle(cfg, q, m, size, nest); m2.consumed <= m2.limit == m.limit
  {
    HandlePaid(cfg, q, m, size, nest);
    if q.Smart? && Runs(cfg, q, m, size) {
      SmartRuns(cfg, q, m, size, nest);
      var (m1, vmGas, out) := VmOf(cfg, q, m, size, nest);
      FinishWithin(cfg, m1, vmGas, out);
    }
  }

  lemma FinishWithin(cfg: Config, m: Meter, vmGas: U64, out: VmOut)
    ensures var (m2, reply) := Finish(cfg, m, vmGas, out); !reply.Panicked? ==> m2.consumed < m2.limit == m.limit
  {
  }

  /** What the asking contract sees: data as it is; of an error the text of the system error it
      stands for, the text of a contract's own error, or else only codespace and code. */
  lemma ContractSees(cfg: Config, r: Reply)
    ensures match r
      case Answer(data) => Show(cfg, r) == ShownData(data)
      case Panicked(kind) => Show(cfg, r) == Aborted(kind)
      case Failure(e) =>
        if cfg.toVm(e).Some? then Show(cfg, r) == ShownError(Dispatch.Verbatim(cfg.toVm(e).value))
        else if e.kind == Dispatch.Plain then Show(cfg, r) == ShownError(Dispatch.Coded(e.codespace, e.code))
        else Show(cfg, r) == ShownError(Dispatch.Verbatim(e.text))
  {
  }

  /** So texts of other errors stay hidden: two errors that differ in such a text alone look
      the same to every contract. */
  lemma HiddenTexts(cfg: Config, e: Dispatch.Error, text: string)
    requires e.kind == Dispatch.Plain && cfg.toVm(e).None? && cfg.toVm(e.(text := text)).None?
    ensures Show(cfg, Failure(e)) == Show(cfg, Failure(e.(text := text)))
  {
  }

  /** A panic in a host call or a sub-query stops the VM: what would follow does not happen.
      Otherwise the run goes on with the meter as it is. */
  lemma PanicStopsVm(cfg: Config, s: Script, m: Meter, size: U32, nest: nat)
    ensures s.Host? && m.consumed + s.gas > m.limit ==>
      var (m2, vmGas, out, _) := RunScript(cfg, s, m, size, nest); out.VmError? && vmGas == s.stopGas && m2 == Spend(m, s.gas)
    ensures s.Host? && m.consumed + s.gas <= m.limit ==>
      var (m2, vmGas, out, _) := RunScript(cfg, s, m, size, nest);
      var (m3, vmGas3, out3, _) := RunScript(cfg, s.rest, m.(consumed := m.consumed + s.gas), size, nest);
      (m2, vmGas, out) == (m3, vmGas3, out3)
    ensures s.Ask? ==>
      var (m1, reply, _) := SubQuery(cfg, s.query, s.gasLimit, m, size, nest);
      var (m2, vmGas, out, _) := RunScript(cfg, s, m, size, nest);
      if reply.Panicked? then out.VmError? && vmGas == s.stopGas && m2 == m1
      else var (m3, vmGas3, out3, _) := RunScript(cfg, s.rest, m1, size, nest); (m2, vmGas, out) == (m3, vmGas3, out3)
  {
  }

  /** The asking contract reads the text of a contract's own error, and of a VM error only that
      it was one, unless they stand for system errors. */
  lemma SmartErrors(cfg: Config, q: Query, m: Meter, size: U32, nest: nat)
    requires q.Smart? && Runs(cfg, q, m, size)
    requires var (m1, vmGas, out) := VmOf(cfg, q, m, size, nest); m1.consumed + vmGas / cfg.multiplier < m1.limit && !out.Data?
    ensures var out, reply := VmOf(cfg, q, m, size, nest).2, Handle(cfg, q, m, size, nest).1;
      && reply.Failure?
      && (cfg.toVm(reply.error).None? ==>
           Show(cfg, reply) == ShownError(if out.ContractError? then Dispatch.Verbatim(out.text) else Dispatch.Coded("wasm", 29)))
  {
    SmartRuns(cfg, q, m, size, nest);
  }
}
