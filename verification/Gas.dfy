/** The gas meter of the Cosmos SDK: a charge is added first, and the meter
    panics when the sum no longer fits 64 bits or lies past the limit. */
module Gas {
  import opened Bytes

  const MAX_UINT64: U64 := 0xFFFF_FFFF_FFFF_FFFF

  datatype PanicKind = OutOfGas | GasOverflow | OtherPanic(code: nat)

  /** Consumption after adding amount; the counter saturates on overflow. */
  function Added(consumed: U64, amount: U64): (r: U64)
    ensures consumed <= r && (consumed + amount < TWO_64 ==> r == consumed + amount)
  {
    if consumed + amount >= TWO_64 then MAX_UINT64 else consumed + amount
  }

  /** The panic ConsumeGas raises, if any. */
  function Raises(limit: U64, consumed: U64, amount: U64): (p: Option<PanicKind>)
    ensures p.None? <==> consumed + amount <= limit
    ensures p.Some? ==> p.value.OutOfGas? || p.value.GasOverflow?
  {
    if consumed + amount >= TWO_64 then Some(GasOverflow)
    else if consumed + amount > limit then Some(OutOfGas)
    else None
  }

  /** The panic consumeRuntimeGas raises: unlike a plain charge it also raises
      when the meter lands exactly on its limit. */
  function RuntimeRaises(limit: U64, consumed: U64, amount: U64): (p: Option<PanicKind>)
    ensures p.None? <==> consumed + amount < limit
    ensures p.Some? ==> p.value.OutOfGas? || p.value.GasOverflow?
  {
    if Raises(limit, consumed, amount).Some? then Raises(limit, consumed, amount)
    else if Added(consumed, amount) >= limit then Some(OutOfGas)
    else None
  }

  /** ToWasmVMGas: 64-bit multiplication, rejected when the product looks smaller
      than its argument. None stands for the out-of-gas panic. */
  function ToVmGas(source: U64, multiplier: U64): (r: Option<U64>) {
    var x: U64 := (source * multiplier) % TWO_64;
    if x < source then None else Some(x)
  }

  function FromVmGas(source: U64, multiplier: U64): U64
    requires multiplier > 0
  {
    source / multiplier
  }

  lemma MulMonotone(a: nat, b: nat, m: nat)
    ensures a <= b ==> a * m <= b * m
  {
  }

  /** The conversion is exact if and only if the product fits 64 bits, which it does up to
      the largest amount divided by the multiplier. */
  lemma VmGasExactIff(source: U64, multiplier: U64)
    requires multiplier > 0
    ensures ToVmGas(source, multiplier) == Some(source * multiplier) <==> source * multiplier < TWO_64
    ensures source <= MAX_UINT64 / multiplier ==> source * multiplier < TWO_64
  {
    MulMonotone(1, multiplier, source);
    var q := MAX_UINT64 / multiplier;
    assert q * multiplier <= MAX_UINT64;
    MulMonotone(source, q, multiplier);
  }

  /** An amount whose wrapped product the test takes for a right one. */
  function Undetected(multiplier: U64): nat
    requires multiplier >= 3
  {
    (TWO_64 + multiplier - 2) / (multiplier - 1)
  }

  lemma SumAtMostProduct(a: nat, b: nat)
    requires a >= 2 && b >= 2
    ensures a + b <= a * b
  {
    MulMonotone(2, b, a);
    MulMonotone(2, a, b);
  }

  /** With s the quotient of 2^64 by k, rounded up, the product with k + 1 wraps once. */
  lemma WrapsOnce(s: nat, k: nat)
    requires 2 <= k < TWO_64 - 1 && TWO_64 <= s * k <= TWO_64 + k - 1
    ensures s + k <= TWO_64
  {
    if s > 2 { SumAtMostProduct(s - 1, k); }
  }

  lemma UndetectedPasses(multiplier: U64)
    requires multiplier >= 3
    ensures var s := Undetected(multiplier);
      s < TWO_64 && s * multiplier >= TWO_64 && ToVmGas(s, multiplier).Some?
  {
    var k, s := multiplier - 1, Undetected(multiplier);
    assert TWO_64 <= s * k <= TWO_64 + k - 1;
    assert s * multiplier == s * k + s;
    WrapsOnce(s, k);
    var x := s * multiplier - TWO_64;
    assert (s * multiplier) % TWO_64 == x >= s;
  }

  /** The overflow test of ToWasmVMGas catches every overflow if and only if the multiplier
      is at most 2; the default one is 140000. */
  lemma OverflowTestSoundIff(multiplier: U64)
    ensures (forall s: U64 :: s * multiplier >= TWO_64 ==> ToVmGas(s, multiplier).None?) <==> multiplier <= 2
  {
    if multiplier >= 3 {
      UndetectedPasses(multiplier);
      var s: U64 := Undetected(multiplier);
      assert s * multiplier >= TWO_64 && ToVmGas(s, multiplier).Some?;
    } else {
      forall s: U64 | s * multiplier >= TWO_64 ensures ToVmGas(s, multiplier).None? {
        assert multiplier == 2 && (s * 2) % TWO_64 == s * 2 - TWO_64;
      }
    }
  }

  class GasMeter {
    const limit: U64
    var consumed: U64

    constructor (limit: U64)
      ensures this.limit == limit && consumed == 0
    {
      this.limit := limit;
      consumed := 0;
    }

    method ConsumeGas(amount: U64) returns (panic: Option<PanicKind>)
      modifies this
      ensures consumed == Added(old(consumed), amount)
      ensures panic == Raises(limit, old(consumed), amount)
    {
      if consumed + amount >= TWO_64 {
        consumed := MAX_UINT64;
        return Some(GasOverflow);
      }
      consumed := consumed + amount;
      if consumed > limit {
        return Some(OutOfGas);
      }
      return None;
    }

    predicate IsOutOfGas()
      reads this
    {
      consumed >= limit
    }

    /** Keeper.consumeRuntimeGas, with the charge already in SDK gas. */
    method ConsumeRuntimeGas(amount: U64) returns (panic: Option<PanicKind>)
      modifies this
      ensures consumed == Added(old(consumed), amount)
      ensures panic == RuntimeRaises(limit, old(consumed), amount)
    {
      panic := ConsumeGas(amount);
      if panic.None? && IsOutOfGas() {
        panic := Some(OutOfGas);
      }
    }
  }
}
