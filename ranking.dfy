/** The ordering and totalling both pool providers apply to their pool list: an in-place sort
    by converted liquidity, largest first, and a left fold that sums converted liquidity and
    converted uncollected fees. */
module Ranking {
  import opened Primitives

  /** The summary record of one pool as the pool-state hook delivers it; only its liquidity and
      uncollected fees take part in ordering and totals. */
  datatype PoolState = PoolState(address: string, poolLiquidity: CurrencyAmount, poolUncollectedFees: CurrencyAmount)

  /** The two converted quantities of a pool the totals add up. */
  datatype Field = Liquidity | UncollectedFees

  function Converted(pool: PoolState, field: Field, convert: CurrencyAmount -> real): real {
    match field
    case Liquidity => convert(pool.poolLiquidity)
    case UncollectedFees => convert(pool.poolUncollectedFees)
  }

  /** Every pool's converted liquidity is at least that of every pool after it. */
  predicate NonIncreasing(pools: seq<PoolState>, convert: CurrencyAmount -> real) {
    forall i, j :: 0 <= i < j < |pools| ==> convert(pools[i].poolLiquidity) >= convert(pools[j].poolLiquidity)
  }

  /** `pools.sort((a, b) => convert(b.poolLiquidity) - convert(a.poolLiquidity))`: reorders the
      array in place so that converted liquidity never increases along it. */
  method SortByLiquidity(pools: array<PoolState>, convert: CurrencyAmount -> real)
    modifies pools
    ensures NonIncreasing(pools[..], convert)
    ensures multiset(pools[..]) == old(multiset(pools[..]))
  {
    if pools.Length == 0 {
      return;
    }
    var i := 1;
    while i < pools.Length
      invariant 1 <= i <= pools.Length
      invariant NonIncreasing(pools[..i], convert)
      invariant multiset(pools[..]) == old(multiset(pools[..]))
    {
      SinkInto(pools, i, convert);
      i := i + 1;
    }
    assert pools[..i] == pools[..];
  }

  /** One insertion step: moves `pools[i]` left past every pool of smaller converted liquidity,
      so that the sorted prefix grows by one. */
  method SinkInto(pools: array<PoolState>, i: nat, convert: CurrencyAmount -> real)
    requires i < pools.Length
    requires NonIncreasing(pools[..i], convert)
    modifies pools
    ensures NonIncreasing(pools[..i + 1], convert)
    ensures multiset(pools[..]) == old(multiset(pools[..]))
  {
    var j := i;
    while 0 < j && convert(pools[j - 1].poolLiquidity) < convert(pools[j].poolLiquidity)
      invariant 0 <= j <= i
      invariant forall k, l :: 0 <= k < l <= i && k != j && l != j ==>
                  convert(pools[k].poolLiquidity) >= convert(pools[l].poolLiquidity)
      invariant forall l :: j < l <= i ==> convert(pools[j].poolLiquidity) >= convert(pools[l].poolLiquidity)
      invariant multiset(pools[..]) == old(multiset(pools[..]))
    {
      SwapWithPrevious(pools, j);
      j := j - 1;
    }
  }

  /** Exchanges `pools[j - 1]` and `pools[j]`. */
  method SwapWithPrevious(pools: array<PoolState>, j: nat)
    requires 0 < j < pools.Length
    modifies pools
    ensures pools[..] == old(pools[..])[j - 1 := old(pools[j])][j := old(pools[j - 1])]
    ensures multiset(pools[..]) == old(multiset(pools[..]))
  {
    pools[j - 1], pools[j] := pools[j], pools[j - 1];
  }

  /** `pools.reduce((accm, pool) => [accm[0] + convert(liquidity), accm[1] + convert(fees)], [0, 0])`:
      the fold visits the pools from first to last. */
  function Totals(pools: seq<PoolState>, convert: CurrencyAmount -> real): (real, real)
  {
    if pools == [] then (0.0, 0.0)
    else
      var accm := Totals(pools[..|pools| - 1], convert);
      var pool := pools[|pools| - 1];
      (accm.0 + convert(pool.poolLiquidity), accm.1 + convert(pool.poolUncollectedFees))
  }

  /** The sum, over all pools, of one converted quantity. */
  function Sum(pools: seq<PoolState>, field: Field, convert: CurrencyAmount -> real): real
  {
    if pools == [] then 0.0 else Converted(pools[0], field, convert) + Sum(pools[1..], field, convert)
  }

  lemma {:induction false} SumConcat(a: seq<PoolState>, b: seq<PoolState>, field: Field, convert: CurrencyAmount -> real)
    ensures Sum(a + b, field, convert) == Sum(a, field, convert) + Sum(b, field, convert)
  {
    if a == [] {
      assert a + b == b;
    } else {
      assert (a + b)[1..] == a[1..] + b;
      SumConcat(a[1..], b, field, convert);
    }
  }

  /** The sum does not depend on the order of the pools. */
  lemma {:induction false} SumPermutation(a: seq<PoolState>, b: seq<PoolState>, field: Field, convert: CurrencyAmount -> real)
    requires multiset(a) == multiset(b)
    ensures Sum(a, field, convert) == Sum(b, field, convert)
    decreases |a|
  {
    if a == [] {
      assert |b| == |multiset(b)| == 0;
    } else {
      assert a[0] in multiset(b);
      var k :| 0 <= k < |b| && b[k] == a[0];
      RemoveMatching(a, b, k);
      SumPermutation(a[1..], b[..k] + b[k + 1..], field, convert);
      SumWithout(b, k, field, convert);
    }
  }

  lemma SumWithout(b: seq<PoolState>, k: nat, field: Field, convert: CurrencyAmount -> real)
    requires k < |b|
    ensures Sum(b, field, convert) == Converted(b[k], field, convert) + Sum(b[..k] + b[k + 1..], field, convert)
  {
    assert b == b[..k] + ([b[k]] + b[k + 1..]);
    SumConcat(b[..k], [b[k]] + b[k + 1..], field, convert);
    SumConcat(b[..k], b[k + 1..], field, convert);
    assert ([b[k]] + b[k + 1..])[1..] == b[k + 1..];
  }

  /** The reduce computes the two sums of converted quantities. */
  lemma {:induction false} TotalsAreSums(pools: seq<PoolState>, convert: CurrencyAmount -> real)
    ensures Totals(pools, convert) == (Sum(pools, Liquidity, convert), Sum(pools, UncollectedFees, convert))
  {
    if pools != [] {
      var n := |pools| - 1;
      TotalsAreSums(pools[..n], convert);
      assert pools == pools[..n] + [pools[n]];
      SumConcat(pools[..n], [pools[n]], Liquidity, convert);
      SumConcat(pools[..n], [pools[n]], UncollectedFees, convert);
    }
  }

  /** Sorting before totalling, as the providers do, leaves the totals unchanged. */
  lemma TotalsPermutation(a: seq<PoolState>, b: seq<PoolState>, convert: CurrencyAmount -> real)
    requires multiset(a) == multiset(b)
    ensures Totals(a, convert) == Totals(b, convert)
  {
    TotalsAreSums(a, convert);
    TotalsAreSums(b, convert);
    SumPermutation(a, b, Liquidity, convert);
    SumPermutation(a, b, UncollectedFees, convert);
  }
}
