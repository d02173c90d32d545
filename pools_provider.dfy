/** The single-network pipeline of `src/PoolsProvider.tsx`: closed positions are filtered out,
    the rest grouped by pool address, amounts converted into the global currency, and the pool
    list sorted and totalled. */
module PoolsProvider {
  import opened Primitives
  import opened Currency
  import opened Ranking
  import opened QueryPositions

  // ---------------------------------------------------------------------------------------
  // Filtering and grouping positions
  // ---------------------------------------------------------------------------------------

  /** `position && !position.liquidity.isZero()`. */
  predicate IsOpen(position: Option<PositionState>) {
    position.Some? && position.value.liquidity != 0
  }

  /** The open positions, in order. */
  function OpenPositions(positions: seq<Option<PositionState>>): (r: seq<Option<PositionState>>)
    ensures forall x :: multiset(r)[x] == if IsOpen(x) then multiset(positions)[x] else 0
  {
    if positions == [] then []
    else
      var front := positions[..|positions| - 1];
      var last := positions[|positions| - 1];
      assert positions == front + [last];
      if IsOpen(last) then OpenPositions(front) + [last] else OpenPositions(front)
  }

  /** Filtering distributes over concatenation: it keeps the order of the positions it keeps. */
  lemma {:induction false} OpenPositionsConcat(a: seq<Option<PositionState>>, b: seq<Option<PositionState>>)
    ensures OpenPositions(a + b) == OpenPositions(a) + OpenPositions(b)
    decreases |b|
  {
    if b == [] {
      assert a + b == a;
    } else {
      var front := b[..|b| - 1];
      var last := b[|b| - 1];
      assert a + b == (a + front) + [last];
      assert (a + b)[..|a + b| - 1] == a + front;
      OpenPositionsConcat(a, front);
    }
  }

  /** A single position is kept exactly when it is open. */
  lemma OpenPositionsSingle(x: Option<PositionState>)
    ensures OpenPositions([x]) == if IsOpen(x) then [x] else []
  {
    assert [x][..0] == [];
  }

  /** `filteredPositions`: with `filterClosed`, exactly the non-null positions whose liquidity
      is not zero, each as often as it occurs; without it, the list as it is. */
  function FilterPositions(filterClosed: bool, allPositions: seq<Option<PositionState>>): (r: seq<Option<PositionState>>)
    ensures !filterClosed ==> r == allPositions
    ensures filterClosed ==> forall x :: multiset(r)[x] == if IsOpen(x) then multiset(allPositions)[x] else 0
  {
    if filterClosed then OpenPositions(allPositions) else allPositions
  }

  /** `Pool.getAddress(token0, token1, fee)`: the SDK computes the pool address, so the model
      takes it as a parameter. */
  function KeyOf(getAddress: (Token, Token, Num) -> string, position: PositionState): string {
    getAddress(position.token0, position.token1, position.fee)
  }

  /** The non-null positions whose pool address is `key`, in input order. */
  function GroupOf(positions: seq<Option<PositionState>>, getAddress: (Token, Token, Num) -> string, key: string)
    : seq<PositionState>
  {
    if positions == [] then []
    else
      var front := positions[..|positions| - 1];
      var last := positions[|positions| - 1];
      assert positions == front + [last];
      if last.Some? && KeyOf(getAddress, last.value) == key then GroupOf(front, getAddress, key) + [last.value]
      else GroupOf(front, getAddress, key)
  }

  /** `positionsByPool`: a dictionary filled by one pass over the positions, skipping nulls and
      appending each position to the list under its pool address. */
  method GroupByPool(positions: seq<Option<PositionState>>, getAddress: (Token, Token, Num) -> string)
    returns (positionsByPool: map<string, seq<PositionState>>)
    ensures |positions| == 0 ==> positionsByPool == map[]
    ensures forall key :: key in positionsByPool <==> GroupOf(positions, getAddress, key) != []
    ensures forall key :: key in positionsByPool ==> positionsByPool[key] == GroupOf(positions, getAddress, key)
  {
    if |positions| == 0 {
      return map[];
    }
    positionsByPool := map[];
    var i := 0;
    while i < |positions|
      invariant 0 <= i <= |positions|
      invariant forall key :: key in positionsByPool <==> GroupOf(positions[..i], getAddress, key) != []
      invariant forall key :: key in positionsByPool ==> positionsByPool[key] == GroupOf(positions[..i], getAddress, key)
    {
      var position := positions[i];
      if position.Some? {
        var key := KeyOf(getAddress, position.value);
        var collection := if key in positionsByPool then positionsByPool[key] else [];
        positionsByPool := positionsByPool[key := collection + [position.value]];
      }
      forall k | true
        ensures GroupOf(positions[..i + 1], getAddress, k)
                == if position.Some? && KeyOf(getAddress, position.value) == k
                   then GroupOf(positions[..i], getAddress, k) + [position.value]
                   else GroupOf(positions[..i], getAddress, k)
      {
        GroupOfStep(positions, getAddress, i, k);
      }
      i := i + 1;
    }
    assert positions[..i] == positions;
  }

  /** Extending the positions by one extends at most the group of that position's pool. */
  lemma GroupOfStep(positions: seq<Option<PositionState>>, getAddress: (Token, Token, Num) -> string, i: nat, key: string)
    requires i < |positions|
    ensures GroupOf(positions[..i + 1], getAddress, key)
            == if positions[i].Some? && KeyOf(getAddress, positions[i].value) == key
               then GroupOf(positions[..i], getAddress, key) + [positions[i].value]
               else GroupOf(positions[..i], getAddress, key)
  {
    assert positions[..i + 1][..i] == positions[..i];
  }

  /** The group of `key` holds every non-null position with that pool address, as often as it
      occurs among the positions, and nothing else. */
  lemma {:induction false} GroupCounts(positions: seq<Option<PositionState>>, getAddress: (Token, Token, Num) -> string,
                                       key: string, p: PositionState)
    ensures multiset(GroupOf(positions, getAddress, key))[p]
            == if KeyOf(getAddress, p) == key then multiset(positions)[Some(p)] else 0
  {
    if positions != [] {
      var front := positions[..|positions| - 1];
      assert positions == front + [positions[|positions| - 1]];
      GroupCounts(front, getAddress, key, p);
    }
  }

  /** Every position in the group of `key` has that pool address. */
  lemma GroupMembersShareKey(positions: seq<Option<PositionState>>, getAddress: (Token, Token, Num) -> string,
                             key: string, p: PositionState)
    requires p in GroupOf(positions, getAddress, key)
    ensures KeyOf(getAddress, p) == key
  {
    GroupCounts(positions, getAddress, key, p);
  }

  /** With closed positions hidden, the group of `key` holds exactly the open positions with
      that pool address, each as often as it occurs. */
  lemma FilteredGroupCounts(allPositions: seq<Option<PositionState>>, getAddress: (Token, Token, Num) -> string,
                            key: string, p: PositionState)
    ensures multiset(GroupOf(FilterPositions(true, allPositions), getAddress, key))[p]
            == if KeyOf(getAddress, p) == key && p.liquidity != 0 then multiset(allPositions)[Some(p)] else 0
  {
    GroupCounts(FilterPositions(true, allPositions), getAddress, key, p);
  }

  /** When the pool address does not depend on token order, two positions on the same pair
      and fee, tokens given in either order, end up in one group. */
  lemma SwappedPairShareGroup(positions: seq<Option<PositionState>>, getAddress: (Token, Token, Num) -> string,
                              p: PositionState, q: PositionState)
    requires forall a, b, fee :: getAddress(a, b, fee) == getAddress(b, a, fee)
    requires Some(p) in positions && Some(q) in positions
    requires p.token0 == q.token1 && p.token1 == q.token0 && p.fee == q.fee
    ensures p in GroupOf(positions, getAddress, KeyOf(getAddress, p))
    ensures q in GroupOf(positions, getAddress, KeyOf(getAddress, p))
  {
    var key := KeyOf(getAddress, p);
    assert KeyOf(getAddress, q) == key;
    GroupCounts(positions, getAddress, key, p);
    GroupCounts(positions, getAddress, key, q);
  }

  /** `empty`: positions have loaded and none came back at all. */
  function Empty(loadingPositions: bool, allPositions: seq<Option<PositionState>>): bool {
    !loadingPositions && allPositions == []
  }

  /** Filtering every position out does not make the view "empty". */
  lemma AllClosedIsNotEmpty(loadingPositions: bool, allPositions: seq<Option<PositionState>>)
    requires allPositions != []
    requires forall i :: 0 <= i < |allPositions| ==> !IsOpen(allPositions[i])
    ensures FilterPositions(true, allPositions) == []
    ensures !Empty(loadingPositions, allPositions)
  {
  }

  // ---------------------------------------------------------------------------------------
  // Currency conversion
  // ---------------------------------------------------------------------------------------

  /** What the provider's closures read: its chain, the token tables, the ETH price, the global
      currency token, and the value that token is compared with to decide that the global
      currency is USD (`usdTarget`). */
  datatype Context = Context(chainId: int, tables: TokenTables, ethPrice: EthPrice,
                             globalCurrencyToken: Token, usdTarget: Option<Token>)

  /** The global currency counts as USD. */
  predicate GlobalIsUsd(ctx: Context) {
    Matches(ctx.globalCurrencyToken, ctx.usdTarget)
  }

  /** `convertToGlobal`: an amount in the global token, or a stablecoin when the global
      currency is USD, keeps its value; otherwise it is divided by the ETH price when the global
      token is this chain's WETH, and multiplied by it when not. */
  function ConvertToGlobal(ctx: Context, amount: CurrencyAmount): (r: real)
    ensures amount.currency.Equals(ctx.globalCurrencyToken) ==> r == amount.value
    ensures GlobalIsUsd(ctx) && IsStableCoin(ctx.tables, ctx.chainId, amount.currency) ==> r == amount.value
    ensures !amount.currency.Equals(ctx.globalCurrencyToken)
            && !(GlobalIsUsd(ctx) && IsStableCoin(ctx.tables, ctx.chainId, amount.currency)) ==>
              r == if Matches(ctx.globalCurrencyToken, Lookup(ctx.tables.weth9, ctx.chainId))
                   then amount.value / ctx.ethPrice
                   else amount.value * ctx.ethPrice
  {
    Normalize(Some(ctx.globalCurrencyToken), ctx.usdTarget, Lookup(ctx.tables.weth9, ctx.chainId),
              IsStableCoin(ctx.tables, ctx.chainId, amount.currency), ctx.ethPrice, amount)
  }

  /** `formatCurrencyWithSymbol`: "$" when the global currency is USD, "Ξ" otherwise. */
  function FormatCurrencyWithSymbol(ctx: Context, value: real): (r: Formatted)
    ensures r.value == value
    ensures r.symbol == "$" <==> GlobalIsUsd(ctx)
    ensures r.symbol == "$" || r.symbol == "Ξ"
  {
    Formatted(value, Symbol(GlobalIsUsd(ctx)))
  }

  /** `convertToGlobalFormatted`: the converted value with the provider's symbol; under a USD
      global currency a stablecoin is shown at face value in dollars. */
  function ConvertToGlobalFormatted(ctx: Context, amount: CurrencyAmount): (r: Formatted)
    ensures r.value == ConvertToGlobal(ctx, amount)
    ensures r.symbol == "$" <==> GlobalIsUsd(ctx)
    ensures GlobalIsUsd(ctx) && IsStableCoin(ctx.tables, ctx.chainId, amount.currency) ==>
              r == Formatted(amount.value, "$")
  {
    FormatCurrencyWithSymbol(ctx, ConvertToGlobal(ctx, amount))
  }

  /** The USD comparison as written, once a global token is supplied: the global token is
      compared with the whole `USDC` table rather than with this chain's entry, and an object
      that is not a token never equals one. */
  function AsWrittenContext(chainId: int, tables: TokenTables, ethPrice: EthPrice, globalCurrencyToken: Token): Context {
    Context(chainId, tables, ethPrice, globalCurrencyToken, None)
  }

  /** The comparison the provider evidently means: with `USDC[chainId]`. */
  function CorrectedContext(chainId: int, tables: TokenTables, ethPrice: EthPrice, globalCurrencyToken: Token): Context {
    Context(chainId, tables, ethPrice, globalCurrencyToken, Lookup(tables.usdc, chainId))
  }

  /** As written, a DAI amount is priced through ETH although the global currency is this
      chain's USDC, and the symbol is "Ξ"; with the corrected comparison the amount keeps its
      value and the symbol is "$". */
  lemma UnindexedUsdcMisprices(chainId: int, tables: TokenTables, ethPrice: EthPrice, amount: CurrencyAmount)
    requires chainId in tables.usdc && chainId in tables.dai
    requires amount.currency == tables.dai[chainId]
    requires !tables.dai[chainId].Equals(tables.usdc[chainId])
    requires !Matches(tables.usdc[chainId], Lookup(tables.weth9, chainId))
    ensures ConvertToGlobal(AsWrittenContext(chainId, tables, ethPrice, tables.usdc[chainId]), amount)
            == amount.value * ethPrice
    ensures FormatCurrencyWithSymbol(AsWrittenContext(chainId, tables, ethPrice, tables.usdc[chainId]), amount.value).symbol
            == "Ξ"
    ensures ConvertToGlobal(CorrectedContext(chainId, tables, ethPrice, tables.usdc[chainId]), amount) == amount.value
    ensures FormatCurrencyWithSymbol(CorrectedContext(chainId, tables, ethPrice, tables.usdc[chainId]), amount.value).symbol
            == "$"
  {
  }

  /** With the corrected comparison and USDC as the global token, equal amounts of any two
      stablecoins of the chain convert to the same value, that amount itself. */
  lemma StableCoinsAtPar(chainId: int, tables: TokenTables, ethPrice: EthPrice, a: CurrencyAmount, b: CurrencyAmount)
    requires chainId in tables.usdc
    requires IsStableCoin(tables, chainId, a.currency) && IsStableCoin(tables, chainId, b.currency)
    requires a.value == b.value
    ensures var ctx := CorrectedContext(chainId, tables, ethPrice, tables.usdc[chainId]);
            ConvertToGlobal(ctx, a) == ConvertToGlobal(ctx, b) == a.value
  {
  }

  // ---------------------------------------------------------------------------------------
  // The provided value
  // ---------------------------------------------------------------------------------------

  function Converter(ctx: Context): CurrencyAmount -> real {
    amount => ConvertToGlobal(ctx, amount)
  }

  /** What the provider hands to its consumers. */
  datatype PoolsValue = PoolsValue(pools: seq<PoolState>, totalLiquidity: real, totalUncollectedFees: real,
                                   empty: bool, loading: bool)

  /** One render of the provider, from the pools the pool-state hook produced: the pool array
      is sorted in place by converted liquidity and then totalled. The conversion context
      supplies the global token and fixes what it is compared with: `AsWrittenContext` is the
      USD comparison as written, once a global token is supplied, and `CorrectedContext` the
      comparison with this chain's USDC. */
  method ProvidePools(ctx: Context, loadingPositions: bool, allPositions: seq<Option<PositionState>>,
                      pools: array<PoolState>) returns (value: PoolsValue)
    modifies pools
    ensures multiset(pools[..]) == old(multiset(pools[..]))
    ensures NonIncreasing(pools[..], Converter(ctx))
    ensures value.pools == pools[..]
    ensures value.totalLiquidity == Sum(old(pools[..]), Liquidity, Converter(ctx))
    ensures value.totalUncollectedFees == Sum(old(pools[..]), UncollectedFees, Converter(ctx))
    ensures value.empty == Empty(loadingPositions, allPositions)
    ensures value.loading == loadingPositions
  {
    var convert := Converter(ctx);
    SortByLiquidity(pools, convert);
    var sortedPools := pools[..];
    var totals := Totals(sortedPools, convert);
    TotalsAreSums(sortedPools, convert);
    SumPermutation(sortedPools, old(pools[..]), Liquidity, convert);
    SumPermutation(sortedPools, old(pools[..]), UncollectedFees, convert);
    value := PoolsValue(sortedPools, totals.0, totals.1, Empty(loadingPositions, allPositions), loadingPositions);
  }
}
