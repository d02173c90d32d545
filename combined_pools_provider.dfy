/** The cross-network aggregation of `src/CombinedPoolsProvider.tsx`: the pools of mainnet,
    Arbitrum and Optimism in one list, each amount converted into the global currency as
    resolved for the amount's own chain, sorted and totalled. */
module CombinedPoolsProvider {
  import opened Primitives
  import opened AppSettings
  import opened Currency
  import opened Ranking

  /** What `usePoolsForNetwork(chainId)` returns for one chain. */
  datatype Network = Network(loading: bool, pools: seq<PoolState>)

  /** What the provider's closures read: the user preferences, the token tables and the ETH
      price. */
  datatype Env = Env(settings: Settings, tables: TokenTables, ethPrice: EthPrice)

  /** The global-currency token for `chainId` under the preferences. */
  function GlobalToken(env: Env, chainId: int): Option<Token> {
    GetGlobalCurrencyToken(env.settings, env.tables, chainId)
  }

  /** The global token of `chain` is that chain's USDC. */
  predicate GlobalIsUsd(env: Env, chain: int) {
    GlobalToken(env, chain).Some? && Matches(GlobalToken(env, chain).value, Lookup(env.tables.usdc, chain))
  }

  /** The global token of `chain` is that chain's WETH. */
  predicate GlobalIsEth(env: Env, chain: int) {
    GlobalToken(env, chain).Some? && Matches(GlobalToken(env, chain).value, Lookup(env.tables.weth9, chain))
  }

  /** The amount needs no conversion: it is in the global token of its chain, or it is a
      stablecoin and that global token is USDC. */
  predicate KeepsValue(env: Env, amount: CurrencyAmount) {
    var chain := amount.currency.chainId;
    || Matches(amount.currency, GlobalToken(env, chain))
    || (GlobalIsUsd(env, chain) && IsStableCoin(env.tables, chain, amount.currency))
  }

  /** `convertToGlobal`: the global token, USDC and WETH are those of the amount's own chain.
      The amount keeps its value when it needs no conversion; otherwise it is divided by the
      ETH price when the global token is that chain's WETH, and multiplied by it when not. */
  function ConvertToGlobal(env: Env, amount: CurrencyAmount): (r: real)
    ensures KeepsValue(env, amount) ==> r == amount.value
    ensures !KeepsValue(env, amount) && GlobalIsEth(env, amount.currency.chainId) ==> r == amount.value / env.ethPrice
    ensures !KeepsValue(env, amount) && !GlobalIsEth(env, amount.currency.chainId) ==> r == amount.value * env.ethPrice
  {
    var chain := amount.currency.chainId;
    Normalize(GlobalToken(env, chain), Lookup(env.tables.usdc, chain), Lookup(env.tables.weth9, chain),
              IsStableCoin(env.tables, chain, amount.currency), env.ethPrice, amount)
  }

  /** Under a USD preference, on a chain with a USDC entry distinct from its WETH: stablecoins
      keep their value and every other amount is multiplied by the ETH price. */
  lemma ConvertUnderUsd(env: Env, amount: CurrencyAmount)
    requires env.settings.globalCurrency != "eth"
    requires amount.currency.chainId in env.tables.usdc
    requires !Matches(env.tables.usdc[amount.currency.chainId], Lookup(env.tables.weth9, amount.currency.chainId))
    ensures ConvertToGlobal(env, amount)
            == if IsStableCoin(env.tables, amount.currency.chainId, amount.currency) then amount.value
               else amount.value * env.ethPrice
  {
  }

  /** Under an ETH preference, on a chain with a WETH entry distinct from its USDC: WETH keeps
      its value and every other amount is divided by the ETH price. */
  lemma ConvertUnderEth(env: Env, amount: CurrencyAmount)
    requires env.settings.globalCurrency == "eth"
    requires amount.currency.chainId in env.tables.weth9
    requires !Matches(env.tables.weth9[amount.currency.chainId], Lookup(env.tables.usdc, amount.currency.chainId))
    ensures ConvertToGlobal(env, amount)
            == if amount.currency.Equals(env.tables.weth9[amount.currency.chainId]) then amount.value
               else amount.value / env.ethPrice
  {
  }

  /** `formatCurrencyWithSymbol(val, chainId)`: "$" exactly when the global token of `chainId`
      is that chain's USDC. */
  function FormatCurrencyWithSymbol(env: Env, value: real, chainId: int): (r: Formatted)
    ensures r.value == value
    ensures r.symbol == "$" <==> GlobalIsUsd(env, chainId)
    ensures r.symbol == "$" || r.symbol == "Ξ"
  {
    Formatted(value, Symbol(GlobalIsUsd(env, chainId)))
  }

  /** The symbol follows the preference wherever the chain has the tokens it names. */
  lemma SymbolByPreference(env: Env, value: real, chainId: int)
    requires chainId in env.tables.usdc
    requires chainId in env.tables.weth9 ==> !env.tables.weth9[chainId].Equals(env.tables.usdc[chainId])
    ensures env.settings.globalCurrency != "eth" ==> FormatCurrencyWithSymbol(env, value, chainId).symbol == "$"
    ensures env.settings.globalCurrency == "eth" && chainId in env.tables.weth9 ==>
              FormatCurrencyWithSymbol(env, value, chainId).symbol == "Ξ"
  {
  }

  /** `convertToGlobalFormatted`: the converted value, with the symbol of the amount's chain. */
  function ConvertToGlobalFormatted(env: Env, amount: CurrencyAmount): (r: Formatted)
    ensures r.value == ConvertToGlobal(env, amount)
    ensures r.symbol == "$" <==> GlobalIsUsd(env, amount.currency.chainId)
  {
    FormatCurrencyWithSymbol(env, ConvertToGlobal(env, amount), amount.currency.chainId)
  }

  function Converter(env: Env): CurrencyAmount -> real {
    amount => ConvertToGlobal(env, amount)
  }

  /** What the provider hands to its consumers. */
  datatype CombinedValue = CombinedValue(pools: seq<PoolState>, totalLiquidity: real, totalUncollectedFees: real,
                                         empty: bool, loading: bool)

  /** One render of the provider: loading while any network loads; the pools of the three
      networks (mainnet, Arbitrum, Optimism) concatenated, sorted by converted liquidity, and
      totalled per quantity. */
  method ProvideCombined(env: Env, mainnet: Network, optimism: Network, arbitrum: Network) returns (value: CombinedValue)
    ensures value.loading == (mainnet.loading || optimism.loading || arbitrum.loading)
    ensures multiset(value.pools) == multiset(mainnet.pools + arbitrum.pools + optimism.pools)
    ensures NonIncreasing(value.pools, Converter(env))
    ensures value.totalLiquidity == Sum(mainnet.pools, Liquidity, Converter(env))
                                    + Sum(arbitrum.pools, Liquidity, Converter(env))
                                    + Sum(optimism.pools, Liquidity, Converter(env))
    ensures value.totalUncollectedFees == Sum(mainnet.pools, UncollectedFees, Converter(env))
                                          + Sum(arbitrum.pools, UncollectedFees, Converter(env))
                                          + Sum(optimism.pools, UncollectedFees, Converter(env))
    ensures value.empty <==> !value.loading && mainnet.pools == [] && arbitrum.pools == [] && optimism.pools == []
    ensures value.empty ==> value.pools == [] && value.totalLiquidity == 0.0 && value.totalUncollectedFees == 0.0
  {
    var loading := mainnet.loading || optimism.loading || arbitrum.loading;
    var all := mainnet.pools + arbitrum.pools + optimism.pools;
    var empty := !loading && |all| == 0;
    var convert := Converter(env);
    var pools := new PoolState[|all|](i requires 0 <= i < |all| => all[i]);
    assert pools[..] == all;
    SortByLiquidity(pools, convert);
    var sortedPools := pools[..];
    var totals := Totals(sortedPools, convert);
    TotalsAreSums(sortedPools, convert);
    SumPermutation(sortedPools, all, Liquidity, convert);
    SumPermutation(sortedPools, all, UncollectedFees, convert);
    SumConcat(mainnet.pools + arbitrum.pools, optimism.pools, Liquidity, convert);
    SumConcat(mainnet.pools, arbitrum.pools, Liquidity, convert);
    SumConcat(mainnet.pools + arbitrum.pools, optimism.pools, UncollectedFees, convert);
    SumConcat(mainnet.pools, arbitrum.pools, UncollectedFees, convert);
    if empty {
      assert |multiset(sortedPools)| == 0;
    }
    value := CombinedValue(sortedPools, totals.0, totals.1, empty, loading);
  }
}
