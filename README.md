# Uniswap v3 portfolio aggregation, modelled in Dafny

This project models the portfolio core of a Uniswap v3 position dashboard. The core turns
per-address position data into per-pool summaries, converts every amount into one global
currency (USD through USDC, or ETH through WETH), and combines several networks into one
sorted, totalled view. The modelled parts are:

- **Position ledger** (`src/hooks/fetch.ts`, module `Ledger`). A position's liquidity is
  rebuilt from its transaction history: `Add` adds, `Remove` subtracts, anything else is
  ignored. Every position is tagged with the address it was fetched for, and the per-address
  lists are flattened address by address. The hook state is a class whose `Refresh` either
  stores the result and ends loading, or leaves everything as it was.
- **Query shaping** (`src/hooks/useQueryPositions.ts`, module `QueryPositions`). The subgraph
  answer becomes a loading flag plus one record per position. A position whose pool tick does
  not parse becomes `null`. `parseInt(s, 10)` is modelled on strings: leading white space, an
  optional sign, the longest digit prefix, and NaN when there is no digit.
- **Per-network provider** (`src/PoolsProvider.tsx`, module `PoolsProvider`). It filters
  closed positions and groups positions by pool address with an in-place dictionary loop. It
  converts amounts into the global currency, sorts the pool array in place by converted
  liquidity, and totals liquidity and uncollected fees.
- **Combined provider** (`src/CombinedPoolsProvider.tsx`, module `CombinedPoolsProvider`). It
  concatenates mainnet, Arbitrum and Optimism and ORs their loading flags. Each amount is
  converted with the global token of the amount's own chain, then the list is sorted and
  totalled.
- **Settings** (`src/AppSettingsProvider.tsx`, module `AppSettings`): the default
  preferences, and the global-currency token lookup with its fallback to USDC.
- **Gas fee** (`src/hooks/useGasFee.ts`, module `GasFee`): the conversion closure, with a
  fixed MATIC rate on Polygon, an identity branch for WETH, and ETH-price conversion
  otherwise.
- **Shared modules.** `Primitives` holds the tokens and token tables, `Currency` the
  stablecoin test and the conversion decision, and `Ranking` the in-place insertion sort and
  the totals fold.

Sources of I/O and time are parameters. The ETH price, the pool-address function
`Pool.getAddress`, the subgraph and HTTP responses, and the pools produced by the pool-state
hook are all given as inputs.

Two behaviours of the code that the model keeps as they are:

- **A failed positions request.** The code at `src/hooks/fetch.ts:71-73` returns early on a
  non-ok response without touching `loading`. The flag keeps its previous value, so it stays
  true until some request succeeds (line 103 clears it then). `Ledger.PositionsHook.Refresh`
  leaves the whole state unchanged in that case.
- **The USD comparison in the per-network provider.** `src/PoolsProvider.tsx:112` and `:125`
  compare the global token with the whole `USDC` table, not with `USDC[chainId]` (see
  Findings). `PoolsProvider.ProvidePools` takes the conversion context as a parameter:
  `PoolsProvider.AsWrittenContext` is the USD comparison as written, once a global token is
  supplied; `PoolsProvider.CorrectedContext` is the comparison with the chain's USDC. As the
  code stands, no global token is supplied at all (see "## Left out").

## Model

| member | source | states |
|---|---|---|
| Primitives.Round | src/hooks/useGasFee.ts:17 | `Math.round` yields an integer within one half of its argument (halves round up) |
| AppSettings.GetGlobalCurrencyToken | src/AppSettingsProvider.tsx:21-30 | with "eth" and a WETH entry for the chain, the result is that chain's WETH; in every other case ("usd", any other name, or no WETH entry) it is the chain's USDC entry, or undefined when there is none |
| AppSettings.DefaultsResolveToUsdc | src/AppSettingsProvider.tsx:18-30 | under the defaults nothing is hidden and every chain's global token is its USDC |
| Currency.StableCoinIffMember | src/PoolsProvider.tsx:92-106 | `isStableCoin` holds exactly when the token equals one of the chain's DAI, USDC or USDT entries, or PAX, or FEI |
| Currency.Symbol | src/CombinedPoolsProvider.tsx:90-92 | the symbol is "$" exactly when the global currency is USD, and "Ξ" otherwise |
| Ranking.SortByLiquidity | src/PoolsProvider.tsx:134-138 | after the in-place sort the array is a permutation of its old contents, and converted liquidity never increases along it |
| Ranking.TotalsAreSums | src/PoolsProvider.tsx:141-157 | the reduce yields the sum of converted liquidity and the sum of converted uncollected fees over all pools |
| Ranking.SumPermutation | src/CombinedPoolsProvider.tsx:107-124 | a sum of converted quantities does not depend on the order of the pools |
| Ranking.TotalsPermutation | src/CombinedPoolsProvider.tsx:100-124 | sorting before the reduce leaves both totals unchanged |
| Ledger.PositionLiquidity | src/hooks/fetch.ts:81-88 | the loop over transactions yields the `Add` liquidity total minus the `Remove` liquidity total |
| Ledger.TallyPermutation | src/hooks/fetch.ts:82-88 | a per-kind total does not depend on transaction order |
| Ledger.NetLiquidityIgnoresOrder | src/hooks/fetch.ts:81-88 | a position's liquidity is the same for any ordering of its history |
| Ledger.OtherKindsIgnored | src/hooks/fetch.ts:83-87 | removing every transaction that is neither `Add` nor `Remove` leaves the liquidity unchanged |
| Ledger.OverRemovalIsNegative | src/hooks/fetch.ts:86 | removing more than was added gives a negative liquidity; nothing clamps it at zero |
| Ledger.BuildPositions | src/hooks/fetch.ts:77-100 | the nested loops produce exactly the flattened list, address-major and then in received order |
| Ledger.PushAll | src/hooks/fetch.ts:79-99 | the inner loop appends one built position per entry of one address's list, after what was already there |
| Ledger.FlattenedLength | src/hooks/fetch.ts:77-100 | the number of stored positions is the sum of the per-address list lengths |
| Ledger.FlattenedAt | src/hooks/fetch.ts:77-100 | the `j`-th position of address `idx` is stored right after all positions of the earlier addresses |
| Ledger.FlattenedFields | src/hooks/fetch.ts:91-98 | each stored position has `addresses[idx]` as owner, the rebuilt liquidity in place of the server's figure, zero uncollected fees, and the server's other fields |
| Ledger.PositionsHook.constructor | src/hooks/fetch.ts:61-62 | the hook starts loading, with no positions |
| Ledger.PositionsHook.Refresh | src/hooks/fetch.ts:64-109 | no addresses or a non-ok response changes nothing, and loading stays as it was; otherwise the flattened positions are stored and loading ends |
| QueryPositions.ParseInt10 | src/hooks/useQueryPositions.ts:92-94 | `parseInt(s, 10)` is NaN exactly when no digit follows the leading white space and optional sign |
| QueryPositions.ParseDecimal | src/hooks/useQueryPositions.ts:103 | `parseInt` reads every integer back from its decimal text |
| QueryPositions.ShapeToken | src/hooks/useQueryPositions.ts:78-91 | a token carries the queried chain id, the subgraph id as its address, and the parsed decimals |
| QueryPositions.ShapePosition | src/hooks/useQueryPositions.ts:76-130 | an entry is null exactly when the pool tick does not parse; otherwise fee and ticks are the base-10 parses, and the pool is built from both tokens, the fee, the square-root price, zero liquidity and the parsed tick |
| QueryPositions.ShapeQuery | src/hooks/useQueryPositions.ts:67-132 | while loading the result is (true, []); on error or without data it is (false, []); otherwise there is one shaped entry per returned position, in order |
| QueryPositions.DecimalTickKept | src/hooks/useQueryPositions.ts:103-107 | a position whose pool tick is the decimal text of an integer is kept, with that tick |
| QueryPositions.NullTickDropped | src/hooks/useQueryPositions.ts:103-107 | a position whose pool tick is null becomes null |
| PoolsProvider.FilterPositions | src/PoolsProvider.tsx:47-54 | with `filterClosed`, exactly the non-null positions of non-zero liquidity are kept, as often as they occur (their order is fixed by `OpenPositionsConcat`); without it, the list is unchanged |
| PoolsProvider.OpenPositionsConcat | src/PoolsProvider.tsx:49-51 | filtering a concatenation is the concatenation of the filtered parts, so kept positions stay in input order |
| PoolsProvider.OpenPositionsSingle | src/PoolsProvider.tsx:49-51 | a single position is kept exactly when it is non-null with non-zero liquidity |
| PoolsProvider.GroupByPool | src/PoolsProvider.tsx:56-82 | an empty list gives an empty dictionary; a key is present exactly when some non-null position has that pool address, and its list holds those positions in input order |
| PoolsProvider.GroupCounts | src/PoolsProvider.tsx:64-79 | a group holds each non-null position with its pool address exactly as often as it occurs in the input, and nothing else |
| PoolsProvider.GroupMembersShareKey | src/PoolsProvider.tsx:69-78 | every position in the group of a key has that pool address |
| PoolsProvider.FilteredGroupCounts | src/PoolsProvider.tsx:47-79 | after hiding closed positions, a group holds exactly the open positions with its pool address |
| PoolsProvider.SwappedPairShareGroup | src/PoolsProvider.tsx:69-74 | if the pool address ignores token order, positions on the same pair and fee share one group |
| PoolsProvider.AllClosedIsNotEmpty | src/PoolsProvider.tsx:87-90 | when every position is closed, filtering leaves nothing, yet the view is not "empty" |
| PoolsProvider.ConvertToGlobal | src/PoolsProvider.tsx:108-122 | the amount is unchanged when it is in the global token, or when it is a stablecoin and the global token matches the USD comparison target; otherwise it is divided by the ETH price when the global token is this chain's WETH, and multiplied by it when not |
| PoolsProvider.FormatCurrencyWithSymbol | src/PoolsProvider.tsx:124-127 | the value is passed on with "$" exactly when the global token matches the USD comparison target, and "Ξ" otherwise |
| PoolsProvider.ConvertToGlobalFormatted | src/PoolsProvider.tsx:129-131 | the converted value with the provider's symbol; under USD a stablecoin is shown at face value with "$" |
| PoolsProvider.UnindexedUsdcMisprices | src/PoolsProvider.tsx:110-127 | as written, a DAI amount with USDC as global token is multiplied by the ETH price and shown with "Ξ"; compared with the chain's USDC it keeps its value and shows "$" |
| PoolsProvider.StableCoinsAtPar | src/PoolsProvider.tsx:108-122 | with the chain's USDC as global token, equal amounts of any two stablecoins convert to that same amount |
| PoolsProvider.ProvidePools | src/PoolsProvider.tsx:133-170 | for a given conversion context that supplies the global token (the USD comparison as written: with the `USDC` table; corrected: with `USDC[chainId]`), the pool array is sorted in place (a permutation, non-increasing converted liquidity); the totals are the sums over the pools; `empty` holds when not loading with no positions; `loading` is the positions' loading flag |
| CombinedPoolsProvider.ConvertToGlobal | src/CombinedPoolsProvider.tsx:71-87 | with the global token, USDC and WETH of the amount's own chain: unchanged when in the global token, or a stablecoin under USDC; otherwise divided by the ETH price under WETH, and multiplied by it when not |
| CombinedPoolsProvider.ConvertUnderUsd | src/CombinedPoolsProvider.tsx:71-87 | under a USD preference, on a chain with USDC distinct from WETH, stablecoins keep their value and all else is multiplied by the ETH price |
| CombinedPoolsProvider.ConvertUnderEth | src/CombinedPoolsProvider.tsx:71-87 | under an ETH preference, on a chain with WETH distinct from USDC, WETH keeps its value and all else is divided by the ETH price |
| CombinedPoolsProvider.FormatCurrencyWithSymbol | src/CombinedPoolsProvider.tsx:89-94 | "$" exactly when the chain's global token equals that chain's USDC, "Ξ" otherwise |
| CombinedPoolsProvider.SymbolByPreference | src/CombinedPoolsProvider.tsx:89-94 | on a chain with USDC and a distinct WETH, the symbol is "$" unless the preference is "eth", and "Ξ" under "eth" |
| CombinedPoolsProvider.ConvertToGlobalFormatted | src/CombinedPoolsProvider.tsx:96-98 | the converted value, with the symbol of the amount's own chain |
| CombinedPoolsProvider.ProvideCombined | src/CombinedPoolsProvider.tsx:45-124 | loading is the OR of the three flags; the pools are a permutation of mainnet ++ arbitrum ++ optimism, sorted by converted liquidity; the totals are the per-network sums added up; `empty` holds exactly when not loading and all three lists are empty, and then nothing is shown and both totals are zero |
| GasFee.RoundTo5 | src/hooks/useGasFee.ts:17-18 | the result has five decimals and lies within half of 0.00001 of its argument |
| GasFee.RoundTo5Unique | src/hooks/useGasFee.ts:17-18 | every five-decimal value within half of 0.00001 of `x` is `Math.round(x * 100000) / 100000`, so the two clauses above pin the rounding down |
| GasFee.FromRawRounded | src/hooks/useGasFee.ts:15-18 | the amount is in the base token, and its value in smallest units is the rounded figure |
| GasFee.ConvertGasFee | src/hooks/useGasFee.ts:12-29 | on chain 137 the result is 2 × value, rounded, in the base token, even when the base token is WETH; otherwise a WETH base token gets the amount back unchanged; otherwise ETH price × value, rounded, in the base token; in both priced branches the figure lands in smallest units |
| GasFee.ConvertGasFeeCorrected | src/hooks/useGasFee.ts:12-29 | the same three branches with the priced results in whole base tokens, each of five decimals and within half of 0.00001 of the exact product (so, by `RoundTo5Unique`, the product rounded as `Math.round` does) |
| GasFee.AsWrittenIsScaledDown | src/hooks/useGasFee.ts:15-28 | in the priced branches the value as written is the intended value divided by ten to the base token's decimals |
| GasFee.SixDecimalCounterexample | src/hooks/useGasFee.ts:25-28 | 0.01 ETH at a price of 2000 in a six-decimal token is meant to be 20 tokens, but comes out as 0.00002 |

## Left out

- HTTP, React and persistence are not modelled. This covers `fetch`, `useEffect`, `useState`,
  `useMemo`, context providers and persisted state. Responses and query states are inputs;
  the effect is the `Refresh` method.
- `useFetchPools` and `useFetchUncollectedFees` (`src/hooks/fetch.ts:114-176`) only post a
  request and store the JSON, so they are not modelled.
- The request body sends `chainId` alongside the addresses. The chain plays no other part in
  the ledger, so it is not modelled.
- The hooks `usePoolsState`, `usePoolsForNetwork`, `usePoolContracts`, `useEthPrice`,
  `useAddresses` and `useChainId` are not part of this model. Their results are parameters:
  pool records, loading flags, the price, the chain and the addresses.
- Apollo client construction, the theme selector and the positions table are not modelled.
- The SDK's internals are not modelled: `Pool.getAddress`, `Pool` and `Token` construction,
  `CurrencyAmount.toSignificant` and `formatCurrency`.
  - Pool addresses come from a function parameter.
  - `formatCurrency` is represented by its arguments (`Formatted`).
  - The token constructor's checks on address and decimals are not modelled.
- Floating point is not modelled. Amounts and prices are exact reals, standing for
  `parseFloat(toSignificant(n))`. Significant-digit rounding and IEEE rounding are not
  modelled, and neither is `parseInt` losing precision on very long digit strings.
- `BigNumber.from` and `JSBI.BigInt` are assumed to have been applied already: the records
  carry the integers they produce.
- The numeric codes of `TxTypes` are not shown in the source. The model has `Add`, `Remove`
  and `Other(code)`.
- `Token.equals(undefined)` throws in the SDK. In the model a comparison with a missing
  table entry (or with a non-token) is simply "no match". This also applies when
  `getGlobalCurrencyToken` yields undefined on a chain without USDC: the source would throw,
  while the model converts by multiplying.
- `Primitives.EthPrice` only admits non-zero prices. The source never guards the division
  by the ETH price, so a zero price is a precondition of the model rather than a modelled
  case.
- `AppSettings.GetGlobalCurrencyToken`: the source looks the preference up in an object
  literal, so a name such as `"constructor"` would find an inherited property. The model
  treats every name other than "usd" and "eth" as absent.
- `PoolsProvider.ProvidePools` reads `globalCurrencyToken` from the settings context
  (`src/PoolsProvider.tsx:41`), but the settings value has no such field
  (`src/AppSettingsProvider.tsx:34-40`), so the variable is `undefined`. As written, the first
  conversion or formatting therefore throws a TypeError: `val.currency.equals(undefined)` at
  line 111 and `undefined.equals(USDC)` at line 125. The provider throws in the `reduce` with
  one pool, in the sort with two or more, and on every symbol lookup. The model does not
  capture this: it takes the global token as a field of the conversion context.
- `PoolsProvider.ConvertToGlobal`: as written it throws on every call, because the global token
  is `undefined` (see the line above); the model states the three branches for a supplied
  global token.
- `PoolsProvider.FormatCurrencyWithSymbol`: as written it throws on every call, at
  `undefined.equals(USDC)`; the model states the symbol for a supplied global token.
- `Ranking.SortByLiquidity`: the contract does not state stability. `Array.prototype.sort` has
  been required to be stable since ES2019, so pools of equal converted liquidity keep their
  input order there. The insertion sort only swaps on a strict `<`, so it behaves the same,
  but proving that would need each pool's original position tracked through the swaps, and
  that is not done.
- `CombinedPoolsProvider.ProvideCombined` states the concatenation order (mainnet, Arbitrum,
  Optimism) only up to permutation. Because `Array.prototype.sort` is stable, pools of equal
  converted liquidity come out in mainnet, Arbitrum, Optimism order in the source; the model
  does not prove this, for the same reason as `Ranking.SortByLiquidity` above.
- `QueryPositions.ParseInt10`: `parseInt("-0", 10)` is `-0` in JavaScript, while the model
  yields the integer 0, because the model's integers have no negative zero.

## Findings

| source | as written | input that shows it | evidently intended | confidence | as-written member | corrected member |
|---|---|---|---|---|---|---|
| src/PoolsProvider.tsx:112 | `globalCurrencyToken.equals(USDC)` compares with the whole per-chain table, not with `USDC[chainId]` (also at line 125), so the USD case never applies | global token = this chain's USDC, amount in this chain's DAI: the value is multiplied by the ETH price and shown with "Ξ" | compare with `USDC[chainId]`, as `isStableCoin` does at line 95, so stablecoins keep their value and the symbol is "$". The table comparison is only reached once line 41 supplies a global token: as written, `globalCurrencyToken` is `undefined` and the call throws first | high, not executed | PoolsProvider.UnindexedUsdcMisprices | PoolsProvider.StableCoinsAtPar |
| src/hooks/useGasFee.ts:15-18 | `CurrencyAmount.fromRawAmount(baseToken, Math.round(x * 100000)).divide(100000)` treats the rounded figure as smallest units of the base token (also at lines 25-28) | base token with 6 decimals, fee 0.01 ETH on mainnet, ETH price 2000: 0.00002 tokens instead of 20 | the rounded figure in whole base tokens | medium, not executed | GasFee.SixDecimalCounterexample | GasFee.ConvertGasFeeCorrected |
