/** The currency normalisation both pool providers perform: stablecoin recognition and the
    three-way conversion of an amount into the global currency. */
module Currency {
  import opened Primitives

  /** `isStableCoin`: DAI, USDC or USDT of `chain`, or PAX, or FEI. */
  predicate IsStableCoin(tables: TokenTables, chain: int, token: Token) {
    || Matches(token, Lookup(tables.dai, chain))
    || Matches(token, Lookup(tables.usdc, chain))
    || Matches(token, Lookup(tables.usdt, chain))
    || token.Equals(tables.pax)
    || token.Equals(tables.fei)
  }

  /** The stablecoins recognised on `chain`, as a set. */
  function StableCoins(tables: TokenTables, chain: int): set<Token> {
    (if chain in tables.dai then {tables.dai[chain]} else {})
    + (if chain in tables.usdc then {tables.usdc[chain]} else {})
    + (if chain in tables.usdt then {tables.usdt[chain]} else {})
    + {tables.pax, tables.fei}
  }

  /** The chain of comparisons in `isStableCoin` is a membership test in `StableCoins`. */
  lemma StableCoinIffMember(tables: TokenTables, chain: int, token: Token)
    ensures IsStableCoin(tables, chain, token) <==> exists s :: s in StableCoins(tables, chain) && token.Equals(s)
  {
    var coins := StableCoins(tables, chain);
    if IsStableCoin(tables, chain, token) {
      if Matches(token, Lookup(tables.dai, chain)) {
        assert tables.dai[chain] in coins;
      } else if Matches(token, Lookup(tables.usdc, chain)) {
        assert tables.usdc[chain] in coins;
      } else if Matches(token, Lookup(tables.usdt, chain)) {
        assert tables.usdt[chain] in coins;
      } else if token.Equals(tables.pax) {
        assert tables.pax in coins;
      } else {
        assert tables.fei in coins;
      }
    }
  }

  /** What each `convertToGlobal` decides once it knows the token it treats as the global
      currency (`global`), the token it compares that with to mean "USD" (`usd`), the token it
      compares it with to mean "ETH" (`eth`), and whether the amount is in a stablecoin. The
      amount is kept as it is when its token is the global one, or when the global currency is
      USD and the amount is a stablecoin; otherwise it is divided by the ETH price when the
      global currency is ETH, and multiplied by it when not. */
  function Normalize(global: Option<Token>, usd: Option<Token>, eth: Option<Token>, stable: bool,
                     ethPrice: EthPrice, amount: CurrencyAmount): real
  {
    if Matches(amount.currency, global) || (global.Some? && Matches(global.value, usd) && stable) then
      amount.value
    else if global.Some? && Matches(global.value, eth) then
      amount.value / ethPrice
    else
      amount.value * ethPrice
  }

  /** The currency symbol handed to `formatCurrency`: "$" when the global currency is USD. */
  function Symbol(globalIsUsd: bool): (s: string)
    ensures s == "$" || s == "Ξ"
    ensures s == "$" <==> globalIsUsd
  {
    if globalIsUsd then "$" else "Ξ"
  }

  /** The arguments `formatCurrency(value, symbol)` is called with; rendering them is left to
      the formatting helper. */
  datatype Formatted = Formatted(value: real, symbol: string)
}
