/** The gas-fee conversion closure of `src/hooks/useGasFee.ts`: a fee amount expressed in the
    chain's native token is restated in a base token, through a fixed MATIC rate on Polygon
    and through the ETH price elsewhere. */
module GasFee {
  import opened Primitives

  /** Polygon's chain id, whose native token is MATIC. */
  const Polygon: int := 137

  /** The hard-coded MATIC rate the Polygon branch multiplies by. */
  const MaticRate: real := 2.0

  /** Converted values are rounded to this many parts of one (five decimals). */
  const Scale: int := 100000

  /** `r` is `x` rounded to five decimals: within half a step of 0.00001 of it. */
  predicate WithinHalfStep(r: real, x: real) {
    x - 1.0 / 200000.0 < r <= x + 1.0 / 200000.0
  }

  /** `r` has at most five decimals: a whole number of steps of 0.00001. */
  predicate FiveDecimals(r: real) {
    (r * Scale as real).Floor as real == r * Scale as real
  }

  /** `Math.round(x * 100000) / 100000`: `x` rounded to five decimals. */
  function RoundTo5(x: real): (r: real)
    ensures FiveDecimals(r)
    ensures WithinHalfStep(r, x)
  {
    var n := Round(x * Scale as real);
    assert x * Scale as real - 0.5 < n as real <= x * Scale as real + 0.5;
    var r := n as real / Scale as real;
    assert r * Scale as real == n as real;
    r
  }

  /** Five decimals within half a step of `x` is exactly what `RoundTo5` yields: no other value
      of five decimals lies in that window. */
  lemma RoundTo5Unique(r: real, x: real)
    requires FiveDecimals(r) && WithinHalfStep(r, x)
    ensures r == RoundTo5(x)
  {
    var s := RoundTo5(x);
    var m := (r * Scale as real).Floor;
    var n := (s * Scale as real).Floor;
    assert x * Scale as real - 0.5 < m as real <= x * Scale as real + 0.5;
    assert x * Scale as real - 0.5 < n as real <= x * Scale as real + 0.5;
    assert m == n;
  }

  /** The base token has a decimals count, as every token the SDK builds does. */
  predicate WellFormed(baseToken: Token) {
    baseToken.decimals.Int? && baseToken.decimals.value >= 0
  }

  function Unit(baseToken: Token): (u: real)
    requires WellFormed(baseToken)
    ensures u >= 1.0
  {
    Pow10(baseToken.decimals.value) as real
  }

  /** `CurrencyAmount.fromRawAmount(baseToken, Math.round(x * 100000)).divide(100000)`: the
      raw amount counts smallest units of the token, so in whole tokens this is `x` rounded to
      five decimals and then divided by ten to the token's decimals. */
  function FromRawRounded(baseToken: Token, x: real): (r: CurrencyAmount)
    requires WellFormed(baseToken)
    ensures r.currency == baseToken
    ensures r.value * Unit(baseToken) == RoundTo5(x)
  {
    CurrencyAmount(baseToken, RoundTo5(x) / Unit(baseToken))
  }

  /** The closure `useGasFee(baseToken)` returns, as written. On Polygon the amount is priced at
      the MATIC rate, whatever the base token; otherwise a base token that is its chain's WETH
      gets the amount back untouched, and any other is priced through the ETH price. In the two
      priced branches the rounded result lands in the token's smallest units. */
  function ConvertGasFee(baseToken: Token, weth9: map<int, Token>, ethPrice: real, amount: CurrencyAmount)
    : (r: CurrencyAmount)
    requires WellFormed(baseToken)
    ensures amount.currency.chainId == Polygon ==>
              r.currency == baseToken && r.value * Unit(baseToken) == RoundTo5(MaticRate * amount.value)
    ensures amount.currency.chainId != Polygon && Matches(baseToken, Lookup(weth9, baseToken.chainId)) ==>
              r == amount
    ensures amount.currency.chainId != Polygon && !Matches(baseToken, Lookup(weth9, baseToken.chainId)) ==>
              r.currency == baseToken && r.value * Unit(baseToken) == RoundTo5(ethPrice * amount.value)
  {
    if amount.currency.chainId == Polygon then
      FromRawRounded(baseToken, MaticRate * amount.value)
    else if Matches(baseToken, Lookup(weth9, baseToken.chainId)) then
      amount
    else
      FromRawRounded(baseToken, ethPrice * amount.value)
  }

  /** The conversion the closure evidently means: the rounded value in whole base tokens. */
  function ConvertGasFeeCorrected(baseToken: Token, weth9: map<int, Token>, ethPrice: real, amount: CurrencyAmount)
    : (r: CurrencyAmount)
    ensures amount.currency.chainId == Polygon ==>
              r.currency == baseToken && FiveDecimals(r.value) && WithinHalfStep(r.value, MaticRate * amount.value)
    ensures amount.currency.chainId != Polygon && Matches(baseToken, Lookup(weth9, baseToken.chainId)) ==>
              r == amount
    ensures amount.currency.chainId != Polygon && !Matches(baseToken, Lookup(weth9, baseToken.chainId)) ==>
              r.currency == baseToken && FiveDecimals(r.value) && WithinHalfStep(r.value, ethPrice * amount.value)
  {
    if amount.currency.chainId == Polygon then
      CurrencyAmount(baseToken, RoundTo5(MaticRate * amount.value))
    else if Matches(baseToken, Lookup(weth9, baseToken.chainId)) then
      amount
    else
      CurrencyAmount(baseToken, RoundTo5(ethPrice * amount.value))
  }

  /** In the priced branches the closure as written yields the intended value divided by ten to
      the base token's decimals. */
  lemma AsWrittenIsScaledDown(baseToken: Token, weth9: map<int, Token>, ethPrice: real, amount: CurrencyAmount)
    requires WellFormed(baseToken)
    requires amount.currency.chainId == Polygon || !Matches(baseToken, Lookup(weth9, baseToken.chainId))
    ensures ConvertGasFee(baseToken, weth9, ethPrice, amount).value * Unit(baseToken)
            == ConvertGasFeeCorrected(baseToken, weth9, ethPrice, amount).value
  {
    if amount.currency.chainId == Polygon {
      ScaledDownAt(baseToken, MaticRate * amount.value);
    } else {
      ScaledDownAt(baseToken, ethPrice * amount.value);
    }
  }

  lemma ScaledDownAt(baseToken: Token, x: real)
    requires WellFormed(baseToken)
    ensures FromRawRounded(baseToken, x).value * Unit(baseToken) == RoundTo5(x)
  {
  }

  /** A fee of 0.01 ETH on mainnet, at an ETH price of 2000, in a six-decimal base token: the
      intended 20 tokens come out as 0.00002. */
  lemma SixDecimalCounterexample()
    ensures var usdc := Token(1, "usdc", Int(6), "USDC", "USD Coin");
            var fee := CurrencyAmount(Token(1, "weth", Int(18), "WETH", "Wrapped Ether"), 0.01);
            && ConvertGasFeeCorrected(usdc, map[], 2000.0, fee).value == 20.0
            && ConvertGasFee(usdc, map[], 2000.0, fee).value == 0.00002
  {
    var usdc := Token(1, "usdc", Int(6), "USDC", "USD Coin");
    var fee := CurrencyAmount(Token(1, "weth", Int(18), "WETH", "Wrapped Ether"), 0.01);
    assert Round(2000.0 * 0.01 * Scale as real) == 2000000;
    assert RoundTo5(2000.0 * 0.01) == 20.0;
    assert Unit(usdc) == 1000000.0;
  }
}
