/** Values the portfolio core receives from the Uniswap SDK and from JavaScript itself. */
module Primitives {

  datatype Option<T> = None | Some(value: T)

  /** A JavaScript number produced by `parseInt`: an integer, or NaN. */
  datatype Num = NaN | Int(value: int)

  /** An ERC-20 token as `new Token(chainId, address, decimals, symbol, name)` builds it. */
  datatype Token = Token(chainId: int, address: string, decimals: Num, symbol: string, name: string)
  {
    /** The SDK's `Token.equals`: same chain and same address; decimals, symbol and name play no part. */
    predicate Equals(other: Token) {
      chainId == other.chainId && address == other.address
    }
  }

  /** `token.equals(x)` where `x` may be `undefined` (a chain a table has no entry for) or
      an object that is not a token: neither ever matches. */
  predicate Matches(token: Token, x: Option<Token>) {
    x.Some? && token.Equals(x.value)
  }

  /** `table[chain]`: the token, or `undefined` when the table has no entry for that chain. */
  function Lookup(table: map<int, Token>, chain: int): Option<Token> {
    if chain in table then Some(table[chain]) else None
  }

  /** An amount of a token; `value` is the amount in whole units of `currency`, the number
      `parseFloat(amount.toSignificant(n))` stands for. */
  datatype CurrencyAmount = CurrencyAmount(currency: Token, value: real)

  /** The per-chain token tables of the constants file and of the SDK (`DAI`, `USDC`, `USDT`,
      `WETH9`), and the two single-chain stablecoins `PAX` and `FEI`. */
  datatype TokenTables = TokenTables(
    dai: map<int, Token>,
    usdc: map<int, Token>,
    usdt: map<int, Token>,
    weth9: map<int, Token>,
    pax: Token,
    fei: Token)

  /** The ETH price in USD supplied by the price hook. Nothing in the providers guards against a
      zero price, so the model only admits non-zero ones. */
  type EthPrice = p: real | p != 0.0 witness 1.0

  /** `Math.round`: the nearest integer, halves rounded up. */
  function Round(x: real): (n: int)
    ensures x - 0.5 < n as real <= x + 0.5
  {
    (x + 0.5).Floor
  }

  /** 10 to the power `n`. */
  function Pow10(n: nat): (r: nat)
    ensures r >= 1
  {
    if n == 0 then 1 else 10 * Pow10(n - 1)
  }

  /** Taking the first element out of `a` and a copy of it out of `b` keeps them permutations. */
  lemma RemoveMatching<T>(a: seq<T>, b: seq<T>, k: nat)
    requires multiset(a) == multiset(b) && a != [] && k < |b| && b[k] == a[0]
    ensures multiset(a[1..]) == multiset(b[..k] + b[k + 1..])
  {
    assert a == [a[0]] + a[1..];
    assert b == b[..k] + [b[k]] + b[k + 1..];
    calc {
      multiset(a[1..]);
      multiset(a) - multiset{a[0]};
      multiset(b) - multiset{a[0]};
      multiset(b[..k]) + multiset{b[k]} + multiset(b[k + 1..]) - multiset{a[0]};
      multiset(b[..k]) + multiset(b[k + 1..]);
      multiset(b[..k] + b[k + 1..]);
    }
  }
}
