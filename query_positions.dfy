/** The result shaping of `src/hooks/useQueryPositions.ts`: the subgraph answer becomes a
    loading flag and one position record per returned position, or `null` where the pool's
    current tick does not parse. */
module QueryPositions {
  import opened Primitives

  // ---------------------------------------------------------------------------------------
  // parseInt(s, 10)
  // ---------------------------------------------------------------------------------------

  /** The characters `parseInt` skips before a number: white space and line terminators. */
  predicate IsJsWhiteSpace(c: char) {
    || c == '\t' || c == '\n' || c == '\U{000B}' || c == '\U{000C}' || c == '\r' || c == ' '
    || c == '\U{00A0}' || c == '\U{1680}' || ('\U{2000}' <= c <= '\U{200A}')
    || c == '\U{2028}' || c == '\U{2029}' || c == '\U{202F}' || c == '\U{205F}'
    || c == '\U{3000}' || c == '\U{FEFF}'
  }

  predicate IsDigit(c: char) {
    '0' <= c <= '9'
  }

  predicate AllDigits(s: string) {
    forall i :: 0 <= i < |s| ==> IsDigit(s[i])
  }

  /** The text with its leading white space removed. */
  function TrimStart(s: string): (r: string)
    ensures |r| <= |s| && r == s[|s| - |r|..]
    ensures r == [] || !IsJsWhiteSpace(r[0])
  {
    if s != [] && IsJsWhiteSpace(s[0]) then TrimStart(s[1..]) else s
  }

  /** The longest prefix made of decimal digits. */
  function DigitPrefix(s: string): (r: string)
    ensures |r| <= |s| && r == s[..|r|]
    ensures AllDigits(r)
    ensures |r| < |s| ==> !IsDigit(s[|r|])
  {
    if s != [] && IsDigit(s[0]) then [s[0]] + DigitPrefix(s[1..]) else []
  }

  /** The value of a string of decimal digits. */
  function DigitsValue(d: string): nat
    requires AllDigits(d)
  {
    if d == [] then 0 else 10 * DigitsValue(d[..|d| - 1]) + (d[|d| - 1] - '0') as nat
  }

  /** What is left after the white space and an optional sign. */
  function Unsigned(s: string): string {
    var t := TrimStart(s);
    if t != [] && (t[0] == '+' || t[0] == '-') then t[1..] else t
  }

  /** `parseInt(s, 10)`: skip white space, read an optional sign and then as many decimal
      digits as follow; NaN when there is not a single one. (`-0` is the integer 0 here.) */
  function ParseInt10(s: string): (r: Num)
    ensures r.NaN? <==> Unsigned(s) == [] || !IsDigit(Unsigned(s)[0])
  {
    var t := TrimStart(s);
    var negative := t != [] && t[0] == '-';
    var digits := DigitPrefix(Unsigned(s));
    if digits == [] then NaN
    else
      var magnitude: int := DigitsValue(digits);
      Int(if negative then -magnitude else magnitude)
  }

  /** The decimal text of a natural number, without leading zeros. */
  function NatDecimal(n: nat): (r: string)
    ensures r != [] && AllDigits(r)
  {
    if n < 10 then [('0' as int + n) as char]
    else NatDecimal(n / 10) + [('0' as int + n % 10) as char]
  }

  /** `String(n)` for an integer `n`. */
  function Decimal(n: int): string {
    if n < 0 then "-" + NatDecimal(-n) else NatDecimal(n)
  }

  lemma {:induction false} NatDecimalValue(n: nat)
    ensures DigitsValue(NatDecimal(n)) == n
  {
    if n >= 10 {
      NatDecimalValue(n / 10);
      var d := NatDecimal(n);
      assert d[..|d| - 1] == NatDecimal(n / 10);
    }
  }

  lemma AllDigitsPrefix(s: string)
    requires AllDigits(s)
    ensures DigitPrefix(s) == s
  {
  }

  lemma DigitIsNotSpaceOrSign(c: char)
    requires IsDigit(c)
    ensures !IsJsWhiteSpace(c) && c != '+' && c != '-'
  {
  }

  /** Text that starts with a digit is its own unsigned part. */
  lemma UnsignedOfDigits(digits: string)
    requires digits != [] && IsDigit(digits[0])
    ensures TrimStart(digits) == digits
    ensures Unsigned(digits) == digits
  {
    DigitIsNotSpaceOrSign(digits[0]);
  }

  /** A minus sign before a digit is skipped. */
  lemma UnsignedOfNegative(digits: string)
    requires digits != [] && IsDigit(digits[0])
    ensures TrimStart("-" + digits) == "-" + digits
    ensures Unsigned("-" + digits) == digits
  {
    var s := "-" + digits;
    assert s[0] == '-' && s[1..] == digits;
    assert !IsJsWhiteSpace('-');
  }

  /** `parseInt` reads back every integer from its decimal text. */
  lemma ParseDecimal(n: int)
    ensures ParseInt10(Decimal(n)) == Int(n)
  {
    var m := if n < 0 then -n else n;
    var digits := NatDecimal(m);
    NatDecimalValue(m);
    AllDigitsPrefix(digits);
    if n < 0 {
      UnsignedOfNegative(digits);
      assert Decimal(n) == "-" + digits;
    } else {
      UnsignedOfDigits(digits);
      assert Decimal(n) == digits;
    }
  }

  // ---------------------------------------------------------------------------------------
  // The subgraph answer and its shaping
  // ---------------------------------------------------------------------------------------

  /** A token as the subgraph describes it; every number is a decimal string. */
  datatype RawToken = RawToken(id: string, decimals: string, symbol: string, name: string)

  /** The pool fields the query selects; `tick` is `null` for a pool that has none. The square
      root price is the integer `JSBI.BigInt` reads. */
  datatype RawPool = RawPool(feeTier: string, tick: Option<string>, sqrtPrice: int)

  /** One entry of `data.positions`. The fields read with `BigNumber.from` are carried as the
      integers they denote. */
  datatype RawPosition = RawPosition(
    id: int,
    token0: RawToken,
    token1: RawToken,
    pool: RawPool,
    tickLowerIdx: string,
    tickUpperIdx: string,
    liquidity: int,
    feeGrowthInside0LastX128: int,
    feeGrowthInside1LastX128: int)

  /** What `useQuery` reports: still loading, failed, and the data if any arrived. */
  datatype QueryState = QueryState(loading: bool, error: bool, data: Option<seq<RawPosition>>)

  /** The arguments of `new Pool(token0, token1, fee, sqrtPriceX96, 0, tickCurrent)`. */
  datatype Pool = Pool(token0: Token, token1: Token, fee: Num, sqrtPriceX96: int, liquidity: int, tickCurrent: int)

  /** One shaped position. */
  datatype PositionState = PositionState(
    id: int,
    token0: Token,
    token1: Token,
    fee: Num,
    tickLower: Num,
    tickUpper: Num,
    liquidity: int,
    pool: Pool,
    feeGrowthInside0LastX128: int,
    feeGrowthInside1LastX128: int)

  /** The hook's result; `None` entries are the `null`s of the source. */
  datatype PositionsResult = PositionsResult(loading: bool, positionStates: seq<Option<PositionState>>)

  /** The text `parseInt` sees for a field that may be `null`. */
  function JsString(field: Option<string>): string {
    if field.Some? then field.value else "null"
  }

  function ShapeToken(chainId: int, raw: RawToken): (t: Token)
    ensures t.chainId == chainId && t.address == raw.id && t.decimals == ParseInt10(raw.decimals)
  {
    Token(chainId, raw.id, ParseInt10(raw.decimals), raw.symbol, raw.name)
  }

  /** The callback of `positions.map`. */
  function ShapePosition(chainId: int, raw: RawPosition): (r: Option<PositionState>)
    ensures r.None? <==> ParseInt10(JsString(raw.pool.tick)).NaN?
    ensures r.Some? ==>
      var p := r.value;
      && p.id == raw.id && p.liquidity == raw.liquidity
      && p.token0 == ShapeToken(chainId, raw.token0) && p.token1 == ShapeToken(chainId, raw.token1)
      && p.fee == ParseInt10(raw.pool.feeTier)
      && p.tickLower == ParseInt10(raw.tickLowerIdx)
      && p.tickUpper == ParseInt10(raw.tickUpperIdx)
      && p.feeGrowthInside0LastX128 == raw.feeGrowthInside0LastX128
      && p.feeGrowthInside1LastX128 == raw.feeGrowthInside1LastX128
      && p.pool == Pool(p.token0, p.token1, p.fee, raw.pool.sqrtPrice, 0, ParseInt10(JsString(raw.pool.tick)).value)
  {
    var token0 := ShapeToken(chainId, raw.token0);
    var token1 := ShapeToken(chainId, raw.token1);
    var fee := ParseInt10(raw.pool.feeTier);
    var tickLower := ParseInt10(raw.tickLowerIdx);
    var tickUpper := ParseInt10(raw.tickUpperIdx);
    var tickCurrent := ParseInt10(JsString(raw.pool.tick));
    if tickCurrent.NaN? then None
    else
      var pool := Pool(token0, token1, fee, raw.pool.sqrtPrice, 0, tickCurrent.value);
      Some(PositionState(raw.id, token0, token1, fee, tickLower, tickUpper, raw.liquidity, pool,
                         raw.feeGrowthInside0LastX128, raw.feeGrowthInside1LastX128))
  }

  /** The hook's answer for a query state: a fixed shape while loading or after a failure,
      otherwise one entry per returned position, in order. */
  function ShapeQuery(chainId: int, query: QueryState): (r: PositionsResult)
    ensures query.loading ==> r == PositionsResult(true, [])
    ensures !query.loading && (query.error || query.data.None?) ==> r == PositionsResult(false, [])
    ensures !query.loading && !query.error && query.data.Some? ==>
      && !r.loading
      && |r.positionStates| == |query.data.value|
      && forall i :: 0 <= i < |r.positionStates| ==> r.positionStates[i] == ShapePosition(chainId, query.data.value[i])
  {
    if query.loading then PositionsResult(true, [])
    else if query.error || query.data.None? then PositionsResult(false, [])
    else
      var positions := query.data.value;
      PositionsResult(false, seq(|positions|, i requires 0 <= i < |positions| => ShapePosition(chainId, positions[i])))
  }

  /** A position whose pool reports its tick as the decimal text of an integer is kept, with
      that tick. */
  lemma DecimalTickKept(chainId: int, raw: RawPosition, tick: int)
    requires raw.pool.tick == Some(Decimal(tick))
    ensures ShapePosition(chainId, raw).Some?
    ensures ShapePosition(chainId, raw).value.pool.tickCurrent == tick
  {
    ParseDecimal(tick);
  }

  /** A position whose pool reports no tick (`null`) becomes `null`. */
  lemma NullTickDropped(chainId: int, raw: RawPosition)
    requires raw.pool.tick == None
    ensures ShapePosition(chainId, raw) == None
  {
    assert TrimStart("null") == "null";
    assert Unsigned("null") == "null";
  }
}
