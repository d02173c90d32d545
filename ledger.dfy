/** The position ledger of `src/hooks/fetch.ts`: each position's liquidity is rebuilt from its
    transaction history, every position is tagged with the address it was fetched for, and the
    per-address lists are flattened into the hook's state. */
module Ledger {
  import opened Primitives

  /** The transaction kinds of the `TxTypes` enumeration; any other code is carried as `Other`. */
  datatype TxType = Add | Remove | Other(code: int)

  /** One entry of a position's history; `liquidity` is the integer `BigNumber.from` reads from
      the server's decimal string. */
  datatype Transaction = Transaction(
    tokenId: int,
    amount0: string,
    amount1: string,
    transactionType: TxType,
    liquidity: int,
    transactionHash: string,
    timestamp: string,
    gas: string,
    gasPrice: string)

  /** A position as the positions endpoint returns it; its `liquidity` is the server's own figure. */
  datatype RawPosition = RawPosition(
    positionId: int,
    tickLower: int,
    tickUpper: int,
    pool: string,
    liquidity: int,
    transactions: seq<Transaction>)

  /** A position as the hook stores it: the server's fields, the recomputed liquidity, a zero
      fee placeholder and the owner (`undefined`, here `None`, past the end of the address list). */
  datatype PositionStateV2 = PositionStateV2(
    positionId: int,
    tickLower: int,
    tickUpper: int,
    pool: string,
    owner: Option<string>,
    liquidity: int,
    uncollectedFees: int,
    transactions: seq<Transaction>)

  /** What the endpoint answered: a non-ok status, or one list of positions per address. */
  datatype Response = NotOk | Ok(results: seq<seq<RawPosition>>)

  function Contribution(tx: Transaction, kind: TxType): int {
    if tx.transactionType == kind then tx.liquidity else 0
  }

  /** The total liquidity of the transactions of one kind, accumulated from first to last. */
  function Tally(txs: seq<Transaction>, kind: TxType): int {
    if txs == [] then 0 else Tally(txs[..|txs| - 1], kind) + Contribution(txs[|txs| - 1], kind)
  }

  /** A position's net liquidity: what was added minus what was removed, never clamped. */
  function NetLiquidity(txs: seq<Transaction>): int {
    Tally(txs, Add) - Tally(txs, Remove)
  }

  /** The `forEach` over a position's transactions: `Add` adds its liquidity, `Remove`
      subtracts it, and any other kind leaves the running value alone. */
  method PositionLiquidity(txs: seq<Transaction>) returns (liquidity: int)
    ensures liquidity == Tally(txs, Add) - Tally(txs, Remove)
  {
    liquidity := 0;
    var i := 0;
    while i < |txs|
      invariant 0 <= i <= |txs|
      invariant liquidity == Tally(txs[..i], Add) - Tally(txs[..i], Remove)
    {
      var tx := txs[i];
      if tx.transactionType == Add {
        liquidity := liquidity + tx.liquidity;
      } else if tx.transactionType == Remove {
        liquidity := liquidity - tx.liquidity;
      }
      assert txs[..i + 1][..i] == txs[..i];
      i := i + 1;
    }
    assert txs[..i] == txs;
  }

  lemma {:induction false} TallyConcat(a: seq<Transaction>, b: seq<Transaction>, kind: TxType)
    ensures Tally(a + b, kind) == Tally(a, kind) + Tally(b, kind)
    decreases |b|
  {
    if b == [] {
      assert a + b == a;
    } else {
      var n := |b| - 1;
      assert (a + b)[..|a + b| - 1] == a + b[..n];
      TallyConcat(a, b[..n], kind);
    }
  }

  lemma {:induction false} TallyPermutation(a: seq<Transaction>, b: seq<Transaction>, kind: TxType)
    requires multiset(a) == multiset(b)
    ensures Tally(a, kind) == Tally(b, kind)
    decreases |a|
  {
    if a == [] {
      assert |b| == |multiset(b)| == 0;
    } else {
      assert a[0] in multiset(b);
      var k :| 0 <= k < |b| && b[k] == a[0];
      RemoveMatching(a, b, k);
      TallyPermutation(a[1..], b[..k] + b[k + 1..], kind);
      assert a == [a[0]] + a[1..];
      TallyConcat([a[0]], a[1..], kind);
      assert b == b[..k] + [b[k]] + b[k + 1..];
      TallyConcat(b[..k] + [b[k]], b[k + 1..], kind);
      TallyConcat(b[..k], [b[k]], kind);
      TallyConcat(b[..k], b[k + 1..], kind);
    }
  }

  /** The net liquidity depends on which transactions a history holds, not on their order. */
  lemma NetLiquidityIgnoresOrder(a: seq<Transaction>, b: seq<Transaction>)
    requires multiset(a) == multiset(b)
    ensures NetLiquidity(a) == NetLiquidity(b)
  {
    TallyPermutation(a, b, Add);
    TallyPermutation(a, b, Remove);
  }

  /** The transactions of a history that are an `Add` or a `Remove`, in order. */
  function Recognised(txs: seq<Transaction>): (r: seq<Transaction>)
    ensures forall tx :: tx in r ==> !tx.transactionType.Other?
  {
    if txs == [] then []
    else if txs[|txs| - 1].transactionType.Other? then Recognised(txs[..|txs| - 1])
    else Recognised(txs[..|txs| - 1]) + [txs[|txs| - 1]]
  }

  /** Transactions of any other kind do not affect the net liquidity. */
  lemma {:induction false} OtherKindsIgnored(txs: seq<Transaction>)
    ensures NetLiquidity(txs) == NetLiquidity(Recognised(txs))
  {
    if txs != [] {
      var n := |txs| - 1;
      OtherKindsIgnored(txs[..n]);
      if !txs[n].transactionType.Other? {
        var r := Recognised(txs[..n]) + [txs[n]];
        assert r[..|r| - 1] == Recognised(txs[..n]);
      }
    }
  }

  /** Removing more than was added leaves a negative liquidity: the fold has no floor. */
  lemma OverRemovalIsNegative(added: Transaction, removed: Transaction)
    requires added.transactionType == Add && removed.transactionType == Remove
    requires added.liquidity < removed.liquidity
    ensures NetLiquidity([added, removed]) == added.liquidity - removed.liquidity < 0
  {
    var txs := [added, removed];
    assert txs[..1] == [added];
    assert txs[..1][..0] == [];
    assert Tally(txs[..1], Add) == added.liquidity;
    assert Tally(txs[..1], Remove) == 0;
  }

  /** The owner written on positions from `results[idx]`: `addresses[idx]`, or `undefined`. */
  function Owner(addresses: seq<string>, idx: nat): Option<string> {
    if idx < |addresses| then Some(addresses[idx]) else None
  }

  /** `{...result, liquidity: positionLiquidity, uncollectedFees, owner}`. */
  function Built(result: RawPosition, owner: Option<string>): PositionStateV2 {
    PositionStateV2(result.positionId, result.tickLower, result.tickUpper, result.pool,
                    owner, NetLiquidity(result.transactions), 0, result.transactions)
  }

  /** The positions built from the list of one address. */
  function Tagged(addresses: seq<string>, idx: nat, list: seq<RawPosition>): (r: seq<PositionStateV2>)
    ensures |r| == |list|
    ensures forall j :: 0 <= j < |list| ==> r[j] == Built(list[j], Owner(addresses, idx))
  {
    if list == [] then []
    else Tagged(addresses, idx, list[..|list| - 1]) + [Built(list[|list| - 1], Owner(addresses, idx))]
  }

  /** All positions, address by address and, within an address, in the order received. */
  function Flattened(addresses: seq<string>, results: seq<seq<RawPosition>>): seq<PositionStateV2> {
    if results == [] then []
    else Flattened(addresses, results[..|results| - 1])
         + Tagged(addresses, |results| - 1, results[|results| - 1])
  }

  /** The number of positions over all addresses. */
  function TotalLength(results: seq<seq<RawPosition>>): nat {
    if results == [] then 0 else TotalLength(results[..|results| - 1]) + |results[|results| - 1]|
  }

  /** The nested `forEach` that fills `positions` with `push`. */
  method BuildPositions(addresses: seq<string>, results: seq<seq<RawPosition>>) returns (positions: seq<PositionStateV2>)
    ensures positions == Flattened(addresses, results)
  {
    positions := [];
    var idx := 0;
    while idx < |results|
      invariant 0 <= idx <= |results|
      invariant positions == Flattened(addresses, results[..idx])
    {
      positions := PushAll(positions, addresses, idx, results[idx]);
      assert results[..idx + 1][..idx] == results[..idx];
      idx := idx + 1;
    }
    assert results[..idx] == results;
  }

  /** The inner `forEach`: pushes one built position per entry of the list of address `idx`. */
  method PushAll(positions: seq<PositionStateV2>, addresses: seq<string>, idx: nat, list: seq<RawPosition>)
    returns (pushed: seq<PositionStateV2>)
    ensures pushed == positions + Tagged(addresses, idx, list)
  {
    pushed := positions;
    var j := 0;
    while j < |list|
      invariant 0 <= j <= |list|
      invariant pushed == positions + Tagged(addresses, idx, list[..j])
    {
      var result := list[j];
      var positionLiquidity := PositionLiquidity(result.transactions);
      var uncollectedFees := 0;
      pushed := pushed + [PositionStateV2(result.positionId, result.tickLower, result.tickUpper,
                                          result.pool, Owner(addresses, idx), positionLiquidity,
                                          uncollectedFees, result.transactions)];
      assert list[..j + 1][..j] == list[..j];
      j := j + 1;
    }
    assert list[..j] == list;
  }

  /** As many positions come out as the address lists hold together. */
  lemma {:induction false} FlattenedLength(addresses: seq<string>, results: seq<seq<RawPosition>>)
    ensures |Flattened(addresses, results)| == TotalLength(results)
  {
    if results != [] {
      FlattenedLength(addresses, results[..|results| - 1]);
    }
  }

  /** The `j`-th position of address `idx` comes out after every position of the earlier
      addresses, carries `addresses[idx]` as owner, the recomputed liquidity in place of the
      server's figure, and zero uncollected fees. */
  lemma {:induction false} FlattenedAt(addresses: seq<string>, results: seq<seq<RawPosition>>, idx: nat, j: nat)
    requires idx < |results| && j < |results[idx]|
    ensures TotalLength(results[..idx]) + j < |Flattened(addresses, results)|
    ensures Flattened(addresses, results)[TotalLength(results[..idx]) + j] == Built(results[idx][j], Owner(addresses, idx))
  {
    var n := |results| - 1;
    var front := results[..n];
    FlattenedLength(addresses, front);
    FlattenedLength(addresses, results);
    if idx == n {
      assert results[..idx] == front;
    } else {
      assert front[..idx] == results[..idx];
      assert front[idx] == results[idx];
      FlattenedAt(addresses, front, idx, j);
      TotalLengthPrefix(results, idx);
    }
  }

  /** The stored record of the `j`-th position of address `idx`, field by field: the server's
      identity, ticks, pool and history; `addresses[idx]` as owner; the liquidity rebuilt from
      the history, whatever the server reported; and zero uncollected fees. */
  lemma FlattenedFields(addresses: seq<string>, results: seq<seq<RawPosition>>, idx: nat, j: nat)
    requires idx < |addresses| && idx < |results| && j < |results[idx]|
    ensures TotalLength(results[..idx]) + j < |Flattened(addresses, results)|
    ensures var p := Flattened(addresses, results)[TotalLength(results[..idx]) + j];
            var raw := results[idx][j];
            && p.owner == Some(addresses[idx])
            && p.liquidity == Tally(raw.transactions, Add) - Tally(raw.transactions, Remove)
            && p.uncollectedFees == 0
            && p.positionId == raw.positionId && p.tickLower == raw.tickLower && p.tickUpper == raw.tickUpper
            && p.pool == raw.pool && p.transactions == raw.transactions
  {
    FlattenedAt(addresses, results, idx, j);
  }

  lemma {:induction false} TotalLengthPrefix(results: seq<seq<RawPosition>>, idx: nat)
    requires idx < |results|
    ensures TotalLength(results[..idx]) + |results[idx]| <= TotalLength(results)
    decreases |results|
  {
    var n := |results| - 1;
    if idx < n {
      assert results[..n][..idx] == results[..idx];
      TotalLengthPrefix(results[..n], idx);
    } else {
      assert results[..idx] == results[..n];
    }
  }

  /** The state of `useFetchPositions`: a loading flag and the stored positions. */
  class PositionsHook {
    var loading: bool
    var positionStates: seq<PositionStateV2>

    /** `useState(true)` and `useState([])`. */
    constructor ()
      ensures loading && positionStates == []
    {
      loading := true;
      positionStates := [];
    }

    /** One run of the effect: nothing is requested for an empty address list; a non-ok
        response returns early and leaves both the flag and the positions as they were;
        otherwise the built positions are stored and loading ends. */
    method Refresh(addresses: seq<string>, response: Response)
      modifies this
      ensures |addresses| == 0 || response.NotOk? ==>
                loading == old(loading) && positionStates == old(positionStates)
      ensures |addresses| > 0 && response.Ok? ==>
                !loading && positionStates == Flattened(addresses, response.results)
    {
      if |addresses| > 0 {
        if response.Ok? {
          var positions := BuildPositions(addresses, response.results);
          positionStates := positions;
          loading := false;
        }
      }
    }
  }
}
