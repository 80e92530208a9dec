/** Integer amount arithmetic of the transfer handlers: the truncating
    BigNumber division, the slippage minimum of the conversion modal, the
    approval decision, and the pool's coin index and `add_liquidity` amounts
    vector. Amounts are base units; `k` is `Math.floor(slippage * 100)` for the
    slippage percentage selected in the form. */
module Amounts {
  import opened Common

  /** Euclidean division of a natural number, bounded by multiples of `d`. */
  lemma DivBounds(n: nat, d: nat)
    requires d > 0
    ensures 0 <= n / d
    ensures 0 <= (n / d) * d <= n < (n / d) * d + d
  {
    var q, r := n / d, n % d;
    assert n == q * d + r && 0 <= r < d;
    if q < 0 {
      assert q * d <= -1 * d by {
        assert q * d - (-1 * d) == (q + 1) * d;
        assert q + 1 <= 0;
        MulNonPositive(q + 1, d);
      }
    }
  }

  lemma MulNonPositive(a: int, d: nat)
    requires a <= 0
    ensures a * d <= 0
  {
  }

  /** A larger factor gives a product larger by at least `d`. */
  lemma MulStep(x: int, y: int, d: nat)
    requires x > y
    ensures x * d >= y * d + d
  {
    var k := x - y - 1;
    assert x * d == y * d + d + k * d;
    MulNonPositive(-k, d);
    assert (-k) * d == -(k * d);
  }

  /** `BigNumber.div(d)`: division truncating toward zero. */
  function TruncDiv(a: int, d: nat): (q: int)
    requires d > 0
    ensures 0 <= a ==> 0 <= q * d <= a < q * d + d
    ensures a < 0 ==> q * d - d < a <= q * d <= 0
  {
    if a >= 0 then
      DivBounds(a, d);
      a / d
    else
      DivBounds(-a, d);
      assert -((-a) / d) * d == -(((-a) / d) * d);
      -((-a) / d)
  }

  /** Truncating division is monotone in the dividend. */
  lemma TruncDivMonotone(a: int, b: int, d: nat)
    requires d > 0 && a <= b
    ensures TruncDiv(a, d) <= TruncDiv(b, d)
  {
    var qa, qb := TruncDiv(a, d), TruncDiv(b, d);
    assert qa * d < qb * d + d;
    if qa > qb {
      MulStep(qa, qb, d);
    }
  }

  /** Dividing an exact multiple gives the factor back. */
  lemma TruncDivExact(x: nat, d: nat)
    requires d > 0
    ensures TruncDiv(x * d, d) == x
  {
  }

  /** `parsed.mul(100 - k).div(100)`: the minimum output the conversion modal
      passes to the pool, as written. The factor is `100 - k` percent although
      `k` is the slippage in hundredths of a percent. */
  function SlippageMin(x: nat, k: int): (m: int)
    ensures 0 <= k <= 100 ==> 0 <= m <= x && m * 100 <= x * (100 - k) < m * 100 + 100
    ensures k == 0 ==> m == x
    ensures k >= 100 ==> m <= 0
  {
    var a := x * (100 - k);
    if 0 <= k <= 100 then
      assert a <= x * 100;
      TruncDivMonotone(a, x * 100, 100);
      TruncDivExact(x, 100);
      TruncDiv(a, 100)
    else
      TruncDiv(a, 100)
  }

  /** A larger slippage never raises the minimum. */
  lemma SlippageMinAntitone(x: nat, k1: int, k2: int)
    requires k1 <= k2
    ensures SlippageMin(x, k2) <= SlippageMin(x, k1)
  {
    assert x * (100 - k2) <= x * (100 - k1) by {
      assert x * (100 - k1) - x * (100 - k2) == x * (k2 - k1);
    }
    TruncDivMonotone(x * (100 - k2), x * (100 - k1), 100);
  }

  /** The default 0.5% selection (`k == 50`) sets a floor of half the amount. */
  lemma HalfPercentFloorsAtHalf(x: nat)
    ensures SlippageMin(x, 50) == x / 2
  {
    assert x * (100 - 50) == x * 50;
    assert (x * 50) / 100 == x / 2;
  }

  /** The 1.0% selection (`k == 100`) sets no floor at all. */
  lemma OnePercentFloorsAtZero(x: nat)
    ensures SlippageMin(x, 100) == 0
  {
  }

  /** The 2.0% selection (`k == 200`) yields a negative minimum, which no
      `uint256` parameter can carry. */
  lemma TwoPercentFloorIsNegative(x: nat)
    ensures SlippageMin(x, 200) == -(x as int)
  {
    assert x * (100 - 200) == -(x * 100);
    assert (x * 100) / 100 == x;
  }

  /** The minimum the slippage selection evidently intends: the amount less
      `k` hundredths of a percent, `parsed.mul(10000 - k).div(10000)`. */
  function IntendedSlippageMin(x: nat, k: int): (m: int)
    ensures 0 <= k <= 10000 ==> 0 <= m <= x && m * 10000 <= x * (10000 - k) < m * 10000 + 10000
    ensures k == 0 ==> m == x
  {
    var a := x * (10000 - k);
    if 0 <= k <= 10000 then
      assert a <= x * 10000;
      TruncDivMonotone(a, x * 10000, 10000);
      TruncDivExact(x, 10000);
      TruncDiv(a, 10000)
    else
      TruncDiv(a, 10000)
  }

  /** Every option of the slippage selector (0.1%, 0.5%, 1.0% and 2.0%, so
      `k` at most 200) keeps the intended minimum non-negative and above 98%
      of the amount, up to one unit of rounding. */
  lemma SelectorKeepsNinetyEightPercent(x: nat, k: int)
    requires 0 <= k <= 200
    ensures 0 <= IntendedSlippageMin(x, k) <= x
    ensures x * 98 < IntendedSlippageMin(x, k) * 100 + 100
  {
    var m := IntendedSlippageMin(x, k);
    assert x * (10000 - k) >= x * 9800 by {
      assert x * (10000 - k) - x * 9800 == x * (200 - k);
    }
    assert x * 9800 < m * 10000 + 10000;
  }

  /** The two units disagree on every positive amount: at the 2.0% option
      the minimum as written is negative where the intended one keeps 98%. */
  lemma SlippageUnitsMismatch(x: nat)
    requires x > 0
    ensures SlippageMin(x, 200) < 0 <= IntendedSlippageMin(x, 200)
  {
    TwoPercentFloorIsNegative(x);
    SelectorKeepsNinetyEightPercent(x, 200);
  }

  /** `currentAllowance.lt(parsedAmount)`: an approval is sent only when the
      current allowance does not already cover the amount. */
  predicate NeedsApproval(allowance: nat, required: nat) {
    allowance < required
  }

  /** The pool's coins, in `tokenIndexMap` order. */
  const POOL_SYMBOLS: seq<string> := ["USDC.ARB", "USDC.SOL", "USDC.BASE", "USDC.AVAX"]

  /** `tokenIndexMap[symbol]`; `None` is `undefined`. */
  function PoolIndex(symbol: string): (r: Option<nat>)
    ensures r.Some? ==> r.value < |POOL_SYMBOLS| && POOL_SYMBOLS[r.value] == symbol
    ensures r.None? <==> symbol !in POOL_SYMBOLS
  {
    if symbol == "USDC.ARB" then Some(0)
    else if symbol == "USDC.SOL" then Some(1)
    else if symbol == "USDC.BASE" then Some(2)
    else if symbol == "USDC.AVAX" then Some(3)
    else None
  }

  /** The `add_liquidity` amounts vector: one slot per pool coin, zero
      everywhere except the amount at the source coin's slot. */
  function AmountsVector(index: Option<nat>, parsed: nat): (v: seq<nat>)
    ensures |v| == |POOL_SYMBOLS|
    ensures forall i :: 0 <= i < |v| && index != Some(i) ==> v[i] == 0
    ensures index.Some? && index.value < |v| ==> v[index.value] == parsed
  {
    seq(4, i => if index == Some(i) then parsed else 0)
  }

  /** `amounts = [0, 0, 0, 0]; amounts[tokenIndex] = parsedAmount`. With an
      `undefined` index the assignment creates a non-index property, which
      the ABI encoder ignores, so the vector stays all zeros. */
  method BuildAmounts(index: Option<nat>, parsed: nat) returns (amounts: array<nat>)
    requires index.Some? ==> index.value < 4
    ensures amounts[..] == AmountsVector(index, parsed)
  {
    amounts := new nat[4](_ => 0);
    if index.Some? {
      amounts[index.value] := parsed;
    }
  }
}
