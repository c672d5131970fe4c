/** Quote metrics and the cost model of the two venues. */
module Costs {
  import opened Models

  /** An absent price is 0.0. */
  datatype Quote = Quote(bid: real, ask: real)

  datatype SpreadMetrics = SpreadMetrics(mid: real, spreadBps: real, liquidity: real)

  datatype FeeSchedule = FeeSchedule(
    makerFee: real,
    takerFee: real,
    entryLiquidity: string,
    commissionPerContract: real,
    contractsPerSpread: int,
    expectedSlippageBps: real)

  function SpreadBps(q: Quote): real
    requires q.bid > 0.0 && q.ask > 0.0
  {
    (q.ask - q.bid) / ((q.bid + q.ask) / 2.0) * 10000.0
  }

  function Clamp(x: real): (r: real)
    ensures 0.0 <= r <= 1.0
  {
    Max(0.0, Min(1.0, x))
  }

  /** quote_spread_liquidity: the metrics of a two-sided quote, or the given fallbacks. */
  function QuoteSpreadLiquidity(q: Quote, fallbackMid: real, invalidSpreadBps: real,
                                invalidLiquidity: real): SpreadMetrics {
    if q.bid > 0.0 && q.ask > 0.0 then
      SpreadMetrics((q.bid + q.ask) / 2.0, SpreadBps(q), Clamp(1.0 - SpreadBps(q) / 100.0))
    else
      SpreadMetrics(fallbackMid, invalidSpreadBps, invalidLiquidity)
  }

  /** The metrics of an option leg: a quote without two positive prices is worthless. */
  function LegMetrics(q: Quote): (m: SpreadMetrics)
    ensures 0.0 <= m.liquidity <= 1.0
  {
    QuoteSpreadLiquidity(q, 0.0, 100.0, 0.0)
  }

  /** Value of the call spread at expiry. */
  function Intrinsic(underlying: real, low: real, high: real): (v: real)
    ensures low <= high ==> 0.0 <= v <= high - low
  {
    Max(0.0, underlying - low) - Max(0.0, underlying - high)
  }

  /* ---- Interactive Brokers ---- */

  function IbCommissionUsd(fees: FeeSchedule): real {
    fees.commissionPerContract * fees.contractsPerSpread as real
  }

  function IbCommissionBps(notionalUsd: real, fees: FeeSchedule): real {
    if notionalUsd <= 0.0 then 0.0 else IbCommissionUsd(fees) / notionalUsd * 10000.0
  }

  function IbEdge(underlying: real, low: real, high: real, debit: real, lowBps: real, highBps: real,
                  fees: FeeSchedule, multiplier: real): real
  {
    if debit <= 0.0 || underlying <= 0.0 then 0.0
    else
      (Intrinsic(underlying, low, high) - debit) / debit * 10000.0
      - (lowBps + highBps) / 2.0
      - fees.expectedSlippageBps
      - IbCommissionBps(debit * multiplier, fees)
  }

  /* ---- Deribit ---- */

  function DeribitCommissionBps(notional: real, fees: FeeSchedule): real {
    if notional <= 0.0 then 0.0
    else (if fees.entryLiquidity == "taker" then fees.takerFee else fees.makerFee) * 10000.0
  }

  function DeribitEdge(underlying: real, low: real, high: real, debit: real, lowBps: real, highBps: real,
                       fees: FeeSchedule): real
  {
    if debit <= 0.0 || underlying <= 0.0 then 0.0
    else
      (Intrinsic(underlying, low, high) / underlying - debit) / debit * 10000.0
      - (lowBps + highBps) / 2.0
      - fees.expectedSlippageBps
      - DeribitCommissionBps(debit, fees)
  }

  /* ---- Tightening the quotes ---- */

  /** q' lies inside q, and both are positive and uncrossed. */
  predicate Narrower(q: Quote, q': Quote) {
    0.0 < q.bid <= q'.bid <= q'.ask <= q.ask
  }

  lemma SignOfFactor(a: real, k: real)
    requires k > 0.0
    ensures a * k >= 0.0 ==> a >= 0.0
    ensures a * k > 0.0 ==> a > 0.0
  {
  }

  lemma CrossMultiply(p: real, q: real, r: real, s: real)
    requires q > 0.0 && s > 0.0
    ensures q * s > 0.0 && (r / s - p / q) * (q * s) == r * q - p * s
  {
    var x, y := p / q, r / s;
    assert p == x * q && r == y * s;
    assert (y - x) * (q * s) == (y * s) * q - (x * q) * s;
  }

  lemma QuotientOrder(p: real, q: real, r: real, s: real)
    requires q > 0.0 && s > 0.0
    ensures p * s <= r * q ==> p / q <= r / s
    ensures p * s < r * q ==> p / q < r / s
  {
    CrossMultiply(p, q, r, s);
    SignOfFactor(r / s - p / q, q * s);
  }

  /** Narrowing a quote never widens its relative spread and never lowers its liquidity. */
  lemma NarrowingHelpsLeg(q: Quote, q': Quote)
    requires Narrower(q, q')
    ensures 0.0 <= LegMetrics(q').spreadBps <= LegMetrics(q).spreadBps
    ensures LegMetrics(q').liquidity >= LegMetrics(q).liquidity
  {
    var d, m, d', m' := q.ask - q.bid, (q.bid + q.ask) / 2.0, q'.ask - q'.bid, (q'.bid + q'.ask) / 2.0;
    assert q'.ask * q.bid <= q.ask * q'.bid by {
      assert q'.ask * q.bid <= q.ask * q.bid <= q.ask * q'.bid;
    }
    assert d * m' - d' * m == q.ask * q'.bid - q'.ask * q.bid;
    QuotientOrder(d', m', d, m);
    QuotientOrder(0.0, m', d', m');
  }

  /** value / debit does not fall when the debit falls, as long as the value is not negative. */
  lemma ReturnOnSmallerDebit(value: real, debit: real, debit': real)
    requires 0.0 < debit' <= debit && value >= 0.0
    ensures (value - debit') / debit' >= (value - debit) / debit
  {
    assert value * debit' <= value * debit;
    assert (value - debit) * debit' <= (value - debit') * debit;
    QuotientOrder(value - debit, debit, value - debit', debit');
  }

  /** On Deribit a smaller debit with tighter legs never lowers the edge. */
  lemma DeribitEdgeMonotone(u: real, low: real, high: real, debit: real, debit': real,
                            l: real, h: real, l': real, h': real, fees: FeeSchedule)
    requires low <= high && 0.0 < debit' <= debit && l' <= l && h' <= h
    ensures DeribitEdge(u, low, high, debit', l', h', fees) >= DeribitEdge(u, low, high, debit, l, h, fees)
  {
    if u > 0.0 {
      QuotientOrder(0.0, u, Intrinsic(u, low, high), u);
      ReturnOnSmallerDebit(Intrinsic(u, low, high) / u, debit, debit');
    }
  }

  /** The commission per unit of the spread; none is charged on a non-positive notional. */
  function CommissionPerUnit(fees: FeeSchedule, multiplier: real): real {
    if multiplier <= 0.0 then 0.0 else IbCommissionUsd(fees) / multiplier
  }

  /** The return of holding `value` for `debit`, in bps. */
  function ReturnBps(value: real, debit: real): real
    requires debit > 0.0
  {
    (value - debit) / debit * 10000.0
  }

  lemma CommissionShare(debit: real, fees: FeeSchedule, mult: real)
    requires debit > 0.0
    ensures IbCommissionBps(debit * mult, fees) == CommissionPerUnit(fees, mult) / debit * 10000.0
  {
    var c, k := IbCommissionUsd(fees), CommissionPerUnit(fees, mult);
    if mult > 0.0 {
      assert debit * mult > 0.0;
      assert c == k * mult;
      assert c * debit == k * (debit * mult);
      QuotientOrder(c, debit * mult, k, debit);
      QuotientOrder(k, debit, c, debit * mult);
    } else {
      assert debit * mult <= 0.0;
    }
  }

  lemma SplitReturn(v: real, k: real, debit: real)
    requires debit > 0.0
    ensures ReturnBps(v - k, debit) == ReturnBps(v, debit) - k / debit * 10000.0
  {
    assert (v - k - debit) / debit == (v - debit) / debit - k / debit;
  }

  /** The IB edge written as the return of the intrinsic value less commission. */
  lemma IbEdgeAsReturn(u: real, low: real, high: real, debit: real, l: real, h: real, fees: FeeSchedule, mult: real)
    requires debit > 0.0 && u > 0.0
    ensures IbEdge(u, low, high, debit, l, h, fees, mult) ==
            ReturnBps(Intrinsic(u, low, high) - CommissionPerUnit(fees, mult), debit)
            - (l + h) / 2.0 - fees.expectedSlippageBps
  {
    hide Intrinsic, CommissionPerUnit, IbCommissionBps;
    CommissionShare(debit, fees, mult);
    SplitReturn(Intrinsic(u, low, high), CommissionPerUnit(fees, mult), debit);
  }

  /** The return rises as the debit falls exactly when the value is not negative. */
  lemma ReturnMonotoneIff(value: real, debit: real, debit': real)
    requires 0.0 < debit' < debit
    ensures ReturnBps(value, debit') >= ReturnBps(value, debit) <==> value >= 0.0
  {
    if value >= 0.0 {
      ReturnOnSmallerDebit(value, debit, debit');
    } else {
      assert value * debit' > value * debit;
      assert (value - debit') * debit < (value - debit) * debit';
      QuotientOrder(value - debit', debit', value - debit, debit);
    }
  }

  /**
   * On IB, at fixed leg spreads, a smaller debit keeps or raises the edge exactly when the
   * intrinsic value covers the commission.
   */
  lemma IbEdgeMonotoneIff(u: real, low: real, high: real, debit: real, debit': real, l: real, h: real,
                          fees: FeeSchedule, mult: real)
    requires u > 0.0 && 0.0 < debit' < debit
    ensures IbEdge(u, low, high, debit', l, h, fees, mult) >= IbEdge(u, low, high, debit, l, h, fees, mult)
            <==> Intrinsic(u, low, high) >= CommissionPerUnit(fees, mult)
  {
    hide IbEdge, ReturnBps, Intrinsic, CommissionPerUnit;
    IbEdgeAsReturn(u, low, high, debit, l, h, fees, mult);
    IbEdgeAsReturn(u, low, high, debit', l, h, fees, mult);
    ReturnMonotoneIff(Intrinsic(u, low, high) - CommissionPerUnit(fees, mult), debit, debit');
  }

  /** An edge above -10000 bps before slippage forces the value to cover the commission. */
  lemma AcceptedEdgeCoversCommission(u: real, low: real, high: real, debit: real, l: real, h: real,
                                     fees: FeeSchedule, mult: real)
    requires debit > 0.0 && u > 0.0 && l >= 0.0 && h >= 0.0
    requires IbEdge(u, low, high, debit, l, h, fees, mult) + fees.expectedSlippageBps >= -10000.0
    ensures Intrinsic(u, low, high) >= CommissionPerUnit(fees, mult)
  {
    hide IbEdge, Intrinsic, CommissionPerUnit, ReturnBps;
    IbEdgeAsReturn(u, low, high, debit, l, h, fees, mult);
    LossBelowMinusOne(Intrinsic(u, low, high) - CommissionPerUnit(fees, mult), debit);
  }

  lemma LossBelowMinusOne(value: real, debit: real)
    requires debit > 0.0
    ensures value < 0.0 ==> ReturnBps(value, debit) < -10000.0
  {
    assert -debit / debit == -1.0;
    assert (value - debit) * debit < -debit * debit || value >= 0.0;
    QuotientOrder(value - debit, debit, -debit, debit);
  }

  /** On IB an acceptable edge is not lowered by a smaller debit and tighter legs. */
  lemma IbEdgeMonotoneWhenAccepted(u: real, low: real, high: real, debit: real, debit': real,
                                   l: real, h: real, l': real, h': real, fees: FeeSchedule, mult: real)
    requires 0.0 < debit' <= debit && 0.0 <= l' <= l && 0.0 <= h' <= h
    requires IbEdge(u, low, high, debit, l, h, fees, mult) + fees.expectedSlippageBps >= -10000.0
    ensures IbEdge(u, low, high, debit', l', h', fees, mult) >= IbEdge(u, low, high, debit, l, h, fees, mult)
  {
    hide ReturnBps, Intrinsic, CommissionPerUnit;
    if u > 0.0 {
      AcceptedEdgeCoversCommission(u, low, high, debit, l, h, fees, mult);
      IbEdgeAsReturn(u, low, high, debit, l, h, fees, mult);
      IbEdgeAsReturn(u, low, high, debit', l', h', fees, mult);
      if debit' < debit {
        ReturnMonotoneIff(Intrinsic(u, low, high) - CommissionPerUnit(fees, mult), debit, debit');
      }
    }
  }

  /* ---- What the numbers are ---- */

  /** A two-sided quote: mid in the middle, spread in bps of the mid, and 100 bps of spread cost all liquidity. */
  lemma TwoSidedMetrics(q: Quote)
    requires q.bid > 0.0 && q.ask > 0.0
    ensures var m := LegMetrics(q);
            && m.mid - q.bid == q.ask - m.mid
            && m.spreadBps * m.mid == (q.ask - q.bid) * 10000.0
            && (m.spreadBps <= 0.0 <==> q.ask <= q.bid)
            && (m.spreadBps <= 0.0 ==> m.liquidity == 1.0)
            && (0.0 <= m.spreadBps <= 100.0 ==> m.liquidity * 100.0 == 100.0 - m.spreadBps)
            && (m.spreadBps >= 100.0 ==> m.liquidity == 0.0)
  {
    var mid, wide := (q.bid + q.ask) / 2.0, q.ask - q.bid;
    var x := wide / mid;
    assert x * mid == wide;
    assert SpreadBps(q) == x * 10000.0;
    if x > 0.0 {
      assert x * mid > 0.0;
    } else {
      assert x * mid <= 0.0;
    }
  }

  /** Without two positive prices a leg counts as 100 bps wide and worthless. */
  lemma OneSidedMetrics(q: Quote)
    requires q.bid <= 0.0 || q.ask <= 0.0
    ensures LegMetrics(q) == SpreadMetrics(0.0, 100.0, 0.0)
  {
  }

  /** v is what the call spread pays at expiry: nothing up to the low strike, its width from the high one on. */
  predicate Pays(v: real, u: real, low: real, high: real) {
    && (u <= low ==> v == 0.0)
    && (low <= u <= high ==> v == u - low)
    && (u >= high ==> v == high - low)
  }

  lemma IntrinsicPays(u: real, low: real, high: real)
    requires low <= high
    ensures Pays(Intrinsic(u, low, high), u, low, high)
  {
  }

  lemma ReturnScaled(v: real, debit: real)
    requires debit > 0.0
    ensures (v - debit) / debit * 10000.0 * debit == (v - debit) * 10000.0
  {
  }

  lemma ShareScaled(c: real, debit: real, mult: real)
    requires debit > 0.0 && mult > 0.0
    ensures debit * mult > 0.0 && c / (debit * mult) * 10000.0 * debit * mult == c * 10000.0
  {
    var n := debit * mult;
    assert c / n * n == c;
    assert c / n * 10000.0 * debit * mult == c / n * n * 10000.0;
  }

  /**
   * The books of an IB spread over its notional: what it pays, less the debit, half the leg spreads,
   * slippage and the commission of all its contracts, is its edge.
   */
  lemma IbEdgeBooks(u: real, low: real, high: real, debit: real, l: real, h: real, fees: FeeSchedule, mult: real,
                    v: real)
    requires debit > 0.0 && u > 0.0 && low <= high && Pays(v, u, low, high)
    ensures mult > 0.0 ==>
              (IbEdge(u, low, high, debit, l, h, fees, mult) + (l + h) / 2.0 + fees.expectedSlippageBps)
              * debit * mult ==
              (v - debit) * 10000.0 * mult - fees.commissionPerContract * fees.contractsPerSpread as real * 10000.0
    ensures mult <= 0.0 ==>
              (IbEdge(u, low, high, debit, l, h, fees, mult) + (l + h) / 2.0 + fees.expectedSlippageBps) * debit ==
              (v - debit) * 10000.0
  {
    IntrinsicPays(u, low, high);
    ReturnScaled(v, debit);
    var r, c := (v - debit) / debit * 10000.0, IbCommissionUsd(fees);
    if mult > 0.0 {
      ShareScaled(c, debit, mult);
      var k := c / (debit * mult) * 10000.0;
      assert IbEdge(u, low, high, debit, l, h, fees, mult) + (l + h) / 2.0 + fees.expectedSlippageBps == r - k;
      assert (r - k) * debit * mult == r * debit * mult - k * debit * mult;
    } else {
      assert debit * mult <= 0.0;
    }
  }

  /** The same on Deribit, where the debit is paid in the underlying and the fee is a rate of it. */
  lemma DeribitEdgeBooks(u: real, low: real, high: real, debit: real, l: real, h: real, fees: FeeSchedule, v: real,
                         rate: real)
    requires debit > 0.0 && u > 0.0 && low <= high && Pays(v, u, low, high)
    requires rate == if fees.entryLiquidity == "taker" then fees.takerFee else fees.makerFee
    ensures (DeribitEdge(u, low, high, debit, l, h, fees) + (l + h) / 2.0 + fees.expectedSlippageBps + rate * 10000.0)
            * debit * u == (v - debit * u) * 10000.0
  {
    IntrinsicPays(u, low, high);
    var x := v / u;
    assert x * u == v;
    ReturnScaled(x, debit);
    var r := (x - debit) / debit * 10000.0;
    assert DeribitEdge(u, low, high, debit, l, h, fees) ==
           r - (l + h) / 2.0 - fees.expectedSlippageBps - rate * 10000.0;
    assert r * debit == (x - debit) * 10000.0;
    assert r * debit * u == (x - debit) * 10000.0 * u;
    assert (x - debit) * 10000.0 * u == (x * u - debit * u) * 10000.0;
  }

  /** A spread that costs nothing, or whose underlying has no price, has no edge. */
  lemma NoPriceNoEdge(u: real, low: real, high: real, debit: real, l: real, h: real, fees: FeeSchedule, mult: real)
    requires debit <= 0.0 || u <= 0.0
    ensures IbEdge(u, low, high, debit, l, h, fees, mult) == 0.0 == DeribitEdge(u, low, high, debit, l, h, fees)
  {
  }
}
