/** Choice of a call vertical spread from an option chain, for both venues. */
module Structures {
  import opened Models
  import opened Costs

  /** What the chain slice knows about the call at one strike. */
  datatype Call = Call(quote: Option<Quote>, underlyingPrice: real, instrumentId: Option<string>)

  /** `calls` is keyed by the strike rounded to cents; an absent underlying price is 0.0. */
  datatype Chain = Chain(
    ts: int,
    seriesId: string,
    isEmpty: bool,
    atm: real,
    strikes: seq<real>,
    calls: map<int, Call>)

  /** The price a strike is looked up by, in cents. */
  function Cents(strike: real): int {
    RoundHalfEven(strike * 100.0)
  }

  function CallQuote(chain: Chain, strike: real): Option<Quote> {
    if Cents(strike) in chain.calls then chain.calls[Cents(strike)].quote else None
  }

  /** The underlying price attached to the call's greeks, or the strike itself. */
  function UnderlyingPrice(chain: Chain, strike: real): real {
    if Cents(strike) in chain.calls && chain.calls[Cents(strike)].underlyingPrice != 0.0
    then chain.calls[Cents(strike)].underlyingPrice else strike
  }

  function LegId(chain: Chain, strike: real): seq<string> {
    if Cents(strike) in chain.calls && chain.calls[Cents(strike)].instrumentId.Some?
    then [chain.calls[Cents(strike)].instrumentId.value] else []
  }

  datatype Venue =
    | Ib(venue: string, multiplier: real)
    | Deribit

  datatype Selector = Selector(venue: Venue, underlyingSymbol: string, expiryLabel: string, fees: FeeSchedule)

  datatype Spread = Spread(
    instrumentId: string,
    low: real,
    high: real,
    edge: real,
    liquidity: real,
    debit: real,
    legIds: seq<string>)

  /* ---- Nearest strike ---------------------------------------------------------------- */

  function InsertStrike(xs: seq<real>, x: real): seq<real> {
    if |xs| == 0 then [x]
    else if x < xs[|xs| - 1] then InsertStrike(xs[..|xs| - 1], x) + [xs[|xs| - 1]]
    else xs + [x]
  }

  /** sorted(strikes). */
  function Sorted(xs: seq<real>): seq<real> {
    if |xs| == 0 then [] else InsertStrike(Sorted(xs[..|xs| - 1]), xs[|xs| - 1])
  }

  /** min(xs, key=|x - target|): the first of the nearest. */
  function Nearest(xs: seq<real>, target: real): real
    requires |xs| > 0
  {
    if |xs| == 1 then xs[0]
    else
      var best := Nearest(xs[..|xs| - 1], target);
      if Abs(xs[|xs| - 1] - target) < Abs(best - target) then xs[|xs| - 1] else best
  }

  ghost predicate Ascending(xs: seq<real>) {
    forall i, j :: 0 <= i < j < |xs| ==> xs[i] <= xs[j]
  }

  lemma {:induction false} InsertMembers(xs: seq<real>, x: real)
    ensures |InsertStrike(xs, x)| == |xs| + 1
    ensures forall y :: y in InsertStrike(xs, x) <==> y == x || y in xs
  {
    if |xs| > 0 {
      InsertMembers(xs[..|xs| - 1], x);
      assert xs == xs[..|xs| - 1] + [xs[|xs| - 1]];
    }
  }

  lemma {:induction false} InsertAscending(xs: seq<real>, x: real)
    requires Ascending(xs)
    ensures Ascending(InsertStrike(xs, x))
  {
    if |xs| > 0 {
      var last, init := xs[|xs| - 1], xs[..|xs| - 1];
      if x < last {
        InsertAscending(init, x);
        InsertMembers(init, x);
        var r := InsertStrike(init, x);
        forall i | 0 <= i < |r| ensures r[i] <= last {
          assert r[i] in r;
        }
      }
    }
  }

  lemma {:induction false} SortedStrikes(xs: seq<real>)
    ensures |Sorted(xs)| == |xs| && Ascending(Sorted(xs))
    ensures forall y :: y in Sorted(xs) <==> y in xs
  {
    if |xs| > 0 {
      var init := xs[..|xs| - 1];
      SortedStrikes(init);
      InsertMembers(Sorted(init), xs[|xs| - 1]);
      InsertAscending(Sorted(init), xs[|xs| - 1]);
      assert xs == init + [xs[|xs| - 1]];
    }
  }

  /** s is at least as good a choice as t: nearer, or as near and not above it. */
  predicate Preferred(s: real, t: real, target: real) {
    Abs(s - target) < Abs(t - target) || (Abs(s - target) == Abs(t - target) && s <= t)
  }

  /** s is the strike of xs preferred to every strike of xs. */
  ghost predicate IsNearest(xs: seq<real>, s: real, target: real) {
    s in xs && forall t :: t in xs ==> Preferred(s, t, target)
  }

  /** On ascending strikes the first nearest is the preferred one. */
  lemma {:induction false} NearestOfAscending(xs: seq<real>, target: real)
    requires |xs| > 0 && Ascending(xs)
    ensures IsNearest(xs, Nearest(xs, target), target)
  {
    if |xs| > 1 {
      var last, init := xs[|xs| - 1], xs[..|xs| - 1];
      NearestOfAscending(init, target);
      assert xs == init + [last];
      forall t | t in xs ensures Preferred(Nearest(xs, target), t, target) {
        if t in init {
          var i :| 0 <= i < |init| && init[i] == t;
          assert t == xs[i] <= last;
        }
      }
    }
  }

  /** The chosen strike is described by the set of listed strikes alone. */
  lemma NearestStrike(strikes: seq<real>, target: real)
    requires |strikes| > 0
    ensures var s := Nearest(Sorted(strikes), target);
            forall x :: IsNearest(strikes, x, target) <==> x == s
  {
    SortedStrikes(strikes);
    NearestOfAscending(Sorted(strikes), target);
    var s := Nearest(Sorted(strikes), target);
    assert IsNearest(strikes, s, target);
    forall x | IsNearest(strikes, x, target) ensures x == s {
      assert Preferred(x, s, target) && Preferred(s, x, target);
    }
  }

  /* ---- Selection --------------------------------------------------------------------- */

  function LowStrike(chain: Chain): real
    requires |chain.strikes| > 0
  {
    SortedStrikes(chain.strikes);
    Nearest(Sorted(chain.strikes), chain.atm)
  }

  function HighStrike(chain: Chain, strikeWidth: int): real
    requires |chain.strikes| > 0
  {
    SortedStrikes(chain.strikes);
    Nearest(Sorted(chain.strikes), LowStrike(chain) + strikeWidth as real)
  }

  /** What is paid for the pair of legs; 0.0 when either price is missing. */
  function NetDebit(low: Quote, high: Quote): real {
    if low.ask != 0.0 && high.bid != 0.0 then low.ask - high.bid else 0.0
  }

  function LegLiquidity(low: Quote, high: Quote): (r: real)
    ensures 0.0 <= r <= 1.0
  {
    Min(LegMetrics(low).liquidity, LegMetrics(high).liquidity)
  }

  function EdgeOf(sel: Selector, underlying: real, low: real, high: real, lowQuote: Quote, highQuote: Quote): real {
    var debit, l, h := NetDebit(lowQuote, highQuote), LegMetrics(lowQuote).spreadBps, LegMetrics(highQuote).spreadBps;
    match sel.venue
    case Ib(_, multiplier) => IbEdge(underlying, low, high, debit, l, h, sel.fees, multiplier)
    case Deribit => DeribitEdge(underlying, low, high, debit, l, h, sel.fees)
  }

  /** int(strike) as text. */
  function StrikeText(strike: real): string {
    Decimal(Truncate(strike))
  }

  function SpreadId(sel: Selector, low: real, high: real): string {
    sel.underlyingSymbol + "-CS-" + sel.expiryLabel + "-" + StrikeText(low) + "_" + StrikeText(high) +
    match sel.venue
    case Ib(venue, _) => "." + venue
    case Deribit => ".DERIBIT"
  }

  /** select_from_chain. Only the IB selector compares the edge with its minimum. */
  function SelectFromChain(sel: Selector, chain: Chain, strikeWidth: int, minEdge: real,
                           minLiquidity: real): Option<Spread> {
    if chain.isEmpty || |chain.strikes| == 0 then None
    else
      var low, high := LowStrike(chain), HighStrike(chain, strikeWidth);
      if high <= low || CallQuote(chain, low).None? || CallQuote(chain, high).None? then None
      else
        var lowQuote, highQuote := CallQuote(chain, low).value, CallQuote(chain, high).value;
        var liquidity := LegLiquidity(lowQuote, highQuote);
        if liquidity < minLiquidity || NetDebit(lowQuote, highQuote) <= 0.0 then None
        else
          var edge := EdgeOf(sel, UnderlyingPrice(chain, low), low, high, lowQuote, highQuote);
          if sel.venue.Ib? && edge < minEdge then None
          else
            Some(Spread(SpreadId(sel, low, high), low, high, edge, liquidity, NetDebit(lowQuote, highQuote),
                        LegId(chain, low) + LegId(chain, high)))
  }

  /** A strike is looked up at the nearest cent, an even one if two are as near. */
  lemma CentsIsNearest(strike: real)
    ensures -0.5 <= strike * 100.0 - Cents(strike) as real <= 0.5
    ensures strike * 100.0 - Cents(strike) as real in {-0.5, 0.5} ==> Cents(strike) % 2 == 0
  {
  }

  /** Any strike nearer to k cents than half a cent finds the call listed there. */
  lemma CallIsFound(chain: Chain, strike: real, k: int)
    requires -0.5 < strike * 100.0 - k as real < 0.5
    ensures k !in chain.calls ==>
              CallQuote(chain, strike).None? && LegId(chain, strike) == [] && UnderlyingPrice(chain, strike) == strike
    ensures k in chain.calls ==>
              var call := chain.calls[k];
              && CallQuote(chain, strike) == call.quote
              && LegId(chain, strike) == (if call.instrumentId.Some? then [call.instrumentId.value] else [])
              && UnderlyingPrice(chain, strike) == if call.underlyingPrice == 0.0 then strike else call.underlyingPrice
  {
    CentsIsNearest(strike);
    assert Cents(strike) == k;
  }

  lemma SomeStrikes()
    ensures StrikeText(100.0) == "100" && StrikeText(105.9) == "105" && StrikeText(7.0) == "7"
  {
    assert Truncate(100.0) == 100 && Truncate(105.9) == 105 && Truncate(7.0) == 7;
    hide Truncate;
    assert Decimal(1) == "1" && Decimal(7) == "7";
    DecimalOneMore(10);
    DecimalOneMore(100);
    DecimalOneMore(105);
  }

  /** The head, the mark and the tail of a spread's name. */
  function NameParts(sel: Selector): (string, string) {
    (sel.underlyingSymbol + "-CS-" + sel.expiryLabel + "-", if sel.venue.Ib? then "." + sel.venue.venue else ".DERIBIT")
  }

  lemma NameIs(sel: Selector, low: real, high: real)
    ensures SpreadId(sel, low, high) ==
            NameParts(sel).0 + (StrikeText(low) + ("_" + (StrikeText(high) + NameParts(sel).1)))
  {
    hide StrikeText;
  }

  /** The names of a spread on the two venues: a strike is named by its whole units. */
  lemma SpreadNames(fees: FeeSchedule)
    ensures SpreadId(Selector(Ib("NYSE", 100.0), "SPY", "20240102", fees), 100.0, 105.9) ==
            "SPY-CS-20240102-100_105.NYSE"
    ensures SpreadId(Selector(Deribit, "BTC", "2JAN24", fees), 7.0, 105.9) == "BTC-CS-2JAN24-7_105.DERIBIT"
  {
    hide StrikeText, SpreadId;
    SomeStrikes();
    NameIs(Selector(Ib("NYSE", 100.0), "SPY", "20240102", fees), 100.0, 105.9);
    NameIs(Selector(Deribit, "BTC", "2JAN24", fees), 7.0, 105.9);
  }

  lemma StrikeSpells(strike: real)
    requires strike >= 0.0
    ensures Spelled(StrikeText(strike)) == Truncate(strike) && '_' !in StrikeText(strike)
  {
    hide Truncate, Decimal, Spelled;
    DecimalSpells(Truncate(strike));
  }

  /** The name of a spread tells its strikes, in whole units. */
  lemma NameTellsStrikes(sel: Selector, a: real, b: real, c: real, d: real)
    requires a >= 0.0 && b >= 0.0 && c >= 0.0 && d >= 0.0
    ensures SpreadId(sel, a, b) == SpreadId(sel, c, d) <==> Truncate(a) == Truncate(c) && Truncate(b) == Truncate(d)
  {
    if SpreadId(sel, a, b) == SpreadId(sel, c, d) {
      SameName(sel, a, b, c, d);
    }
  }

  lemma SameName(sel: Selector, a: real, b: real, c: real, d: real)
    requires a >= 0.0 && b >= 0.0 && c >= 0.0 && d >= 0.0 && SpreadId(sel, a, b) == SpreadId(sel, c, d)
    ensures Truncate(a) == Truncate(c) && Truncate(b) == Truncate(d)
  {
    hide Truncate, StrikeText, SpreadId, NameParts, Spelled;
    NameIs(sel, a, b);
    NameIs(sel, c, d);
    StrikeSpells(a);
    StrikeSpells(b);
    StrikeSpells(c);
    StrikeSpells(d);
    var tail := NameParts(sel).1;
    SamePrefix(NameParts(sel).0, StrikeText(a) + ("_" + (StrikeText(b) + tail)),
               StrikeText(c) + ("_" + (StrikeText(d) + tail)));
    SplitAtMark(StrikeText(a), StrikeText(b) + tail, StrikeText(c), StrikeText(d) + tail);
    SameSuffix(StrikeText(b), StrikeText(d), tail);
  }

  lemma SamePrefix(p: string, s: string, t: string)
    requires p + s == p + t
    ensures s == t
  {
    assert (p + s)[|p|..] == s && (p + t)[|p|..] == t;
  }

  lemma SameSuffix(s: string, t: string, q: string)
    requires s + q == t + q
    ensures s == t
  {
    assert |s + q| == |s| + |q| && |t + q| == |t| + |q|;
    assert (s + q)[..|s|] == s && (t + q)[..|t|] == t;
  }

  /** The first mark stands behind the digits. */
  lemma FirstMark(s: string, more: string)
    requires '_' !in s
    ensures var x := s + ("_" + more);
            x[|s|] == '_' && x[..|s|] == s && forall k :: 0 <= k < |s| ==> x[k] != '_'
  {
    assert forall k :: 0 <= k < |s| ==> s[k] in s;
  }

  lemma SplitAtMark(s: string, more: string, t: string, rest: string)
    requires s + ("_" + more) == t + ("_" + rest) && '_' !in s && '_' !in t
    ensures s == t && more == rest
  {
    FirstMark(s, more);
    FirstMark(t, rest);
    assert |s| == |t|;
    SamePrefix(s, "_" + more, "_" + rest);
    SamePrefix("_", more, rest);
  }

  /**
   * Defined risk: both strikes are listed, the width is positive and less than twice the requested one,
   * the position costs what the low leg asks less what the high leg bids, and that is something; its
   * liquidity is that of the worse leg and meets the minimum; its legs are the two calls, the low one first.
   */
  lemma DefinedRisk(sel: Selector, chain: Chain, width: int, minEdge: real, minLiquidity: real)
    requires SelectFromChain(sel, chain, width, minEdge, minLiquidity).Some?
    ensures var s := SelectFromChain(sel, chain, width, minEdge, minLiquidity).value;
            && s.low in chain.strikes && s.high in chain.strikes
            && 0.0 < s.high - s.low < 2.0 * width as real
            && CallQuote(chain, s.low).Some? && CallQuote(chain, s.high).Some?
            && s.debit == CallQuote(chain, s.low).value.ask - CallQuote(chain, s.high).value.bid > 0.0
            && CallQuote(chain, s.low).value.ask != 0.0 && CallQuote(chain, s.high).value.bid != 0.0
            && minLiquidity <= s.liquidity <= 1.0 && 0.0 <= s.liquidity
            && s.liquidity <= LegMetrics(CallQuote(chain, s.low).value).liquidity
            && s.liquidity <= LegMetrics(CallQuote(chain, s.high).value).liquidity
            && (s.liquidity == LegMetrics(CallQuote(chain, s.low).value).liquidity ||
                s.liquidity == LegMetrics(CallQuote(chain, s.high).value).liquidity)
            && s.legIds == LegId(chain, s.low) + LegId(chain, s.high)
            && (sel.venue.Ib? ==> s.edge >= minEdge)
            && IsNearest(chain.strikes, s.low, chain.atm)
            && IsNearest(chain.strikes, s.high, s.low + width as real)
  {
    hide LegLiquidity, NetDebit, EdgeOf, SpreadId, Preferred, Nearest, Sorted, LegMetrics, CallQuote, LegId;
    NearestStrikes(chain, width);
    var s := SelectFromChain(sel, chain, width, minEdge, minLiquidity).value;
    WorseLeg(CallQuote(chain, s.low).value, CallQuote(chain, s.high).value);
    GapBelowTwice(LowStrike(chain), HighStrike(chain, width), width as real);
  }

  /**
   * With `low` the strike nearest to the money and `high` the one nearest to a width above it, a spread is
   * selected if and only if high is above low, both calls are quoted, each liquid enough, the low one costs
   * more than the high one brings, and on IB the edge meets its minimum.
   */
  lemma SelectedIff(sel: Selector, chain: Chain, width: int, minEdge: real, minLiquidity: real, low: real, high: real)
    requires IsNearest(chain.strikes, low, chain.atm) && IsNearest(chain.strikes, high, low + width as real)
    ensures var s := SelectFromChain(sel, chain, width, minEdge, minLiquidity);
            var a, b := CallQuote(chain, low), CallQuote(chain, high);
            && (s.Some? <==>
                  && !chain.isEmpty && low < high && a.Some? && b.Some?
                  && LegMetrics(a.value).liquidity >= minLiquidity && LegMetrics(b.value).liquidity >= minLiquidity
                  && a.value.ask != 0.0 && b.value.bid != 0.0 && a.value.ask > b.value.bid
                  && (sel.venue.Ib? ==>
                        EdgeOf(sel, UnderlyingPrice(chain, low), low, high, a.value, b.value) >= minEdge))
            && (s.Some? ==> s.value.low == low && s.value.high == high)
  {
    assert low in chain.strikes;
    NearestStrike(chain.strikes, chain.atm);
    NearestStrike(chain.strikes, low + width as real);
    hide EdgeOf, SpreadId, IsNearest, Nearest, Sorted, LegMetrics, CallQuote, LegId, UnderlyingPrice;
    assert LowStrike(chain) == low && HighStrike(chain, width) == high;
  }

  /** From a chain without strikes nothing is selected. */
  lemma NothingListed(sel: Selector, chain: Chain, width: int, minEdge: real, minLiquidity: real)
    requires chain.strikes == []
    ensures SelectFromChain(sel, chain, width, minEdge, minLiquidity).None?
  {
  }

  lemma WorseLeg(a: Quote, b: Quote)
    ensures LegLiquidity(a, b) <= LegMetrics(a).liquidity && LegLiquidity(a, b) <= LegMetrics(b).liquidity
    ensures LegLiquidity(a, b) in {LegMetrics(a).liquidity, LegMetrics(b).liquidity}
    ensures NetDebit(a, b) > 0.0 ==> a.ask != 0.0 && b.bid != 0.0 && NetDebit(a, b) == a.ask - b.bid
  {
    hide LegMetrics;
  }

  /** u is the underlying price the low call carries, or its strike where it carries none. */
  predicate PricedAt(chain: Chain, low: real, u: real) {
    if Cents(low) in chain.calls && chain.calls[Cents(low)].underlyingPrice != 0.0
    then u == chain.calls[Cents(low)].underlyingPrice else u == low
  }

  /**
   * The books of a spread that is bought for the debit and pays v at expiry: its edge is what is left
   * after half the leg spreads l and h, slippage and the fees of the venue.
   */
  predicate Balances(sel: Selector, edge: real, debit: real, l: real, h: real, u: real, v: real) {
    var fees := sel.fees;
    var gross := edge + (l + h) / 2.0 + fees.expectedSlippageBps;
    match sel.venue
    case Ib(_, mult) =>
      if mult > 0.0 then
        gross * debit * mult ==
        (v - debit) * 10000.0 * mult - fees.commissionPerContract * fees.contractsPerSpread as real * 10000.0
      else gross * debit == (v - debit) * 10000.0
    case Deribit =>
      var rate := if fees.entryLiquidity == "taker" then fees.takerFee else fees.makerFee;
      (gross + rate * 10000.0) * debit * u == (v - debit * u) * 10000.0
  }

  lemma EdgeBalances(sel: Selector, u: real, low: real, high: real, a: Quote, b: Quote, v: real)
    requires NetDebit(a, b) > 0.0 && u > 0.0 && low <= high && Pays(v, u, low, high)
    ensures Balances(sel, EdgeOf(sel, u, low, high, a, b), NetDebit(a, b), LegMetrics(a).spreadBps,
                     LegMetrics(b).spreadBps, u, v)
  {
    hide LegMetrics, NetDebit, IbEdge, DeribitEdge, Pays;
    var d, l, h := NetDebit(a, b), LegMetrics(a).spreadBps, LegMetrics(b).spreadBps;
    match sel.venue
    case Ib(_, mult) => IbEdgeBooks(u, low, high, d, l, h, sel.fees, mult, v);
    case Deribit =>
      var rate := if sel.fees.entryLiquidity == "taker" then sel.fees.takerFee else sel.fees.makerFee;
      DeribitEdgeBooks(u, low, high, d, l, h, sel.fees, v, rate);
  }

  /** The edge of what is selected is that of a spread with these legs, held to expiry. */
  lemma SelectedIsPriced(sel: Selector, chain: Chain, width: int, minEdge: real, minLiquidity: real, u: real, v: real)
    requires SelectFromChain(sel, chain, width, minEdge, minLiquidity).Some?
    requires var s := SelectFromChain(sel, chain, width, minEdge, minLiquidity).value;
             PricedAt(chain, s.low, u) && Pays(v, u, s.low, s.high) && u > 0.0
    ensures var s := SelectFromChain(sel, chain, width, minEdge, minLiquidity).value;
            && CallQuote(chain, s.low).Some? && CallQuote(chain, s.high).Some?
            && Balances(sel, s.edge, s.debit, LegMetrics(CallQuote(chain, s.low).value).spreadBps,
                        LegMetrics(CallQuote(chain, s.high).value).spreadBps, u, v)
  {
    hide LegLiquidity, NetDebit, SpreadId, Nearest, Sorted, LegMetrics, CallQuote, LegId, Cents, EdgeOf, Balances, Pays;
    var s := SelectFromChain(sel, chain, width, minEdge, minLiquidity).value;
    EdgeBalances(sel, u, s.low, s.high, CallQuote(chain, s.low).value, CallQuote(chain, s.high).value, v);
  }

  lemma NearestStrikes(chain: Chain, width: int)
    requires |chain.strikes| > 0
    ensures var low, high := LowStrike(chain), HighStrike(chain, width);
            && IsNearest(chain.strikes, low, chain.atm)
            && IsNearest(chain.strikes, high, low + width as real)
            && Preferred(high, low, low + width as real)
  {
    hide Preferred;
    NearestStrike(chain.strikes, chain.atm);
    NearestStrike(chain.strikes, LowStrike(chain) + width as real);
  }

  /** The low strike itself is width away from the target, and wins a tie from below. */
  lemma GapBelowTwice(low: real, high: real, width: real)
    requires low < high && Preferred(high, low, low + width)
    ensures high - low < 2.0 * width
  {
  }

  ghost predicate SameStrikes(xs: seq<real>, ys: seq<real>) {
    (forall x :: x in xs ==> x in ys) && (forall y :: y in ys ==> y in xs)
  }

  lemma SameNearest(xs: seq<real>, ys: seq<real>, target: real)
    requires |xs| > 0 && |ys| > 0 && SameStrikes(xs, ys)
    ensures |Sorted(xs)| > 0 && |Sorted(ys)| > 0
    ensures Nearest(Sorted(xs), target) == Nearest(Sorted(ys), target)
  {
    hide Preferred, Nearest, Sorted;
    SortedStrikes(xs);
    SortedStrikes(ys);
    NearestStrike(xs, target);
    NearestStrike(ys, target);
    var s := Nearest(Sorted(xs), target);
    assert IsNearest(xs, s, target);
    assert IsNearest(ys, s, target);
  }

  lemma SameEmptiness(xs: seq<real>, ys: seq<real>)
    requires SameStrikes(xs, ys)
    ensures |xs| == 0 <==> |ys| == 0
  {
    if |xs| > 0 {
      var x := xs[0];
      assert x in xs;
      assert x in ys;
    }
    if |ys| > 0 {
      var y := ys[0];
      assert y in ys;
      assert y in xs;
    }
  }

  /** The structure depends on which strikes are listed, not on their order or repetition. */
  lemma ListingOrderIrrelevant(sel: Selector, chain: Chain, strikes: seq<real>, width: int,
                               minEdge: real, minLiquidity: real)
    requires SameStrikes(strikes, chain.strikes)
    ensures SelectFromChain(sel, chain.(strikes := strikes), width, minEdge, minLiquidity) ==
            SelectFromChain(sel, chain, width, minEdge, minLiquidity)
  {
    hide LegLiquidity, NetDebit, EdgeOf, SpreadId, Nearest, Sorted, SameStrikes, Cents;
    SameEmptiness(strikes, chain.strikes);
    if |strikes| > 0 {
      SameNearest(strikes, chain.strikes, chain.atm);
      SameNearest(strikes, chain.strikes, LowStrike(chain) + width as real);
    }
  }

  /* ---- Tighter quotes never hurt ------------------------------------------------------- */

  /** chain' differs in its calls only, and there both legs are quoted no wider over the same underlying. */
  ghost predicate TightenedAt(chain: Chain, chain': Chain, low: real, high: real) {
    && chain' == chain.(calls := chain'.calls)
    && CallQuote(chain, low).Some? && CallQuote(chain', low).Some?
    && CallQuote(chain, high).Some? && CallQuote(chain', high).Some?
    && Narrower(CallQuote(chain, low).value, CallQuote(chain', low).value)
    && Narrower(CallQuote(chain, high).value, CallQuote(chain', high).value)
    && UnderlyingPrice(chain', low) == UnderlyingPrice(chain, low)
  }

  lemma TighterLegs(low: Quote, high: Quote, low': Quote, high': Quote)
    requires Narrower(low, low') && Narrower(high, high')
    ensures NetDebit(low', high') <= NetDebit(low, high)
    ensures LegLiquidity(low', high') >= LegLiquidity(low, high)
    ensures 0.0 <= LegMetrics(low').spreadBps <= LegMetrics(low).spreadBps
    ensures 0.0 <= LegMetrics(high').spreadBps <= LegMetrics(high).spreadBps
  {
    hide LegMetrics;
    NarrowingHelpsLeg(low, low');
    NarrowingHelpsLeg(high, high');
  }

  lemma TighterEdge(sel: Selector, u: real, low: real, high: real, a: Quote, b: Quote, a': Quote, b': Quote)
    requires Narrower(a, a') && Narrower(b, b') && low <= high && NetDebit(a', b') > 0.0
    requires sel.venue.Ib? ==> EdgeOf(sel, u, low, high, a, b) + sel.fees.expectedSlippageBps >= -10000.0
    ensures EdgeOf(sel, u, low, high, a', b') >= EdgeOf(sel, u, low, high, a, b)
  {
    hide LegMetrics, NetDebit, IbEdge, DeribitEdge, Narrower, LegLiquidity;
    TighterLegs(a, b, a', b');
    var d, l, h := NetDebit(a, b), LegMetrics(a).spreadBps, LegMetrics(b).spreadBps;
    var d', l', h' := NetDebit(a', b'), LegMetrics(a').spreadBps, LegMetrics(b').spreadBps;
    match sel.venue
    case Ib(_, mult) => IbEdgeMonotoneWhenAccepted(u, low, high, d, d', l, h, l', h', sel.fees, mult);
    case Deribit => DeribitEdgeMonotone(u, low, high, d, d', l, h, l', h', sel.fees);
  }

  /**
   * Narrowing the quotes of the two chosen legs while the debit stays positive keeps an accepted
   * spread accepted, at the same strikes, with no less liquidity and no less edge; the other calls
   * of the chain may change in any way.
   */
  lemma TighterQuotesNeverHurt(sel: Selector, chain: Chain, chain': Chain, width: int, minEdge: real,
                               minLiquidity: real)
    requires SelectFromChain(sel, chain, width, minEdge, minLiquidity).Some?
    requires sel.venue.Ib? ==> minEdge + sel.fees.expectedSlippageBps >= -10000.0
    requires var s := SelectFromChain(sel, chain, width, minEdge, minLiquidity).value;
             && TightenedAt(chain, chain', s.low, s.high)
             && NetDebit(CallQuote(chain', s.low).value, CallQuote(chain', s.high).value) > 0.0
    ensures var s := SelectFromChain(sel, chain, width, minEdge, minLiquidity).value;
            var t := SelectFromChain(sel, chain', width, minEdge, minLiquidity);
            && t.Some?
            && t.value.instrumentId == s.instrumentId && t.value.low == s.low && t.value.high == s.high
            && t.value.liquidity >= s.liquidity && t.value.edge >= s.edge && t.value.debit <= s.debit
  {
    hide LegLiquidity, NetDebit, EdgeOf, SpreadId, Narrower;
    var s := SelectFromChain(sel, chain, width, minEdge, minLiquidity).value;
    assert LowStrike(chain') == LowStrike(chain) && HighStrike(chain', width) == HighStrike(chain, width);
    var u := UnderlyingPrice(chain, s.low);
    var a, b := CallQuote(chain, s.low).value, CallQuote(chain, s.high).value;
    var a', b' := CallQuote(chain', s.low).value, CallQuote(chain', s.high).value;
    TighterLegs(a, b, a', b');
    TighterEdge(sel, u, s.low, s.high, a, b, a', b');
  }

  /* ---- A spread bought at a loss ------------------------------------------------------- */

  /** Two calls at the money and width above it, quoted without a spread, and worth nothing at expiry. */
  function PairChain(width: int): Chain {
    Chain(0, "", false, 100.0, [100.0, 100.0 + width as real],
          map[10000 := Call(Some(Quote(2.0, 2.0)), 0.0, None),
              10000 + 100 * width := Call(Some(Quote(1.0, 1.0)), 0.0, None)])
  }

  lemma CentsOfWhole(n: int)
    ensures Cents(n as real) == 100 * n
  {
    assert n as real * 100.0 == (100 * n) as real;
  }

  lemma PairStrikes(width: int)
    requires width > 0
    ensures LowStrike(PairChain(width)) == 100.0 && HighStrike(PairChain(width), width) == 100.0 + width as real
  {
    hide Nearest, Sorted;
    var chain := PairChain(width);
    var low, high := 100.0, 100.0 + width as real;
    NearestStrike(chain.strikes, chain.atm);
    assert IsNearest(chain.strikes, low, chain.atm) by {
      assert chain.strikes[0] == low;
    }
    NearestStrike(chain.strikes, low + width as real);
    assert IsNearest(chain.strikes, high, low + width as real) by {
      assert chain.strikes[1] == high;
    }
  }

  lemma PairQuotes(width: int)
    requires width > 0
    ensures CallQuote(PairChain(width), 100.0) == Some(Quote(2.0, 2.0))
    ensures CallQuote(PairChain(width), 100.0 + width as real) == Some(Quote(1.0, 1.0))
    ensures UnderlyingPrice(PairChain(width), 100.0) == 100.0
  {
    hide Cents;
    CentsOfWhole(100);
    CentsOfWhole(100 + width);
    assert (100 + width) as real == 100.0 + width as real;
  }

  /** The Deribit selector selects it at a loss of the whole debit, fees and slippage, whatever the minimum edge. */
  lemma PairIsSelected(sel: Selector, width: int, minEdge: real, minLiquidity: real)
    requires sel.venue.Deribit? && width > 0 && minLiquidity <= 1.0
    ensures var s := SelectFromChain(sel, PairChain(width), width, minEdge, minLiquidity);
            && s.Some? && s.value.liquidity == 1.0
            && s.value.edge == -10000.0 - sel.fees.expectedSlippageBps - DeribitCommissionBps(1.0, sel.fees)
            && |s.value.instrumentId| >= |sel.underlyingSymbol| + 4
  {
    hide Nearest, Sorted, StrikeText, Cents, LowStrike, HighStrike, CallQuote, UnderlyingPrice, LegId, PairChain,
      DeribitCommissionBps;
    PairStrikes(width);
    PairQuotes(width);
    assert !PairChain(width).isEmpty && |PairChain(width).strikes| == 2 by {
      PairLists(width);
    }
    assert LegMetrics(Quote(2.0, 2.0)).spreadBps == 0.0 && LegMetrics(Quote(1.0, 1.0)).spreadBps == 0.0;
  }

  lemma PairLists(width: int)
    ensures !PairChain(width).isEmpty && |PairChain(width).strikes| == 2
  {
  }
}
