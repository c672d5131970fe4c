/** What the capped greedy pass guarantees about the set of intents it approves. */
module GreedyBounds {
  import opened Models
  import opened Diversification

  /* ---- Selections of a batch ------------------------------------------------------- */

  /** The members of the batch that lie in F, in batch order. */
  ghost function Chosen(xs: seq<TradeIntent>, F: set<TradeIntent>): seq<TradeIntent> {
    if |xs| == 0 then []
    else
      var r := Chosen(xs[..|xs| - 1], F);
      if xs[|xs| - 1] in F then r + [xs[|xs| - 1]] else r
  }

  lemma {:induction false} ChosenMembers(xs: seq<TradeIntent>, F: set<TradeIntent>)
    ensures forall x :: x in Chosen(xs, F) <==> x in xs && x in F
  {
    if |xs| > 0 {
      ChosenMembers(xs[..|xs| - 1], F);
      assert xs == xs[..|xs| - 1] + [xs[|xs| - 1]];
    }
  }

  /** top_n and both families of caps hold of xs. */
  ghost predicate WithinCaps(xs: seq<TradeIntent>, p: Policy) {
    && |xs| <= NonNegative(p.topN)
    && forall g :: Count(xs, g) <= NonNegative(CapOf(p, g))
  }

  /** top_n and the instrument cap only. */
  ghost predicate WithinInstrumentCaps(xs: seq<TradeIntent>, p: Policy) {
    && |xs| <= NonNegative(p.topN)
    && forall id :: Count(xs, Instrument(id)) <= NonNegative(p.maxPerInstrument)
  }

  ghost predicate OnePerStrategy(xs: seq<TradeIntent>) {
    forall i, j :: 0 <= i < j < |xs| ==> xs[i].strategyId != xs[j].strategyId
  }

  lemma ChosenSnoc(xs: seq<TradeIntent>, k: nat, F: set<TradeIntent>)
    requires k < |xs|
    ensures Chosen(xs[..k + 1], F) == Chosen(xs[..k], F) + if xs[k] in F then [xs[k]] else []
  {
    assert xs[..k + 1][..k] == xs[..k];
  }

  lemma TotalSnoc(xs: seq<TradeIntent>, x: TradeIntent)
    ensures TotalEdge(xs + [x]) == TotalEdge(xs) + x.edge
  {
    assert (xs + [x])[..|xs|] == xs;
  }

  /** Removing one element takes exactly its contribution out of every count and the total. */
  lemma {:induction false} RemoveOne(xs: seq<TradeIntent>, j: nat, g: Group)
    requires j < |xs|
    ensures Count(xs, g) == Count(xs[..j] + xs[j + 1..], g) + if Matches(g, xs[j]) then 1 else 0
    ensures TotalEdge(xs) == TotalEdge(xs[..j] + xs[j + 1..]) + xs[j].edge
  {
    var n := |xs| - 1;
    if j == n {
      assert xs[..j] + xs[j + 1..] == xs[..n];
    } else {
      var init := xs[..n];
      RemoveOne(init, j, g);
      assert xs[..j] + xs[j + 1..] == (init[..j] + init[j + 1..]) + [xs[n]];
      CountSnoc(init[..j] + init[j + 1..], xs[n], g);
      TotalSnoc(init[..j] + init[j + 1..], xs[n]);
    }
  }

  lemma WithoutOne(ys: seq<TradeIntent>, j: nat)
    requires j < |ys|
    ensures multiset(ys[..j] + ys[j + 1..]) == multiset(ys) - multiset{ys[j]}
  {
    assert ys == ys[..j] + [ys[j]] + ys[j + 1..];
  }

  /** Cancelling the last element of xs against its match in ys leaves a permutation. */
  lemma CancelLast(xs: seq<TradeIntent>, ys: seq<TradeIntent>) returns (j: nat)
    requires |xs| > 0 && multiset(xs) == multiset(ys)
    ensures j < |ys| && ys[j] == xs[|xs| - 1]
    ensures multiset(xs[..|xs| - 1]) == multiset(ys[..j] + ys[j + 1..])
  {
    var n := |xs| - 1;
    MemberOfPermutation(xs, ys, xs[n]);
    j :| 0 <= j < |ys| && ys[j] == xs[n];
    WithoutOne(xs, n);
    WithoutOne(ys, j);
    assert xs[..n] + xs[n + 1..] == xs[..n];
  }

  /** Counts, lengths and totals of a selection depend on the multiset of the batch only. */
  lemma {:induction false} PermutationInvariant(xs: seq<TradeIntent>, ys: seq<TradeIntent>, g: Group)
    requires multiset(xs) == multiset(ys)
    ensures Count(xs, g) == Count(ys, g) && TotalEdge(xs) == TotalEdge(ys) && |xs| == |ys|
    decreases |xs|
  {
    assert |multiset(xs)| == |xs| && |multiset(ys)| == |ys|;
    if |xs| > 0 {
      var j := CancelLast(xs, ys);
      PermutationInvariant(xs[..|xs| - 1], ys[..j] + ys[j + 1..], g);
      RemoveOne(ys, j, g);
    }
  }

  lemma {:induction false} ChosenMultiset(xs: seq<TradeIntent>, F: set<TradeIntent>, x: TradeIntent)
    ensures multiset(Chosen(xs, F))[x] == if x in F then multiset(xs)[x] else 0
  {
    if |xs| > 0 {
      assert xs == xs[..|xs| - 1] + [xs[|xs| - 1]];
      ChosenMultiset(xs[..|xs| - 1], F, x);
    }
  }

  lemma ChosenOfPermutation(xs: seq<TradeIntent>, ys: seq<TradeIntent>, F: set<TradeIntent>)
    requires multiset(xs) == multiset(ys)
    ensures multiset(Chosen(xs, F)) == multiset(Chosen(ys, F))
  {
    forall x: TradeIntent ensures multiset(Chosen(xs, F))[x] == multiset(Chosen(ys, F))[x] {
      ChosenMultiset(xs, F, x);
      ChosenMultiset(ys, F, x);
    }
  }

  /* ---- Caps hold of what is approved ------------------------------------------------ */

  lemma GreedyWithinCaps(ranked: seq<TradeIntent>, p: Policy)
    ensures WithinCaps(Greedy(ranked, p), p)
  {
    hide Greedy, Count, CapOf;
    forall grp ensures Count(Greedy(ranked, p), grp) <= NonNegative(CapOf(p, grp)) {
      CountsWithinCaps(ranked, p, grp);
    }
    CountsWithinCaps(ranked, p, Instrument(""));
  }

  /** Every cap of the policy holds of the approved intents, whatever the batch. */
  lemma ApprovedWithinCaps(intents: seq<TradeIntent>, p: Policy)
    ensures WithinCaps(Approved(intents, p), p)
  {
    GreedyWithinCaps(Ranked(intents), p);
  }

  /* ---- Charging: how many members any feasible selection can have -------------------- */

  /** Members of F that the pass approves or refuses because their instrument is full. */
  ghost function InstrumentCharged(r: seq<TradeIntent>, F: set<TradeIntent>, p: Policy): seq<TradeIntent> {
    if |r| == 0 then []
    else
      var x, init := r[|r| - 1], r[..|r| - 1];
      var a := InstrumentCharged(init, F, p);
      if x in F && (Accepts(Greedy(init, p), x, p) || InstrumentFull(Greedy(init, p), x, p)) then a + [x] else a
  }

  /** The remaining members of F: refused because their strategy is full. */
  ghost function StrategyCharged(r: seq<TradeIntent>, F: set<TradeIntent>, p: Policy): seq<TradeIntent> {
    if |r| == 0 then []
    else
      var x, init := r[|r| - 1], r[..|r| - 1];
      var b := StrategyCharged(init, F, p);
      if x in F && !(Accepts(Greedy(init, p), x, p) || InstrumentFull(Greedy(init, p), x, p)) then b + [x] else b
  }

  predicate InstrumentFull(g: seq<TradeIntent>, x: TradeIntent, p: Policy) {
    Count(g, Instrument(x.instrumentId)) >= p.maxPerInstrument
  }

  lemma {:induction false} ChargesSplit(r: seq<TradeIntent>, F: set<TradeIntent>, p: Policy, grp: Group)
    ensures |Chosen(r, F)| == |InstrumentCharged(r, F, p)| + |StrategyCharged(r, F, p)|
    ensures Count(Chosen(r, F), grp) ==
            Count(InstrumentCharged(r, F, p), grp) + Count(StrategyCharged(r, F, p), grp)
  {
    if |r| > 0 {
      var x, init := r[|r| - 1], r[..|r| - 1];
      ChargesSplit(init, F, p, grp);
      CountSnoc(Chosen(init, F), x, grp);
      CountSnoc(InstrumentCharged(init, F, p), x, grp);
      CountSnoc(StrategyCharged(init, F, p), x, grp);
    }
  }

  /** Counts over a longer prefix of the ranking are at least those over a shorter one. */
  lemma CountsGrow(r: seq<TradeIntent>, F: set<TradeIntent>, grp: Group)
    requires |r| > 0
    ensures Count(Chosen(r[..|r| - 1], F), grp) <= Count(Chosen(r, F), grp)
    ensures |Chosen(r[..|r| - 1], F)| <= |Chosen(r, F)|
  {
    CountSnoc(Chosen(r[..|r| - 1], F), r[|r| - 1], grp);
  }

  lemma PrefixWithinCaps(r: seq<TradeIntent>, F: set<TradeIntent>, p: Policy)
    requires |r| > 0 && WithinCaps(Chosen(r, F), p)
    ensures WithinCaps(Chosen(r[..|r| - 1], F), p)
  {
    forall grp {
      CountsGrow(r, F, grp);
    }
    CountsGrow(r, F, Instrument(""));
  }

  lemma PrefixWithinInstrumentCaps(r: seq<TradeIntent>, F: set<TradeIntent>, p: Policy)
    requires |r| > 0 && WithinInstrumentCaps(Chosen(r, F), p)
    ensures WithinInstrumentCaps(Chosen(r[..|r| - 1], F), p)
  {
    forall id {
      CountsGrow(r, F, Instrument(id));
    }
    CountsGrow(r, F, Instrument(""));
  }

  /** Each instrument's charges are paid by the approved intents on that instrument. */
  lemma {:induction false} InstrumentChargesPaid(r: seq<TradeIntent>, F: set<TradeIntent>, p: Policy, id: string)
    requires Count(Chosen(r, F), Instrument(id)) <= NonNegative(p.maxPerInstrument)
    ensures Count(InstrumentCharged(r, F, p), Instrument(id)) <= Count(Greedy(r, p), Instrument(id))
  {
    if |r| > 0 {
      var x, init, grp := r[|r| - 1], r[..|r| - 1], Instrument(id);
      CountsGrow(r, F, grp);
      ChargesSplit(r, F, p, grp);
      InstrumentChargesPaid(init, F, p, id);
      CountSnoc(Greedy(init, p), x, grp);
      CountSnoc(InstrumentCharged(init, F, p), x, grp);
    }
  }

  /** While top_n is not reached, each strategy's charges are paid by its approved intents. */
  lemma {:induction false} StrategyChargesPaid(r: seq<TradeIntent>, F: set<TradeIntent>, p: Policy, id: string)
    requires Count(Chosen(r, F), Strategy(id)) <= StrategyCap(p) && |Greedy(r, p)| < p.topN
    ensures Count(StrategyCharged(r, F, p), Strategy(id)) <= Count(Greedy(r, p), Strategy(id))
  {
    hide StrategyCap;
    if |r| > 0 {
      var x, init, grp := r[|r| - 1], r[..|r| - 1], Strategy(id);
      CountsGrow(r, F, grp);
      ChargesSplit(r, F, p, grp);
      StrategyChargesPaid(init, F, p, id);
      CountSnoc(Greedy(init, p), x, grp);
      CountSnoc(StrategyCharged(init, F, p), x, grp);
    }
  }

  /** If ys has at least as many members of each instrument as xs, it is at least as long. */
  lemma {:induction false} InstrumentCountsBoundLength(xs: seq<TradeIntent>, ys: seq<TradeIntent>)
    requires forall id :: Count(xs, Instrument(id)) <= Count(ys, Instrument(id))
    ensures |xs| <= |ys|
  {
    if |xs| > 0 {
      var x, init := xs[|xs| - 1], xs[..|xs| - 1];
      var j := FindMember(ys, Instrument(x.instrumentId));
      var rest := ys[..j] + ys[j + 1..];
      forall id ensures Count(init, Instrument(id)) <= Count(rest, Instrument(id)) {
        RemoveOne(ys, j, Instrument(id));
      }
      InstrumentCountsBoundLength(init, rest);
    }
  }

  lemma {:induction false} StrategyCountsBoundLength(xs: seq<TradeIntent>, ys: seq<TradeIntent>)
    requires forall id :: Count(xs, Strategy(id)) <= Count(ys, Strategy(id))
    ensures |xs| <= |ys|
  {
    if |xs| > 0 {
      var x, init := xs[|xs| - 1], xs[..|xs| - 1];
      var j := FindMember(ys, Strategy(x.strategyId));
      var rest := ys[..j] + ys[j + 1..];
      forall id ensures Count(init, Strategy(id)) <= Count(rest, Strategy(id)) {
        RemoveOne(ys, j, Strategy(id));
      }
      StrategyCountsBoundLength(init, rest);
    }
  }

  lemma {:induction false} FindMember(ys: seq<TradeIntent>, g: Group) returns (j: nat)
    requires Count(ys, g) > 0
    ensures j < |ys| && Matches(g, ys[j])
  {
    if Matches(g, ys[|ys| - 1]) {
      j := |ys| - 1;
    } else {
      j := FindMember(ys[..|ys| - 1], g);
    }
  }

  /** On every ranking, a selection within the caps has at most twice as many members. */
  lemma TwiceAsMany(r: seq<TradeIntent>, F: set<TradeIntent>, p: Policy)
    requires WithinCaps(Chosen(r, F), p)
    ensures |Chosen(r, F)| <= 2 * |Greedy(r, p)|
  {
    hide Greedy, Chosen, Count, InstrumentCharged, StrategyCharged, StrategyCap;
    if |Greedy(r, p)| < p.topN {
      forall id ensures Count(InstrumentCharged(r, F, p), Instrument(id)) <= Count(Greedy(r, p), Instrument(id)) {
        assert CapOf(p, Instrument(id)) == p.maxPerInstrument;
        InstrumentChargesPaid(r, F, p, id);
      }
      forall id ensures Count(StrategyCharged(r, F, p), Strategy(id)) <= Count(Greedy(r, p), Strategy(id)) {
        assert CapOf(p, Strategy(id)) == StrategyCap(p);
        StrategyChargesPaid(r, F, p, id);
      }
      InstrumentCountsBoundLength(InstrumentCharged(r, F, p), Greedy(r, p));
      StrategyCountsBoundLength(StrategyCharged(r, F, p), Greedy(r, p));
      ChargesSplit(r, F, p, Instrument(""));
    }
  }

  /** With one intent per strategy nothing is ever refused because its strategy is full. */
  lemma {:induction false} NoStrategyCharges(r: seq<TradeIntent>, F: set<TradeIntent>, p: Policy)
    requires OnePerStrategy(r) && |Greedy(r, p)| < p.topN
    ensures |StrategyCharged(r, F, p)| == 0
  {
    if |r| > 0 {
      var x, init := r[|r| - 1], r[..|r| - 1];
      NoStrategyCharges(init, F, p);
      StrategyNotSeen(init, x, p);
    }
  }

  lemma {:induction false} NoMatchesNoCount(xs: seq<TradeIntent>, g: Group)
    requires forall x :: x in xs ==> !Matches(g, x)
    ensures Count(xs, g) == 0
  {
    if |xs| > 0 {
      NoMatchesNoCount(xs[..|xs| - 1], g);
    }
  }

  /** A strategy that does not occur in the batch has no approved intent. */
  lemma StrategyNotSeen(init: seq<TradeIntent>, x: TradeIntent, p: Policy)
    requires OnePerStrategy(init + [x])
    ensures Count(Greedy(init, p), Strategy(x.strategyId)) == 0
  {
    GreedyMembers(init, p);
    forall y | y in Greedy(init, p) ensures !Matches(Strategy(x.strategyId), y) {
      var k :| 0 <= k < |init| && init[k] == y;
      assert (init + [x])[k] == y && (init + [x])[|init|] == x;
    }
    NoMatchesNoCount(Greedy(init, p), Strategy(x.strategyId));
  }

  /**
   * Rank dominance: with one intent per strategy, the pass has approved at least as many
   * of any ranking as a selection within top_n and the instrument cap has members there.
   */
  lemma AtLeastAsMany(r: seq<TradeIntent>, F: set<TradeIntent>, p: Policy)
    requires OnePerStrategy(r) && WithinInstrumentCaps(Chosen(r, F), p)
    ensures |Chosen(r, F)| <= |Greedy(r, p)|
  {
    hide Greedy, Chosen, Count, InstrumentCharged, StrategyCharged;
    if |Greedy(r, p)| < p.topN {
      forall id ensures Count(InstrumentCharged(r, F, p), Instrument(id)) <= Count(Greedy(r, p), Instrument(id)) {
        InstrumentChargesPaid(r, F, p, id);
      }
      InstrumentCountsBoundLength(InstrumentCharged(r, F, p), Greedy(r, p));
      NoStrategyCharges(r, F, p);
      ChargesSplit(r, F, p, Instrument(""));
    }
  }

  /* ---- From member counts to total edge --------------------------------------------- */

  /** On every prefix of the ranking F has at most m times as many members as were approved. */
  ghost predicate Dominated(r: seq<TradeIntent>, F: set<TradeIntent>, p: Policy, m: nat) {
    forall k :: 0 <= k <= |r| ==> |Chosen(r[..k], F)| <= m * |Greedy(r[..k], p)|
  }

  lemma DominatedPrefix(r: seq<TradeIntent>, F: set<TradeIntent>, p: Policy, m: nat)
    requires |r| > 0 && Dominated(r, F, p, m)
    ensures Dominated(r[..|r| - 1], F, p, m)
  {
    var init := r[..|r| - 1];
    forall k | 0 <= k <= |init| ensures |Chosen(init[..k], F)| <= m * |Greedy(init[..k], p)| {
      assert init[..k] == r[..k];
    }
  }

  /** The worth of a surplus of `gap` members at edge e. */
  function Worth(e: real, gap: int): real {
    e * gap as real
  }

  /** A non-negative gap is worth no more at a smaller edge. */
  lemma WorthMonotone(e: real, e': real, gap: int)
    requires gap >= 0 && e >= e'
    ensures Worth(e, gap) >= Worth(e', gap)
  {
  }

  function Scaled(d: nat, e: real): (r: real)
    requires d <= 1
    ensures r == d as real * e
  {
    if d == 1 then e else 0.0
  }

  /** m times a over b, for edges and for members. */
  function Excess(m: nat, a: real, b: real): real {
    m as real * a - b
  }

  function Spare(m: nat, a: nat, b: nat): int {
    m * a - b
  }

  /** One step down the ranking, in numbers: totals tg, tf and member counts ng, nf before and after. */
  lemma SurplusStep(e: real, m: nat, dg: nat, df: nat, tg: real, tf: real, ng: nat, nf: nat,
                    tg': real, tf': real, ng': nat, nf': nat)
    requires dg <= 1 && df <= 1 && (dg == 1 ==> e >= 0.0)
    requires tg' == tg + Scaled(dg, e) && tf' == tf + Scaled(df, e)
    requires ng' == ng + dg && nf' == nf + df
    requires Excess(m, tg, tf) >= 0.0 && Spare(m, ng', nf') >= 0
    requires e >= 0.0 ==> Excess(m, tg, tf) >= Worth(e, Spare(m, ng, nf))
    ensures Excess(m, tg', tf') >= 0.0
    ensures e >= 0.0 ==> Excess(m, tg', tf') >= Worth(e, Spare(m, ng', nf'))
  {
    hide Excess, Spare;
    ExcessStep(e, m, dg, df, tg, tf);
    SpareStep(m, dg, df, ng, nf);
    var gap, gained := Spare(m, ng, nf), Spare(m, dg, df);
    if e >= 0.0 {
      WorthAdds(e, gap, gained);
      WorthOfGap(e, gap + gained);
    } else {
      LossAvoided(e, m, df);
    }
  }

  lemma ExcessStep(e: real, m: nat, dg: nat, df: nat, a: real, b: real)
    requires dg <= 1 && df <= 1
    ensures Excess(m, a + Scaled(dg, e), b + Scaled(df, e)) == Excess(m, a, b) + Worth(e, Spare(m, dg, df))
  {
    var mr := m as real;
    assert mr * (a + Scaled(dg, e)) == mr * a + mr * Scaled(dg, e);
    if dg == 1 {
      assert Spare(m, dg, df) == m - df;
      assert e * (m - df) as real == mr * e - e * df as real;
    } else {
      assert Spare(m, dg, df) + df == 0;
    }
  }

  lemma SpareStep(m: nat, dg: nat, df: nat, a: nat, b: nat)
    ensures Spare(m, a + dg, b + df) == Spare(m, a, b) + Spare(m, dg, df)
  {
    assert m * (a + dg) == m * a + m * dg;
  }

  lemma WorthAdds(e: real, gap: int, gained: int)
    ensures Worth(e, gap + gained) == Worth(e, gap) + Worth(e, gained)
  {
    assert (gap + gained) as real == gap as real + gained as real;
    assert e * (gap as real + gained as real) == e * gap as real + e * gained as real;
  }

  lemma WorthOfGap(e: real, gap: int)
    requires e >= 0.0 && gap >= 0
    ensures Worth(e, gap) >= 0.0
  {
  }

  /** Where the edge is negative and nothing was approved, what F takes is no gain. */
  lemma LossAvoided(e: real, m: nat, df: nat)
    requires e < 0.0 && df <= 1
    ensures Worth(e, Spare(m, 0, df)) >= 0.0
  {
    assert Spare(m, 0, df) + df == 0;
  }

  /** What one more ranked intent adds to the approved list. */
  lemma GreedyGrows(r: seq<TradeIntent>, p: Policy) returns (dg: nat)
    requires |r| > 0
    ensures dg <= 1
    ensures |Greedy(r, p)| == |Greedy(r[..|r| - 1], p)| + dg
    ensures TotalEdge(Greedy(r, p)) == TotalEdge(Greedy(r[..|r| - 1], p)) + Scaled(dg, r[|r| - 1].edge)
    ensures dg == 1 ==> r[|r| - 1] in Greedy(r, p)
    ensures Greedy(r[..|r| - 1], p) <= Greedy(r, p)
  {
    var g := Greedy(r[..|r| - 1], p);
    TotalSnoc(g, r[|r| - 1]);
    if Greedy(r, p) == g {
      dg := 0;
    } else {
      dg := 1;
    }
  }

  /** What one more ranked intent adds to the selection F. */
  lemma ChosenGrows(r: seq<TradeIntent>, F: set<TradeIntent>) returns (df: nat)
    requires |r| > 0
    ensures df <= 1
    ensures |Chosen(r, F)| == |Chosen(r[..|r| - 1], F)| + df
    ensures TotalEdge(Chosen(r, F)) == TotalEdge(Chosen(r[..|r| - 1], F)) + Scaled(df, r[|r| - 1].edge)
  {
    TotalSnoc(Chosen(r[..|r| - 1], F), r[|r| - 1]);
    df := if r[|r| - 1] in F then 1 else 0;
  }

  /** The surplus of m times the approved edge over the edge of F. */
  ghost function Surplus(r: seq<TradeIntent>, F: set<TradeIntent>, p: Policy, m: nat): real {
    Excess(m, TotalEdge(Greedy(r, p)), TotalEdge(Chosen(r, F)))
  }

  ghost function Gap(r: seq<TradeIntent>, F: set<TradeIntent>, p: Policy, m: nat): int {
    Spare(m, |Greedy(r, p)|, |Chosen(r, F)|)
  }

  lemma SurplusGrows(r: seq<TradeIntent>, F: set<TradeIntent>, p: Policy, m: nat)
    requires |r| > 0 && (r[|r| - 1] in Greedy(r, p) ==> r[|r| - 1].edge >= 0.0)
    requires Surplus(r[..|r| - 1], F, p, m) >= 0.0 && Gap(r, F, p, m) >= 0
    requires r[|r| - 1].edge >= 0.0 ==>
               Surplus(r[..|r| - 1], F, p, m) >= Worth(r[|r| - 1].edge, Gap(r[..|r| - 1], F, p, m))
    ensures Surplus(r, F, p, m) >= 0.0
    ensures r[|r| - 1].edge >= 0.0 ==> Surplus(r, F, p, m) >= Worth(r[|r| - 1].edge, Gap(r, F, p, m))
  {
    hide TotalEdge, Greedy, Chosen, Worth, Excess, Spare;
    var g, f := Greedy(r[..|r| - 1], p), Chosen(r[..|r| - 1], F);
    var dg := GreedyGrows(r, p);
    var df := ChosenGrows(r, F);
    SurplusStep(r[|r| - 1].edge, m, dg, df, TotalEdge(g), TotalEdge(f), |g|, |f|,
                TotalEdge(Greedy(r, p)), TotalEdge(Chosen(r, F)), |Greedy(r, p)|, |Chosen(r, F)|);
  }

  /**
   * Summation by parts. The invariant carried down the ranking is that the surplus of
   * m * greedy over F is worth at least the current edge times the surplus in members.
   */
  lemma {:induction false} EdgeSurplus(r: seq<TradeIntent>, F: set<TradeIntent>, p: Policy, m: nat)
    requires IsRanked(r) && Dominated(r, F, p, m)
    requires forall x :: x in Greedy(r, p) ==> x.edge >= 0.0
    ensures Surplus(r, F, p, m) >= 0.0
    ensures |r| > 0 && r[|r| - 1].edge >= 0.0 ==>
              Surplus(r, F, p, m) >= Worth(r[|r| - 1].edge, Gap(r, F, p, m))
  {
    if |r| > 0 {
      hide TotalEdge, Greedy, Chosen, Surplus, Gap, Worth;
      var n := |r| - 1;
      var init := r[..n];
      var _ := GreedyGrows(r, p);
      DominatedPrefix(r, F, p, m);
      EdgeSurplus(init, F, p, m);
      DominatedAt(r, F, p, m);
      if n > 0 && r[n].edge >= 0.0 {
        assert !Ahead(r[n], r[n - 1]);
        WorthMonotone(r[n - 1].edge, r[n].edge, Gap(init, F, p, m));
      }
      SurplusGrows(r, F, p, m);
    }
  }

  lemma DominatedAt(r: seq<TradeIntent>, F: set<TradeIntent>, p: Policy, m: nat)
    requires |r| > 0 && Dominated(r, F, p, m)
    ensures Gap(r, F, p, m) >= 0 && Gap(r[..|r| - 1], F, p, m) >= 0
  {
    assert r[..|r|] == r;
    assert |Chosen(r[..|r|], F)| <= m * |Greedy(r[..|r|], p)|;
    assert |Chosen(r[..|r| - 1], F)| <= m * |Greedy(r[..|r| - 1], p)|;
  }

  /* ---- Main results ------------------------------------------------------------------ */

  lemma {:induction false} DominatedByTwo(r: seq<TradeIntent>, F: set<TradeIntent>, p: Policy)
    requires WithinCaps(Chosen(r, F), p)
    ensures Dominated(r, F, p, 2)
  {
    TwiceAsMany(r, F, p);
    assert r[..|r|] == r;
    if |r| > 0 {
      var init := r[..|r| - 1];
      PrefixWithinCaps(r, F, p);
      DominatedByTwo(init, F, p);
      forall k | 0 <= k < |r| ensures |Chosen(r[..k], F)| <= 2 * |Greedy(r[..k], p)| {
        assert init[..k] == r[..k];
      }
    }
  }

  lemma {:induction false} DominatedByOne(r: seq<TradeIntent>, F: set<TradeIntent>, p: Policy)
    requires OnePerStrategy(r) && WithinInstrumentCaps(Chosen(r, F), p)
    ensures Dominated(r, F, p, 1)
  {
    AtLeastAsMany(r, F, p);
    assert r[..|r|] == r;
    if |r| > 0 {
      var init := r[..|r| - 1];
      PrefixWithinInstrumentCaps(r, F, p);
      DominatedByOne(init, F, p);
      forall k | 0 <= k < |r| ensures |Chosen(r[..k], F)| <= 1 * |Greedy(r[..k], p)| {
        assert init[..k] == r[..k];
      }
    }
  }

  lemma TransferCaps(xs: seq<TradeIntent>, ys: seq<TradeIntent>, F: set<TradeIntent>, p: Policy)
    requires multiset(xs) == multiset(ys)
    ensures WithinCaps(Chosen(xs, F), p) ==> WithinCaps(Chosen(ys, F), p)
    ensures WithinInstrumentCaps(Chosen(xs, F), p) ==> WithinInstrumentCaps(Chosen(ys, F), p)
    ensures TotalEdge(Chosen(xs, F)) == TotalEdge(Chosen(ys, F)) && |Chosen(xs, F)| == |Chosen(ys, F)|
  {
    ChosenOfPermutation(xs, ys, F);
    forall g: Group {
      PermutationInvariant(Chosen(xs, F), Chosen(ys, F), g);
    }
    PermutationInvariant(Chosen(xs, F), Chosen(ys, F), Instrument(""));
  }

  /**
   * For any batch with non-negative edges the approved intents are worth at least half of
   * any selection within all the caps, and such a selection has at most twice as many members.
   */
  lemma HalfOfAnySelection(intents: seq<TradeIntent>, F: set<TradeIntent>, p: Policy)
    requires forall x :: x in intents ==> x.edge >= 0.0
    requires WithinCaps(Chosen(intents, F), p)
    ensures 2.0 * TotalEdge(Approved(intents, p)) >= TotalEdge(Chosen(intents, F))
    ensures |Chosen(intents, F)| <= 2 * |Approved(intents, p)|
  {
    var r := Ranked(intents);
    RankedSorts(intents);
    TransferCaps(intents, r, F, p);
    DominatedByTwo(r, F, p);
    GreedyMembers(r, p);
    forall x | x in Greedy(r, p) ensures x.edge >= 0.0 {
      MemberOfPermutation(intents, r, x);
    }
    EdgeSurplus(r, F, p, 2);
    TwiceAsMany(r, F, p);
  }

  lemma OnePerStrategyOfPermutation(xs: seq<TradeIntent>, ys: seq<TradeIntent>)
    requires multiset(xs) == multiset(ys) && OnePerStrategy(xs) && DistinctIds(xs)
    ensures OnePerStrategy(ys)
  {
    DistinctIdsOfPermutation(xs, ys);
    forall i, j | 0 <= i < j < |ys| ensures ys[i].strategyId != ys[j].strategyId {
      MemberOfPermutation(xs, ys, ys[i]);
      MemberOfPermutation(xs, ys, ys[j]);
      var k :| 0 <= k < |xs| && xs[k] == ys[i];
      var l :| 0 <= l < |xs| && xs[l] == ys[j];
      assert k != l;
    }
  }

  /** The approved intents are worth as much as any selection within top_n and the instrument cap. */
  ghost predicate Optimal(intents: seq<TradeIntent>, p: Policy) {
    forall F :: WithinInstrumentCaps(Chosen(intents, F), p) ==>
                  TotalEdge(Chosen(intents, F)) <= TotalEdge(Approved(intents, p))
  }

  /** One intent per strategy, nothing negative approved: no selection is worth more. */
  lemma OptimalWhenNoLossApproved(intents: seq<TradeIntent>, p: Policy)
    requires DistinctIds(intents) && OnePerStrategy(intents)
    requires forall x :: x in Approved(intents, p) ==> x.edge >= 0.0
    ensures Optimal(intents, p)
  {
    var r := Ranked(intents);
    RankedSorts(intents);
    OnePerStrategyOfPermutation(intents, r);
    forall F | WithinInstrumentCaps(Chosen(intents, F), p)
      ensures TotalEdge(Chosen(intents, F)) <= TotalEdge(Approved(intents, p))
    {
      TransferCaps(intents, r, F, p);
      DominatedByOne(r, F, p);
      EdgeSurplus(r, F, p, 1);
    }
  }

  /* ---- The converse: optimal only if nothing negative is approved --------------------- */

  ghost function MembersOf(xs: seq<TradeIntent>): set<TradeIntent> {
    set x | x in xs
  }

  lemma {:induction false} GreedyIsSubmultiset(r: seq<TradeIntent>, p: Policy)
    ensures multiset(Greedy(r, p)) <= multiset(r)
  {
    if |r| > 0 {
      assert r == r[..|r| - 1] + [r[|r| - 1]];
      GreedyIsSubmultiset(r[..|r| - 1], p);
    }
  }

  /** With distinct ids a selection of approved intents has exactly those members. */
  lemma ChosenFromApproved(r: seq<TradeIntent>, F: set<TradeIntent>, p: Policy, x: TradeIntent)
    requires DistinctIds(r) && F <= MembersOf(Greedy(r, p))
    ensures multiset(Chosen(r, F))[x] == if x in F then multiset(Greedy(r, p))[x] else 0
  {
    ChosenMultiset(r, F, x);
    GreedyIsSubmultiset(r, p);
    SingleOccurrence(r, x);
    assert x in F ==> multiset(Greedy(r, p))[x] >= 1;
    assert multiset(Greedy(r, p))[x] <= multiset(r)[x];
  }

  /** Leaving out one approved intent keeps the caps and loses exactly its edge. */
  lemma DroppingOne(intents: seq<TradeIntent>, p: Policy, x: TradeIntent) returns (F: set<TradeIntent>)
    requires DistinctIds(intents) && x in Approved(intents, p)
    ensures WithinInstrumentCaps(Chosen(intents, F), p)
    ensures TotalEdge(Chosen(intents, F)) == TotalEdge(Approved(intents, p)) - x.edge
  {
    var r := Ranked(intents);
    RankedSorts(intents);
    var g := Greedy(r, p);
    var j :| 0 <= j < |g| && g[j] == x;
    var rest := g[..j] + g[j + 1..];
    F := MembersOf(g) - {x};
    DistinctIdsOfPermutation(intents, r);
    RestOfApproved(r, p, j);
    ApprovedWithinCaps(intents, p);
    forall id ensures Count(Chosen(r, F), Instrument(id)) <= NonNegative(p.maxPerInstrument) {
      PermutationInvariant(Chosen(r, F), rest, Instrument(id));
      RemoveOne(g, j, Instrument(id));
      assert Count(g, Instrument(id)) <= NonNegative(CapOf(p, Instrument(id)));
    }
    PermutationInvariant(Chosen(r, F), rest, Instrument(""));
    RemoveOne(g, j, Instrument(""));
    TransferCaps(r, intents, F, p);
  }

  /** An approved intent occurs once among the approved. */
  lemma ApprovedOnce(r: seq<TradeIntent>, p: Policy, x: TradeIntent)
    requires DistinctIds(r)
    ensures multiset(Greedy(r, p))[x] == if x in Greedy(r, p) then 1 else 0
  {
    hide Greedy;
    GreedyIsSubmultiset(r, p);
    SingleOccurrence(r, x);
    assert multiset(Greedy(r, p))[x] <= multiset(r)[x];
    assert x in multiset(Greedy(r, p)) <==> x in Greedy(r, p);
  }

  lemma RestOfApproved(r: seq<TradeIntent>, p: Policy, j: nat)
    requires DistinctIds(r) && j < |Greedy(r, p)|
    ensures var g := Greedy(r, p);
            multiset(Chosen(r, MembersOf(g) - {g[j]})) == multiset(g[..j] + g[j + 1..])
  {
    hide Greedy, Chosen;
    var g := Greedy(r, p);
    var F := MembersOf(g) - {g[j]};
    assert g == g[..j] + [g[j]] + g[j + 1..];
    var rest := multiset(g) - multiset{g[j]};
    forall x: TradeIntent ensures multiset(Chosen(r, F))[x] == rest[x] {
      ChosenFromApproved(r, F, p, x);
      ApprovedOnce(r, p, x);
    }
    assert multiset(Chosen(r, F)) == rest;
  }

  /**
   * With at most one intent per strategy the approved intents are worth the maximum over
   * all selections within top_n and the instrument cap exactly when none of them has a
   * negative edge.
   */
  lemma OptimalIffNoLossApproved(intents: seq<TradeIntent>, p: Policy)
    requires DistinctIds(intents) && OnePerStrategy(intents)
    ensures Optimal(intents, p) <==> forall x :: x in Approved(intents, p) ==> x.edge >= 0.0
  {
    if forall x :: x in Approved(intents, p) ==> x.edge >= 0.0 {
      OptimalWhenNoLossApproved(intents, p);
    } else {
      var x :| x in Approved(intents, p) && x.edge < 0.0;
      var F := DroppingOne(intents, p, x);
      assert TotalEdge(Chosen(intents, F)) > TotalEdge(Approved(intents, p));
    }
  }

  /**
   * A batch with one intent per strategy is judged optimally under every policy exactly when no
   * edge in it is negative.
   */
  lemma AlwaysOptimalIff(intents: seq<TradeIntent>)
    requires DistinctIds(intents) && OnePerStrategy(intents)
    ensures (forall p :: Optimal(intents, p)) <==> forall x :: x in intents ==> x.edge >= 0.0
  {
    hide Optimal, Ranked, Greedy;
    var r := Ranked(intents);
    RankedSorts(intents);
    if forall x :: x in intents ==> x.edge >= 0.0 {
      forall p ensures Optimal(intents, p) {
        GreedyMembers(r, p);
        forall x | x in Approved(intents, p) ensures x.edge >= 0.0 {
          MemberOfPermutation(intents, r, x);
        }
        OptimalIffNoLossApproved(intents, p);
      }
    } else {
      var x :| x in intents && x.edge < 0.0;
      var p := FirstN(|r|, |r|);
      FirstNApproves(r, |r|, |r|);
      assert r[..|r|] == r;
      MemberOfPermutation(r, intents, x);
      OptimalIffNoLossApproved(intents, p);
    }
  }

  lemma GreedyOfThree(a: TradeIntent, b: TradeIntent, c: TradeIntent, p: Policy)
    requires p.topN == 2 && p.maxPerInstrument == 1 && StrategyCap(p) == 1
    requires a.instrumentId == b.instrumentId && a.strategyId == c.strategyId
    ensures Greedy([a, b, c], p) == [a]
  {
    hide TotalEdge;
    assert [a, b, c][..2] == [a, b] && [a, b][..1] == [a] && [a][..0] == [];
    assert Greedy([a], p) == [a];
    CountSnoc([], a, Instrument(b.instrumentId));
    CountSnoc([], a, Strategy(c.strategyId));
    assert [] + [a] == [a];
    assert Greedy([a, b], p) == [a];
  }

  lemma ChosenOfThree(a: TradeIntent, b: TradeIntent, c: TradeIntent)
    requires a != b && a != c
    ensures Chosen([a, b, c], {b, c}) == [b, c]
  {
    assert [a, b, c][..2] == [a, b] && [a, b][..1] == [a] && [a][..0] == [];
    assert Chosen([a], {b, c}) == [];
    assert Chosen([a, b], {b, c}) == [b];
  }

  lemma CapsOfTwo(b: TradeIntent, c: TradeIntent, p: Policy)
    requires p.topN == 2 && p.maxPerInstrument == 1
    requires b.instrumentId != c.instrumentId && b.strategyId != c.strategyId
    ensures WithinCaps([b, c], p)
    ensures TotalEdge([b, c]) == b.edge + c.edge && TotalEdge([b]) == b.edge
  {
    assert [b, c] == [b] + [c] && [b] == [] + [b];
    forall g ensures Count([b, c], g) <= NonNegative(CapOf(p, g)) {
      CountSnoc([], b, g);
      CountSnoc([b], c, g);
    }
    TotalSnoc([], b);
    TotalSnoc([b], c);
  }

  lemma AlreadyRanked(a: TradeIntent, b: TradeIntent, c: TradeIntent)
    requires a.edge == b.edge == c.edge && a.intentId < b.intentId < c.intentId
    ensures Ranked([a, b, c]) == [a, b, c]
  {
    assert [a, b, c][..2] == [a, b] && [a, b][..1] == [a] && [a][..0] == [] && [] + [a] == [a];
    assert Ranked([a]) == [a];
    assert Ranked([a, b]) == [a, b];
  }

  lemma HalfCap(p: Policy)
    requires p.topN == 2 && p.maxPerStrategy == 0.5
    ensures StrategyCap(p) == 1
  {
  }

  lemma TotalOfOne(a: TradeIntent)
    ensures TotalEdge([a]) == a.edge
  {
    TotalSnoc([], a);
    assert [] + [a] == [a];
  }

  /** The factor two is reached: three equal edges, where the first excludes both others. */
  lemma HalfIsTight(a: TradeIntent, b: TradeIntent, c: TradeIntent, p: Policy)
    requires p.topN == 2 && p.maxPerInstrument == 1 && p.maxPerStrategy == 0.5
    requires a.edge == b.edge == c.edge && a.intentId < b.intentId < c.intentId
    requires a.instrumentId == b.instrumentId && a.strategyId == c.strategyId
    requires b.instrumentId != c.instrumentId && b.strategyId != c.strategyId
    ensures WithinCaps(Chosen([a, b, c], {b, c}), p)
    ensures TotalEdge(Chosen([a, b, c], {b, c})) == 2.0 * TotalEdge(Approved([a, b, c], p))
  {
    hide Greedy, Chosen, TotalEdge, Ranked, WithinCaps, Count;
    AlreadyRanked(a, b, c);
    HalfCap(p);
    GreedyOfThree(a, b, c, p);
    ChosenOfThree(a, b, c);
    CapsOfTwo(b, c, p);
    TotalOfOne(a);
  }

  /** With one intent per strategy the strategy cap is inert: any other value approves the same. */
  lemma {:induction false} StrategyCapInert(r: seq<TradeIntent>, p: Policy, q: Policy)
    requires OnePerStrategy(r) && q == p.(maxPerStrategy := q.maxPerStrategy)
    ensures Greedy(r, q) == Greedy(r, p)
  {
    hide StrategyCap;
    if |r| > 0 {
      StrategyCapInert(r[..|r| - 1], p, q);
      StrategyNotSeen(r[..|r| - 1], r[|r| - 1], p);
    }
  }

  /* ---- An order-free description of what is approved ---------------------------------- */

  ghost function AheadIn(F: set<TradeIntent>, x: TradeIntent): set<TradeIntent> {
    set y | y in F && Ahead(y, x)
  }

  /**
   * F is stable for the batch: a member is in F exactly when top_n, its instrument and its
   * strategy all still have room next to the members of F that rank ahead of it.
   */
  ghost predicate Stable(intents: seq<TradeIntent>, F: set<TradeIntent>, p: Policy) {
    && F <= MembersOf(intents)
    && forall x :: x in intents ==> (x in F <==> Accepts(Chosen(intents, AheadIn(F, x)), x, p))
  }

  /** In ranked order the members of F ahead of the k-th are those among the first k. */
  lemma {:induction false} AheadIsPrefix(r: seq<TradeIntent>, k: nat, n: nat, F: set<TradeIntent>)
    requires k <= n <= |r| && k < |r| && DistinctIds(r) && IsRanked(r)
    ensures Chosen(r[..n], AheadIn(F, r[k])) == Chosen(r[..k], F)
    decreases n
  {
    if n > k {
      ChosenSnoc(r, n - 1, AheadIn(F, r[k]));
      assert n - 1 > k ==> !Ahead(r[n - 1], r[k]);
      AheadIsPrefix(r, k, n - 1, F);
    } else {
      SamePrefix(r, k, k, F);
    }
  }

  lemma {:induction false} SamePrefix(r: seq<TradeIntent>, k: nat, n: nat, F: set<TradeIntent>)
    requires n <= k < |r| && DistinctIds(r) && IsRanked(r)
    ensures Chosen(r[..n], AheadIn(F, r[k])) == Chosen(r[..n], F)
    decreases n
  {
    if n > 0 {
      ChosenSnoc(r, n - 1, AheadIn(F, r[k]));
      ChosenSnoc(r, n - 1, F);
      assert !Ahead(r[k], r[n - 1]) && r[k].intentId != r[n - 1].intentId;
      SamePrefix(r, k, n - 1, F);
    }
  }

  lemma {:induction false} GreedyExtends(r: seq<TradeIntent>, k: nat, n: nat, p: Policy)
    requires k <= n <= |r|
    ensures Greedy(r[..k], p) <= Greedy(r[..n], p)
    decreases n
  {
    hide Greedy, Accepts;
    if n > k {
      GreedySnoc(r, n - 1, p);
      GreedyExtends(r, k, n - 1, p);
      assert r[..n - 1 + 1] == r[..n];
    }
  }

  /** An approved intent had room when the loop came to it. */
  lemma {:induction false} HadRoom(r: seq<TradeIntent>, n: nat, k: nat, p: Policy)
    requires k < |r| && n <= |r| && DistinctIds(r) && r[k] in Greedy(r[..n], p)
    ensures Accepts(Greedy(r[..k], p), r[k], p)
    decreases n
  {
    hide Accepts, Greedy;
    if n == 0 {
      assert r[..n] == [];
      GreedyMembers(r[..n], p);
    } else {
      GreedySnoc(r, n - 1, p);
      if r[k] in Greedy(r[..n - 1], p) {
        HadRoom(r, n - 1, k, p);
      } else {
        assert r[k].intentId == r[n - 1].intentId;
      }
    }
  }

  lemma RoomMeansApproved(r: seq<TradeIntent>, k: nat, p: Policy)
    requires k < |r|
    ensures Accepts(Greedy(r[..k], p), r[k], p) ==> r[k] in Greedy(r, p)
  {
    GreedySnoc(r, k, p);
    GreedyExtends(r, k + 1, |r|, p);
    assert r[..|r|] == r;
    var g := Greedy(r[..k + 1], p);
    if g != Greedy(r[..k], p) {
      assert g[|g| - 1] == r[k] && Greedy(r, p)[|g| - 1] == r[k];
    }
  }

  /** The approved set, restricted to a prefix of the ranking, is what the loop had approved there. */
  lemma {:induction false} GreedyIsChosen(r: seq<TradeIntent>, k: nat, p: Policy)
    requires k <= |r| && DistinctIds(r)
    ensures Greedy(r[..k], p) == Chosen(r[..k], MembersOf(Greedy(r, p)))
    decreases k
  {
    if k > 0 {
      var F := MembersOf(Greedy(r, p));
      GreedySnoc(r, k - 1, p);
      ChosenSnoc(r, k - 1, F);
      GreedyIsChosen(r, k - 1, p);
      assert r[..|r|] == r;
      RoomMeansApproved(r, k - 1, p);
      if r[k - 1] in F {
        HadRoom(r, |r|, k - 1, p);
      }
    }
  }

  lemma AcceptsIgnoresOrder(xs: seq<TradeIntent>, ys: seq<TradeIntent>, x: TradeIntent, p: Policy)
    requires multiset(xs) == multiset(ys)
    ensures Accepts(xs, x, p) == Accepts(ys, x, p)
  {
    PermutationInvariant(xs, ys, Instrument(x.instrumentId));
    PermutationInvariant(xs, ys, Strategy(x.strategyId));
  }

  /** Stability read off the ranking: membership of the k-th is decided by the first k. */
  lemma StableAt(intents: seq<TradeIntent>, F: set<TradeIntent>, p: Policy, k: nat)
    requires DistinctIds(intents) && k < |Ranked(intents)|
    ensures var r := Ranked(intents);
            Accepts(Chosen(intents, AheadIn(F, r[k])), r[k], p) == Accepts(Chosen(r[..k], F), r[k], p)
  {
    var r := Ranked(intents);
    RankedSorts(intents);
    DistinctIdsOfPermutation(intents, r);
    AheadIsPrefix(r, k, |r|, F);
    assert r[..|r|] == r;
    ChosenOfPermutation(intents, r, AheadIn(F, r[k]));
    AcceptsIgnoresOrder(Chosen(intents, AheadIn(F, r[k])), Chosen(r, AheadIn(F, r[k])), r[k], p);
  }

  lemma {:induction false} StableIsGreedy(intents: seq<TradeIntent>, F: set<TradeIntent>, p: Policy, k: nat)
    requires DistinctIds(intents) && Stable(intents, F, p) && k <= |Ranked(intents)|
    ensures Chosen(Ranked(intents)[..k], F) == Greedy(Ranked(intents)[..k], p)
    decreases k
  {
    if k > 0 {
      var r := Ranked(intents);
      RankedSorts(intents);
      StableIsGreedy(intents, F, p, k - 1);
      GreedySnoc(r, k - 1, p);
      ChosenSnoc(r, k - 1, F);
      StableAt(intents, F, p, k - 1);
      MemberOfPermutation(intents, r, r[k - 1]);
    }
  }

  /** The approved intents are a stable set. */
  lemma ApprovedIsStable(intents: seq<TradeIntent>, p: Policy)
    requires DistinctIds(intents)
    ensures Stable(intents, MembersOf(Approved(intents, p)), p)
  {
    var r := Ranked(intents);
    RankedSorts(intents);
    var F := MembersOf(Greedy(r, p));
    DistinctIdsOfPermutation(intents, r);
    GreedyMembers(r, p);
    forall x | x in F ensures x in intents {
      MemberOfPermutation(intents, r, x);
    }
    assert r[..|r|] == r;
    forall x | x in intents ensures x in F <==> Accepts(Chosen(intents, AheadIn(F, x)), x, p) {
      MemberOfPermutation(intents, r, x);
      var k :| 0 <= k < |r| && r[k] == x;
      StableAt(intents, F, p, k);
      GreedyIsChosen(r, k, p);
      RoomMeansApproved(r, k, p);
      if x in F {
        HadRoom(r, |r|, k, p);
      }
    }
  }

  /** Stability describes the approved intents completely: there is exactly one stable set. */
  lemma ApprovedIffStable(intents: seq<TradeIntent>, F: set<TradeIntent>, p: Policy)
    requires DistinctIds(intents)
    ensures Stable(intents, F, p) <==> F == MembersOf(Approved(intents, p))
  {
    ApprovedIsStable(intents, p);
    if Stable(intents, F, p) {
      var r := Ranked(intents);
      RankedSorts(intents);
      StableIsGreedy(intents, F, p, |r|);
      assert r[..|r|] == r;
      ChosenMembers(r, F);
      forall x ensures x in F <==> x in Approved(intents, p) {
        MemberOfPermutation(intents, r, x);
      }
    }
  }

  /* ---- Every intent of the batch ends up in exactly one list -------------------------- */

  lemma {:induction false} WithoutIdsMultiset(xs: seq<TradeIntent>, ids: set<IntentId>, x: TradeIntent)
    ensures multiset(WithoutIds(xs, ids))[x] == if x.intentId in ids then 0 else multiset(xs)[x]
  {
    if |xs| > 0 {
      assert xs == xs[..|xs| - 1] + [xs[|xs| - 1]];
      WithoutIdsMultiset(xs[..|xs| - 1], ids, x);
    }
  }

  /** The batch members that share an id with an approved intent without being approved themselves. */
  ghost predicate DropsNothing(intents: seq<TradeIntent>, p: Policy) {
    forall x :: x in intents && x.intentId in IdsOf(Approved(intents, p)) ==>
                  multiset(Approved(intents, p))[x] == multiset(intents)[x]
  }

  /** How often x occurs in each list. */
  lemma ListMultiplicity(intents: seq<TradeIntent>, p: Policy, x: TradeIntent)
    ensures var a := Approved(intents, p);
            && multiset(a)[x] <= multiset(intents)[x]
            && multiset(Rejected(intents, p))[x] ==
               (if x.intentId in IdsOf(a) then 0 else multiset(intents)[x])
            && (x.intentId !in IdsOf(a) ==> multiset(a)[x] == 0)
  {
    hide Greedy, Ranked;
    var a := Approved(intents, p);
    WithoutIdsMultiset(intents, IdsOf(a), x);
    RankedSorts(intents);
    GreedyIsSubmultiset(Ranked(intents), p);
    assert x in multiset(a) <==> x in a;
  }

  /** The two lists partition the batch exactly when no unapproved member shares an approved id. */
  lemma PartitionIffNothingDropped(intents: seq<TradeIntent>, p: Policy)
    ensures multiset(Approved(intents, p)) + multiset(Rejected(intents, p)) == multiset(intents)
            <==> DropsNothing(intents, p)
  {
    hide Approved, Rejected;
    var a, r := multiset(Approved(intents, p)), multiset(Rejected(intents, p));
    if DropsNothing(intents, p) {
      forall x: TradeIntent ensures (a + r)[x] == multiset(intents)[x] {
        ListMultiplicity(intents, p, x);
        assert x in intents <==> x in multiset(intents);
      }
    }
    if a + r == multiset(intents) {
      forall x | x in intents && x.intentId in IdsOf(Approved(intents, p))
        ensures a[x] == multiset(intents)[x]
      {
        ListMultiplicity(intents, p, x);
        assert (a + r)[x] == a[x] + r[x];
      }
    }
  }

  /** The two lists hold every member of the batch, as often as the batch does. */
  ghost predicate Partitions(intents: seq<TradeIntent>, p: Policy) {
    multiset(Approved(intents, p)) + multiset(Rejected(intents, p)) == multiset(intents)
  }

  /** The policy that approves the first n of a ranking of at most `size` intents. */
  function FirstN(n: nat, size: nat): Policy {
    Policy(n, size + 1, 1.0, 1.0)
  }

  lemma {:induction false} FirstNApproves(r: seq<TradeIntent>, n: nat, size: nat)
    requires |r| <= size
    ensures Greedy(r, FirstN(n, size)) == r[..if |r| <= n then |r| else n]
  {
    if |r| > 0 {
      var init := r[..|r| - 1];
      FirstNApproves(init, n, size);
      assert r == init + [r[|r| - 1]];
      assert StrategyCap(FirstN(n, size)) >= n;
      if |r| <= n {
        assert init[..|init|] == init;
      } else {
        assert init[..n] == r[..n];
      }
    }
  }

  lemma FewerBefore(r: seq<TradeIntent>, j: nat)
    requires j < |r|
    ensures multiset(r[..j])[r[j]] < multiset(r)[r[j]]
  {
    assert r == r[..j] + r[j..] && r[j] == r[j..][0];
  }

  /** Two ranked intents with one id: the policy that stops before the second loses it. */
  lemma TwinIsLost(intents: seq<TradeIntent>, i: nat, j: nat)
    requires i < j < |Ranked(intents)| && Ranked(intents)[i].intentId == Ranked(intents)[j].intentId
    ensures !Partitions(intents, FirstN(j, |intents|))
  {
    hide Greedy, Ranked, Rejected;
    var r, p := Ranked(intents), FirstN(j, |intents|);
    RankedSorts(intents);
    assert |multiset(r)| == |r| && |multiset(intents)| == |intents|;
    FirstNApproves(r, j, |intents|);
    assert Approved(intents, p) == r[..j];
    assert r[..j][i].intentId in IdsOf(r[..j]);
    ListMultiplicity(intents, p, r[j]);
    FewerBefore(r, j);
    assert (multiset(Approved(intents, p)) + multiset(Rejected(intents, p)))[r[j]] < multiset(intents)[r[j]];
  }

  /** No policy loses an intent of the batch, or lists one twice, exactly when the ids of the batch are distinct. */
  lemma NothingLostIffDistinctIds(intents: seq<TradeIntent>)
    ensures (forall p :: Partitions(intents, p)) <==> DistinctIds(intents)
  {
    hide Ranked;
    if DistinctIds(intents) {
      forall p ensures Partitions(intents, p) {
        DistinctIdsPartition(intents, p);
      }
    } else {
      var r := Ranked(intents);
      RankedSorts(intents);
      if DistinctIds(r) {
        DistinctIdsOfPermutation(r, intents);
      }
      var i, j :| 0 <= i < j < |r| && r[i].intentId == r[j].intentId;
      TwinIsLost(intents, i, j);
    }
  }

  /** With distinct ids, a batch member whose id was approved is the approved intent itself. */
  lemma SameIdSameIntent(intents: seq<TradeIntent>, p: Policy, x: TradeIntent)
    requires DistinctIds(intents) && x in intents && x.intentId in IdsOf(Approved(intents, p))
    ensures multiset(Approved(intents, p))[x] == 1 && multiset(intents)[x] == 1
  {
    hide Greedy, Ranked;
    var r := Ranked(intents);
    RankedSorts(intents);
    DistinctIdsOfPermutation(intents, r);
    GreedyMembers(r, p);
    var y :| y in Greedy(r, p) && y.intentId == x.intentId;
    MemberOfPermutation(intents, r, y);
    assert y == x by {
      var i :| 0 <= i < |intents| && intents[i] == x;
      var j :| 0 <= j < |intents| && intents[j] == y;
      assert i == j;
    }
    ApprovedOnce(r, p, x);
    SingleOccurrence(intents, x);
  }

  /** With distinct ids nothing is dropped: approved and rejected partition the batch. */
  lemma DistinctIdsPartition(intents: seq<TradeIntent>, p: Policy)
    requires DistinctIds(intents)
    ensures multiset(Approved(intents, p)) + multiset(Rejected(intents, p)) == multiset(intents)
    ensures DistinctIds(Rejected(intents, p) + Approved(intents, p))
  {
    hide Approved, Rejected;
    forall x | x in intents && x.intentId in IdsOf(Approved(intents, p))
      ensures multiset(Approved(intents, p))[x] == multiset(intents)[x]
    {
      SameIdSameIntent(intents, p, x);
    }
    PartitionIffNothingDropped(intents, p);
    assert multiset(Rejected(intents, p) + Approved(intents, p)) == multiset(intents);
    DistinctIdsOfPermutation(intents, Rejected(intents, p) + Approved(intents, p));
  }

  /** Repeating an id can lose an intent: the second copy is in neither list. */
  lemma RepeatedIdLosesIntent(p: Policy, x: TradeIntent, y: TradeIntent)
    requires p.topN >= 1 && p.maxPerInstrument == 1
    requires x.intentId == y.intentId && x.instrumentId == y.instrumentId && x.edge > y.edge
    ensures Approved([x, y], p) == [x] && Rejected([x, y], p) == []
  {
    assert [x, y][..1] == [x] && [x][..0] == [] && [] + [x] == [x];
    assert Ranked([x]) == [x] && Ranked([x, y]) == [x, y];
    CountSnoc([], x, Instrument(y.instrumentId));
    assert Greedy([x], p) == [x];
    assert Greedy([x, y], p) == [x];
    assert WithoutIds([x], IdsOf([x])) == [];
  }

  /** The order of arrival changes neither who is approved nor in which order. */
  lemma ArrivalOrderIrrelevant(xs: seq<TradeIntent>, ys: seq<TradeIntent>, p: Policy)
    requires multiset(xs) == multiset(ys) && DistinctIds(xs)
    ensures Approved(xs, p) == Approved(ys, p)
    ensures multiset(Rejected(xs, p)) == multiset(Rejected(ys, p))
  {
    hide Greedy, Ranked, Rejected;
    RankedIgnoresArrival(xs, ys);
    DistinctIdsOfPermutation(xs, ys);
    DistinctIdsPartition(xs, p);
    DistinctIdsPartition(ys, p);
    var a := multiset(Approved(xs, p));
    assert multiset(Rejected(xs, p)) == a + multiset(Rejected(xs, p)) - a;
    assert multiset(Rejected(ys, p)) == a + multiset(Rejected(ys, p)) - a;
  }

  /* ---- When a loss is approved, said of the batch ------------------------------------------ */

  ghost function Gains(xs: seq<TradeIntent>): seq<TradeIntent> {
    Chosen(xs, set x | x in xs && x.edge >= 0.0)
  }

  ghost function Instruments(xs: seq<TradeIntent>): set<string> {
    set x | x in xs :: x.instrumentId
  }

  function Capped(cap: nat, n: nat): nat {
    if n <= cap then n else cap
  }

  /** How many members of xs there are on these instruments, counting at most `cap` on each. */
  ghost function Filled(ids: set<string>, xs: seq<TradeIntent>, cap: nat): nat {
    if ids == {} then 0
    else
      var id :| id in ids;
      Capped(cap, Count(xs, Instrument(id))) + Filled(ids - {id}, xs, cap)
  }

  lemma {:induction false} FilledWithout(ids: set<string>, xs: seq<TradeIntent>, cap: nat, id: string)
    requires id in ids
    ensures Filled(ids, xs, cap) == Capped(cap, Count(xs, Instrument(id))) + Filled(ids - {id}, xs, cap)
    decreases |ids|
  {
    hide Count, Capped;
    var first :| first in ids && Filled(ids, xs, cap) ==
                                 Capped(cap, Count(xs, Instrument(first))) + Filled(ids - {first}, xs, cap);
    if first != id {
      FilledWithout(ids - {first}, xs, cap, id);
      FilledWithout(ids - {id}, xs, cap, first);
      assert ids - {first} - {id} == ids - {id} - {first};
    }
  }

  lemma {:induction false} FilledAtMost(ids: set<string>, xs: seq<TradeIntent>, c: nat, ys: seq<TradeIntent>, d: nat)
    requires forall id :: id in ids ==> Capped(c, Count(xs, Instrument(id))) <= Capped(d, Count(ys, Instrument(id)))
    ensures Filled(ids, xs, c) <= Filled(ids, ys, d)
    decreases |ids|
  {
    hide Count, Capped;
    if ids != {} {
      var id :| id in ids;
      FilledWithout(ids, xs, c, id);
      FilledWithout(ids, ys, d, id);
      FilledAtMost(ids - {id}, xs, c, ys, d);
    }
  }

  lemma {:induction false} FilledIsLength(ids: set<string>, xs: seq<TradeIntent>, cap: nat)
    requires cap >= |xs| && Instruments(xs) <= ids
    ensures Filled(ids, xs, cap) == |xs|
  {
    if |xs| == 0 {
      FilledByNone(ids, cap);
    } else {
      var x, init := xs[|xs| - 1], xs[..|xs| - 1];
      assert x in xs;
      forall y | y in init ensures y.instrumentId in ids {
        assert y in xs;
      }
      FilledIsLength(ids, init, cap);
      assert x.instrumentId in Instruments(xs);
      FilledWithout(ids, xs, cap, x.instrumentId);
      FilledWithout(ids, init, cap, x.instrumentId);
      FilledAtMost(ids - {x.instrumentId}, xs, cap, init, cap);
      FilledAtMost(ids - {x.instrumentId}, init, cap, xs, cap);
    }
  }

  lemma {:induction false} FilledByNone(ids: set<string>, cap: nat)
    ensures Filled(ids, [], cap) == 0
    decreases |ids|
  {
    if ids != {} {
      var id :| id in ids;
      FilledWithout(ids, [], cap, id);
      FilledByNone(ids - {id}, cap);
    }
  }

  /** With one intent per strategy the pass fills every instrument up to its cap, unless top_n stops it. */
  lemma {:induction false} GreedyFills(r: seq<TradeIntent>, p: Policy, id: string)
    requires OnePerStrategy(r)
    ensures var full := Capped(NonNegative(p.maxPerInstrument), Count(r, Instrument(id)));
            && Count(Greedy(r, p), Instrument(id)) <= full
            && (|Greedy(r, p)| < p.topN ==> Count(Greedy(r, p), Instrument(id)) == full)
  {
    hide StrategyCap;
    if |r| > 0 {
      var x, init := r[|r| - 1], r[..|r| - 1];
      GreedyFills(init, p, id);
      StrategyNotSeen(init, x, p);
      CountSnoc(Greedy(init, p), x, Instrument(id));
      assert init + [x] == r;
    }
  }

  /** How far the pass fills a ranking: up to top_n, or all its instruments up to their caps. */
  lemma GreedyLength(r: seq<TradeIntent>, p: Policy, ids: set<string>)
    requires OnePerStrategy(r) && Instruments(r) <= ids
    ensures |Greedy(r, p)| < p.topN <==> Filled(ids, r, NonNegative(p.maxPerInstrument)) < p.topN
  {
    hide Greedy, Count, Filled;
    var g, cap := Greedy(r, p), NonNegative(p.maxPerInstrument);
    GreedyMembers(r, p);
    FilledIsLength(ids, g, |g|);
    CountsWithinCaps(r, p, Instrument(""));
    forall id {
      GreedyFills(r, p, id);
    }
    FilledAtMost(ids, g, |g|, r, cap);
    if |g| < p.topN {
      FilledAtMost(ids, r, cap, g, |g|);
    }
  }

  /** In a ranking the gains stand before the losses. */
  lemma {:induction false} GainsFirst(r: seq<TradeIntent>) returns (n: nat)
    requires IsRanked(r)
    ensures n <= |r| && forall k :: 0 <= k < |r| ==> (r[k].edge >= 0.0 <==> k < n)
  {
    if |r| == 0 {
      n := 0;
    } else if r[|r| - 1].edge >= 0.0 {
      n := |r|;
    } else {
      n := GainsFirst(r[..|r| - 1]);
    }
  }

  lemma {:induction false} ChosenFront(r: seq<TradeIntent>, n: nat, F: set<TradeIntent>)
    requires n <= |r| && forall k :: 0 <= k < |r| ==> (r[k] in F <==> k < n)
    ensures Chosen(r, F) == r[..n]
  {
    if |r| > 0 {
      var init := r[..|r| - 1];
      ChosenFront(init, if n < |r| then n else n - 1, F);
      if n < |r| {
        assert init[..n] == r[..n];
      } else {
        assert init[..n - 1] + [r[n - 1]] == r[..n];
      }
    }
  }

  /** On a ranking whose first n members are the gains, a loss is approved exactly when room is left behind them. */
  lemma LossApprovedInRanking(r: seq<TradeIntent>, n: nat, p: Policy)
    requires DistinctIds(r) && OnePerStrategy(r)
    requires n <= |r| && forall k :: 0 <= k < |r| ==> (r[k].edge >= 0.0 <==> k < n)
    ensures (exists x :: x in Greedy(r, p) && x.edge < 0.0) <==>
            |Greedy(r[..n], p)| < p.topN &&
            exists k :: n <= k < |r| && Count(r[..n], Instrument(r[k].instrumentId)) < p.maxPerInstrument
  {
    hide Greedy, Accepts, Count;
    assert r[..|r|] == r;
    if x :| x in Greedy(r, p) && x.edge < 0.0 {
      GreedyMembers(r, p);
      var k :| 0 <= k < |r| && r[k] == x;
      HadRoom(r, |r|, k, p);
      RoomLeft(r, n, k, p);
    }
    if |Greedy(r[..n], p)| < p.topN {
      if k :| n <= k < |r| && Count(r[..n], Instrument(r[k].instrumentId)) < p.maxPerInstrument {
        LossFindsRoom(r, n, k, p);
      }
    }
  }

  lemma CountOfPrefix(xs: seq<TradeIntent>, ys: seq<TradeIntent>, g: Group)
    requires xs <= ys
    ensures Count(xs, g) <= Count(ys, g)
  {
    if |xs| < |ys| {
      CountOfPrefix(xs, ys[..|ys| - 1], g);
    } else {
      assert xs == ys;
    }
  }

  lemma RoomLeft(r: seq<TradeIntent>, n: nat, k: nat, p: Policy)
    requires OnePerStrategy(r) && n <= k < |r| && Accepts(Greedy(r[..k], p), r[k], p)
    ensures |Greedy(r[..n], p)| < p.topN && Count(r[..n], Instrument(r[k].instrumentId)) < p.maxPerInstrument
  {
    hide Greedy, Count;
    var g := Instrument(r[k].instrumentId);
    GreedyExtends(r, n, k, p);
    CountOfPrefix(Greedy(r[..n], p), Greedy(r[..k], p), g);
    GreedyFills(r[..n], p, r[k].instrumentId);
  }

  lemma LossFindsRoom(r: seq<TradeIntent>, n: nat, k: nat, p: Policy)
    requires OnePerStrategy(r) && n <= k < |r|
    requires forall j :: 0 <= j < |r| ==> (r[j].edge >= 0.0 <==> j < n)
    requires |Greedy(r[..n], p)| < p.topN && Count(r[..n], Instrument(r[k].instrumentId)) < p.maxPerInstrument
    ensures exists x :: x in Greedy(r, p) && x.edge < 0.0
  {
    hide Greedy, Count, StrategyCap;
    var g, h := Greedy(r[..n], p), Greedy(r[..k], p);
    GreedyExtends(r, n, k, p);
    GreedyExtends(r, k, |r|, p);
    assert r[..|r|] == r;
    if g == h {
      GreedyFills(r[..n], p, r[k].instrumentId);
      assert r[..k] + [r[k]] == r[..k + 1];
      StrategyNotSeen(r[..k], r[k], p);
      RoomMeansApproved(r, k, p);
    } else {
      var x := h[|g|];
      assert x == Greedy(r, p)[|g|];
      LaterApproval(r, n, k, p, |g|);
    }
  }

  /** What is approved behind the first n members is one of the later ones. */
  lemma {:induction false} LaterApproval(r: seq<TradeIntent>, n: nat, k: nat, p: Policy, j: nat)
    requires n <= k <= |r| && |Greedy(r[..n], p)| <= j < |Greedy(r[..k], p)|
    ensures exists l :: n <= l < k && r[l] == Greedy(r[..k], p)[j]
    decreases k
  {
    hide Greedy, Accepts;
    if n < k {
      GreedySnoc(r, k - 1, p);
      if j < |Greedy(r[..k - 1], p)| {
        LaterApproval(r, n, k - 1, p, j);
      } else {
        assert Greedy(r[..k], p)[j] == r[k - 1];
      }
    }
  }

  /** The gains leave room under top_n, and under the instrument cap of some loss. */
  ghost predicate RoomForLoss(intents: seq<TradeIntent>, p: Policy) {
    && Filled(Instruments(intents), Gains(intents), NonNegative(p.maxPerInstrument)) < p.topN
    && exists x :: x in intents && x.edge < 0.0
                   && Count(Gains(intents), Instrument(x.instrumentId)) < p.maxPerInstrument
  }

  /**
   * With one intent per strategy, the approved intents are worth the maximum over all selections
   * within top_n and the instrument cap exactly when the gains of the batch leave no room for a loss.
   */
  lemma OptimalIff(intents: seq<TradeIntent>, p: Policy)
    requires DistinctIds(intents) && OnePerStrategy(intents)
    ensures Optimal(intents, p) <==> !RoomForLoss(intents, p)
  {
    hide Optimal, Greedy, Ranked, Filled, Count, Gains;
    var r := Ranked(intents);
    RankedSorts(intents);
    DistinctIdsOfPermutation(intents, r);
    OnePerStrategyOfPermutation(intents, r);
    OptimalIffNoLossApproved(intents, p);
    var n := GainsFirst(r);
    LossApprovedInRanking(r, n, p);
    GainsOfRanking(intents, r, n);
    forall x {
      MemberOfPermutation(intents, r, x);
    }
    GreedyLength(r[..n], p, Instruments(intents));
    FilledAtMost(Instruments(intents), r[..n], NonNegative(p.maxPerInstrument),
                 Gains(intents), NonNegative(p.maxPerInstrument));
    FilledAtMost(Instruments(intents), Gains(intents), NonNegative(p.maxPerInstrument),
                 r[..n], NonNegative(p.maxPerInstrument));
    assert (exists k :: n <= k < |r| && Count(r[..n], Instrument(r[k].instrumentId)) < p.maxPerInstrument) <==>
           exists x :: x in intents && x.edge < 0.0
                       && Count(Gains(intents), Instrument(x.instrumentId)) < p.maxPerInstrument;
  }

  /** The gains of the batch are the first n of its ranking, up to order. */
  lemma GainsOfRanking(intents: seq<TradeIntent>, r: seq<TradeIntent>, n: nat)
    requires multiset(intents) == multiset(r) && n <= |r|
    requires forall k :: 0 <= k < |r| ==> (r[k].edge >= 0.0 <==> k < n)
    ensures forall g :: Count(Gains(intents), g) == Count(r[..n], g)
  {
    hide Count, Chosen;
    var F := set x | x in intents && x.edge >= 0.0;
    forall x {
      MemberOfPermutation(intents, r, x);
    }
    ChosenFront(r, n, F);
    ChosenOfPermutation(intents, r, F);
    forall g: Group {
      PermutationInvariant(Chosen(intents, F), r[..n], g);
    }
  }
}
