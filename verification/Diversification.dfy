/** Ranking and capped greedy selection of a batch of intents. */
module Diversification {
  import opened Models

  /** max_gross_risk_pct is carried by the policy and read by nothing. */
  datatype Policy = Policy(topN: int, maxPerInstrument: int, maxPerStrategy: real, maxGrossRiskPct: real)

  function StrategyCap(p: Policy): (cap: nat)
    ensures cap >= 1
  {
    var scaled := Truncate(p.topN as real * p.maxPerStrategy);
    if scaled > 1 then scaled else 1
  }

  /** A strategy may have n approved intents exactly if n is within its share of top_n, or is one. */
  lemma StrategyCapIsShare(p: Policy, n: nat)
    ensures n <= StrategyCap(p) <==> n as real <= Max(1.0, p.topN as real * p.maxPerStrategy)
  {
  }

  /** The two families of counters kept by the selection loop. */
  datatype Group = Instrument(id: string) | Strategy(id: string)

  predicate Matches(g: Group, x: TradeIntent) {
    match g
    case Instrument(id) => x.instrumentId == id
    case Strategy(id) => x.strategyId == id
  }

  function CapOf(p: Policy, g: Group): int {
    match g
    case Instrument(_) => p.maxPerInstrument
    case Strategy(_) => StrategyCap(p)
  }

  function Count(xs: seq<TradeIntent>, g: Group): (n: nat)
    ensures n <= |xs|
  {
    if |xs| == 0 then 0
    else Count(xs[..|xs| - 1], g) + if Matches(g, xs[|xs| - 1]) then 1 else 0
  }

  function TotalEdge(xs: seq<TradeIntent>): real {
    if |xs| == 0 then 0.0 else TotalEdge(xs[..|xs| - 1]) + xs[|xs| - 1].edge
  }

  ghost predicate DistinctIds(xs: seq<TradeIntent>) {
    forall i, j :: 0 <= i < j < |xs| ==> xs[i].intentId != xs[j].intentId
  }

  /* ---- Ranking ------------------------------------------------------------------- */

  /** a has the smaller sort key: higher edge first, then the smaller id. */
  predicate Ahead(a: TradeIntent, b: TradeIntent) {
    a.edge > b.edge || (a.edge == b.edge && a.intentId < b.intentId)
  }

  ghost predicate IsRanked(xs: seq<TradeIntent>) {
    forall i, j :: 0 <= i < j < |xs| ==> !Ahead(xs[j], xs[i])
  }

  /** Stable insertion: x goes behind everything it is not strictly ahead of. */
  function Insert(xs: seq<TradeIntent>, x: TradeIntent): seq<TradeIntent> {
    if |xs| == 0 then [x]
    else if Ahead(x, xs[|xs| - 1]) then Insert(xs[..|xs| - 1], x) + [xs[|xs| - 1]]
    else xs + [x]
  }

  lemma {:induction false} InsertIsPermutation(xs: seq<TradeIntent>, x: TradeIntent)
    ensures multiset(Insert(xs, x)) == multiset(xs) + multiset{x}
  {
    if |xs| > 0 {
      assert xs == xs[..|xs| - 1] + [xs[|xs| - 1]];
      InsertIsPermutation(xs[..|xs| - 1], x);
    }
  }

  lemma {:induction false} InsertKeepsRank(xs: seq<TradeIntent>, x: TradeIntent)
    requires IsRanked(xs)
    ensures IsRanked(Insert(xs, x))
  {
    if |xs| > 0 {
      var last, init := xs[|xs| - 1], xs[..|xs| - 1];
      if Ahead(x, last) {
        InsertKeepsRank(init, x);
        InsertIsPermutation(init, x);
        forall y | y in Insert(init, x) ensures !Ahead(last, y) {
          assert y in multiset(Insert(init, x));
          assert y == x || y in init;
        }
      } else {
        forall i | 0 <= i < |xs| ensures !Ahead(x, xs[i]) {
          assert i == |xs| - 1 || !Ahead(last, xs[i]);
        }
      }
    }
  }

  /** sorted(intents, key=...): a stable sort by the key. */
  function Ranked(xs: seq<TradeIntent>): seq<TradeIntent> {
    if |xs| == 0 then [] else Insert(Ranked(xs[..|xs| - 1]), xs[|xs| - 1])
  }

  /** The ranking is a sorted permutation of the batch. */
  lemma {:induction false} RankedSorts(xs: seq<TradeIntent>)
    ensures multiset(Ranked(xs)) == multiset(xs) && |Ranked(xs)| == |xs|
    ensures IsRanked(Ranked(xs))
  {
    hide Insert, Ahead, IsRanked;
    if |xs| > 0 {
      var init := xs[..|xs| - 1];
      assert xs == init + [xs[|xs| - 1]];
      RankedSorts(init);
      InsertIsPermutation(Ranked(init), xs[|xs| - 1]);
      InsertKeepsRank(Ranked(init), xs[|xs| - 1]);
    } else {
      NothingToRank();
    }
    assert |multiset(Ranked(xs))| == |Ranked(xs)| && |multiset(xs)| == |xs|;
  }

  lemma NothingToRank()
    ensures IsRanked([])
  {
  }

  lemma MemberOfPermutation(xs: seq<TradeIntent>, ys: seq<TradeIntent>, x: TradeIntent)
    requires multiset(xs) == multiset(ys)
    ensures x in xs <==> x in ys
  {
    assert x in xs <==> x in multiset(xs);
    assert x in ys <==> x in multiset(ys);
  }

  /** Distinctness of ids is a property of the multiset alone. */
  lemma DistinctIdsOfPermutation(xs: seq<TradeIntent>, ys: seq<TradeIntent>)
    requires multiset(xs) == multiset(ys) && DistinctIds(xs)
    ensures DistinctIds(ys)
  {
    forall i, j | 0 <= i < j < |ys| ensures ys[i].intentId != ys[j].intentId {
      var a, b := ys[i], ys[j];
      MemberOfPermutation(xs, ys, a);
      MemberOfPermutation(xs, ys, b);
      if a == b {
        Multiplicity(ys, i, j);
        SingleOccurrence(xs, a);
        assert false;
      } else {
        var k :| 0 <= k < |xs| && xs[k] == a;
        var l :| 0 <= l < |xs| && xs[l] == b;
        assert k != l;
      }
    }
  }

  lemma Multiplicity(ys: seq<TradeIntent>, i: nat, j: nat)
    requires i < j < |ys| && ys[i] == ys[j]
    ensures multiset(ys)[ys[i]] >= 2
  {
    var front, back := ys[..i + 1], ys[i + 1..];
    assert ys == front + back;
    assert front[i] in multiset(front) && back[j - i - 1] in multiset(back);
  }

  lemma {:induction false} SingleOccurrence(xs: seq<TradeIntent>, x: TradeIntent)
    requires DistinctIds(xs)
    ensures multiset(xs)[x] <= 1
  {
    if |xs| > 0 {
      var init := xs[..|xs| - 1];
      assert xs == init + [xs[|xs| - 1]];
      SingleOccurrence(init, x);
      if xs[|xs| - 1] == x {
        assert forall k :: 0 <= k < |init| ==> init[k] == xs[k] && init[k].intentId != x.intentId;
        assert x !in init;
      }
    }
  }

  /** Whatever is ranked last is behind everything else, so it can only be one intent. */
  lemma LastIsDetermined(xs: seq<TradeIntent>, ys: seq<TradeIntent>)
    requires |xs| > 0 && |ys| > 0 && multiset(xs) == multiset(ys)
    requires DistinctIds(xs) && IsRanked(xs) && IsRanked(ys)
    ensures xs[|xs| - 1] == ys[|ys| - 1]
  {
    var a, b := xs[|xs| - 1], ys[|ys| - 1];
    MemberOfPermutation(xs, ys, a);
    MemberOfPermutation(xs, ys, b);
    var j :| 0 <= j < |ys| && ys[j] == a;
    var k :| 0 <= k < |xs| && xs[k] == b;
    assert k < |xs| - 1 ==> !Ahead(a, b) && a.intentId != b.intentId;
    assert j < |ys| - 1 ==> !Ahead(b, a);
  }

  lemma InitKeepsOrder(xs: seq<TradeIntent>)
    requires |xs| > 0 && DistinctIds(xs) && IsRanked(xs)
    ensures DistinctIds(xs[..|xs| - 1]) && IsRanked(xs[..|xs| - 1])
  {
  }

  lemma InitMultiset(xs: seq<TradeIntent>)
    requires |xs| > 0
    ensures multiset(xs[..|xs| - 1]) == multiset(xs) - multiset{xs[|xs| - 1]}
  {
    assert xs == xs[..|xs| - 1] + [xs[|xs| - 1]];
  }

  /** With distinct ids the ranking is the only ranked arrangement of the batch. */
  lemma {:induction false} RankedIsUnique(xs: seq<TradeIntent>, ys: seq<TradeIntent>)
    requires multiset(xs) == multiset(ys)
    requires DistinctIds(xs) && IsRanked(xs) && DistinctIds(ys) && IsRanked(ys)
    ensures xs == ys
  {
    hide DistinctIds, IsRanked;
    assert |multiset(xs)| == |xs| && |multiset(ys)| == |ys|;
    if |xs| > 0 {
      LastIsDetermined(xs, ys);
      InitKeepsOrder(xs);
      InitKeepsOrder(ys);
      InitMultiset(xs);
      InitMultiset(ys);
      RankedIsUnique(xs[..|xs| - 1], ys[..|ys| - 1]);
      assert xs == xs[..|xs| - 1] + [xs[|xs| - 1]];
      assert ys == ys[..|ys| - 1] + [ys[|ys| - 1]];
    }
  }

  /** The ranking does not depend on the order in which the intents arrived. */
  lemma RankedIgnoresArrival(xs: seq<TradeIntent>, ys: seq<TradeIntent>)
    requires multiset(xs) == multiset(ys) && DistinctIds(xs)
    ensures Ranked(xs) == Ranked(ys)
  {
    RankedSorts(xs);
    RankedSorts(ys);
    DistinctIdsOfPermutation(xs, Ranked(xs));
    DistinctIdsOfPermutation(xs, Ranked(ys));
    RankedIsUnique(Ranked(xs), Ranked(ys));
  }

  /* ---- Greedy selection ---------------------------------------------------------- */

  /** The three caps as the loop tests them before it approves x. */
  predicate Accepts(approved: seq<TradeIntent>, x: TradeIntent, p: Policy) {
    && |approved| < p.topN
    && Count(approved, Instrument(x.instrumentId)) < p.maxPerInstrument
    && Count(approved, Strategy(x.strategyId)) < StrategyCap(p)
  }

  /** The intents approved after the loop has looked at all of `ranked`. */
  function Greedy(ranked: seq<TradeIntent>, p: Policy): seq<TradeIntent> {
    if |ranked| == 0 then []
    else
      var g := Greedy(ranked[..|ranked| - 1], p);
      var x := ranked[|ranked| - 1];
      if Accepts(g, x, p) then g + [x] else g
  }

  lemma {:induction false} GreedyMembers(ranked: seq<TradeIntent>, p: Policy)
    ensures forall x :: x in Greedy(ranked, p) ==> x in ranked
  {
    if |ranked| > 0 {
      GreedyMembers(ranked[..|ranked| - 1], p);
      assert ranked == ranked[..|ranked| - 1] + [ranked[|ranked| - 1]];
    }
  }

  lemma CountSnoc(xs: seq<TradeIntent>, x: TradeIntent, g: Group)
    ensures Count(xs + [x], g) == Count(xs, g) + if Matches(g, x) then 1 else 0
  {
    assert (xs + [x])[..|xs|] == xs;
  }

  /** Counts only grow along the ranking, and stay within the caps. */
  lemma {:induction false} CountsWithinCaps(ranked: seq<TradeIntent>, p: Policy, g: Group)
    ensures Count(Greedy(ranked, p), g) <= NonNegative(CapOf(p, g))
    ensures |Greedy(ranked, p)| <= NonNegative(p.topN)
  {
    hide StrategyCap;
    if |ranked| > 0 {
      CountsWithinCaps(ranked[..|ranked| - 1], p, g);
      CountSnoc(Greedy(ranked[..|ranked| - 1], p), ranked[|ranked| - 1], g);
    }
  }

  lemma AcceptedEarlier(g: seq<TradeIntent>, y: TradeIntent, x: TradeIntent, p: Policy)
    requires Accepts(g + [y], x, p)
    ensures Accepts(g, x, p)
  {
    hide StrategyCap;
    CountSnoc(g, y, Instrument(x.instrumentId));
    CountSnoc(g, y, Strategy(x.strategyId));
  }

  /** What is left out of the pass has no room beside what it approved. */
  lemma {:induction false} LeftOutHasNoRoom(ranked: seq<TradeIntent>, p: Policy, x: TradeIntent)
    requires x in ranked && x !in Greedy(ranked, p)
    ensures !Accepts(Greedy(ranked, p), x, p)
  {
    hide Accepts;
    var init, last := ranked[..|ranked| - 1], ranked[|ranked| - 1];
    assert ranked == init + [last];
    var g := Greedy(init, p);
    if x in init {
      LeftOutHasNoRoom(init, p, x);
      if Accepts(g + [last], x, p) {
        AcceptedEarlier(g, last, x, p);
      }
    }
  }

  function Approved(intents: seq<TradeIntent>, p: Policy): seq<TradeIntent> {
    Greedy(Ranked(intents), p)
  }

  function IdsOf(xs: seq<TradeIntent>): (ids: set<IntentId>)
    ensures forall x :: x in xs ==> x.intentId in ids
    ensures forall id :: id in ids ==> exists x :: x in xs && x.intentId == id
  {
    set x | x in xs :: x.intentId
  }

  /** [x for x in xs if x.intent_id not in ids]. */
  function WithoutIds(xs: seq<TradeIntent>, ids: set<IntentId>): (r: seq<TradeIntent>)
    ensures forall x :: x in r <==> x in xs && x.intentId !in ids
  {
    if |xs| == 0 then []
    else
      var r := WithoutIds(xs[..|xs| - 1], ids);
      assert xs == xs[..|xs| - 1] + [xs[|xs| - 1]];
      if xs[|xs| - 1].intentId in ids then r else r + [xs[|xs| - 1]]
  }

  function Rejected(intents: seq<TradeIntent>, p: Policy): seq<TradeIntent> {
    WithoutIds(intents, IdsOf(Approved(intents, p)))
  }

  /** What is left keeps its order. */
  lemma {:induction false} WithoutIdsInOrder(xs: seq<TradeIntent>, ids: set<IntentId>, i: nat, j: nat)
    requires i < j < |WithoutIds(xs, ids)|
    ensures exists a, b :: 0 <= a < b < |xs| && xs[a] == WithoutIds(xs, ids)[i] && xs[b] == WithoutIds(xs, ids)[j]
  {
    var r, init := WithoutIds(xs, ids), xs[..|xs| - 1];
    var before := WithoutIds(init, ids);
    if j < |before| {
      WithoutIdsInOrder(init, ids, i, j);
      var a, b :| 0 <= a < b < |init| && init[a] == before[i] && init[b] == before[j];
      assert xs[a] == r[i] && xs[b] == r[j];
    } else {
      assert before[i] in before;
      var a :| 0 <= a < |init| && init[a] == before[i];
      assert xs[a] == r[i] && xs[|xs| - 1] == r[j];
    }
  }

  /** The counter dictionary of one family of groups, read with a default of 0. */
  function Tally(counts: map<string, nat>, key: string): (n: nat) {
    if key in counts then counts[key] else 0
  }

  ghost predicate TalliesInstruments(counts: map<string, nat>, xs: seq<TradeIntent>) {
    forall c :: Tally(counts, c) == Count(xs, Instrument(c))
  }

  ghost predicate TalliesStrategies(counts: map<string, nat>, xs: seq<TradeIntent>) {
    forall c :: Tally(counts, c) == Count(xs, Strategy(c))
  }

  lemma BumpInstrument(counts: map<string, nat>, xs: seq<TradeIntent>, x: TradeIntent)
    requires TalliesInstruments(counts, xs)
    ensures TalliesInstruments(counts[x.instrumentId := Tally(counts, x.instrumentId) + 1], xs + [x])
  {
    forall c {
      CountSnoc(xs, x, Instrument(c));
    }
  }

  lemma BumpStrategy(counts: map<string, nat>, xs: seq<TradeIntent>, x: TradeIntent)
    requires TalliesStrategies(counts, xs)
    ensures TalliesStrategies(counts[x.strategyId := Tally(counts, x.strategyId) + 1], xs + [x])
  {
    forall c {
      CountSnoc(xs, x, Strategy(c));
    }
  }

  lemma GreedySnoc(ranked: seq<TradeIntent>, i: nat, p: Policy)
    requires i < |ranked|
    ensures var g := Greedy(ranked[..i], p);
            Greedy(ranked[..i + 1], p) == if Accepts(g, ranked[i], p) then g + [ranked[i]] else g
  {
    assert ranked[..i + 1][..i] == ranked[..i];
  }

  /** The approval loop of select_intents, with its two counter dictionaries. */
  method ApproveInOrder(ranked: seq<TradeIntent>, p: Policy) returns (approved: seq<TradeIntent>)
    ensures approved == Greedy(ranked, p)
  {
    var maxPerStrategy := StrategyCap(p);
    approved := [];
    var instrumentCounts: map<string, nat> := map[];
    var strategyCounts: map<string, nat> := map[];
    var i := 0;
    while i < |ranked|
      invariant 0 <= i <= |ranked|
      invariant approved == Greedy(ranked[..i], p)
      invariant TalliesInstruments(instrumentCounts, approved)
      invariant TalliesStrategies(strategyCounts, approved)
    {
      if |approved| >= p.topN {
        break;
      }
      var intent := ranked[i];
      GreedySnoc(ranked, i, p);
      i := i + 1;
      if Tally(instrumentCounts, intent.instrumentId) >= p.maxPerInstrument {
        continue;
      }
      if Tally(strategyCounts, intent.strategyId) >= maxPerStrategy {
        continue;
      }
      BumpInstrument(instrumentCounts, approved, intent);
      BumpStrategy(strategyCounts, approved, intent);
      approved := approved + [intent];
      instrumentCounts := instrumentCounts[intent.instrumentId := Tally(instrumentCounts, intent.instrumentId) + 1];
      strategyCounts := strategyCounts[intent.strategyId := Tally(strategyCounts, intent.strategyId) + 1];
    }
    if i < |ranked| {
      FullStaysFull(ranked, i, p);
    } else {
      assert ranked[..i] == ranked;
    }
  }

  /** One more intent like x would exceed top_n, the instrument cap or its strategy's share of top_n. */
  predicate LeavesNoRoom(approved: seq<TradeIntent>, x: TradeIntent, p: Policy) {
    || |approved| >= p.topN
    || Count(approved, Instrument(x.instrumentId)) >= p.maxPerInstrument
    || Count(approved, Strategy(x.strategyId)) as real + 1.0 > Max(1.0, p.topN as real * p.maxPerStrategy)
  }

  /**
   * No strategy has more approved intents than its share of top_n, a first one aside, and nothing is
   * refused that these limits leave room for.
   */
  ghost predicate SharesAreKept(approved: seq<TradeIntent>, rejected: seq<TradeIntent>, p: Policy) {
    && (forall id :: Count(approved, Strategy(id)) as real <= Max(1.0, p.topN as real * p.maxPerStrategy))
    && (forall x :: x in rejected ==> LeavesNoRoom(approved, x, p))
  }

  lemma RefusedForItsShare(approved: seq<TradeIntent>, x: TradeIntent, p: Policy)
    requires !Accepts(approved, x, p)
    ensures LeavesNoRoom(approved, x, p)
  {
    hide StrategyCap, Count;
    StrategyCapIsShare(p, Count(approved, Strategy(x.strategyId)) + 1);
  }

  lemma ApprovedWithinShare(ranked: seq<TradeIntent>, p: Policy, id: string)
    ensures Count(Greedy(ranked, p), Strategy(id)) as real <= Max(1.0, p.topN as real * p.maxPerStrategy)
  {
    hide StrategyCap, Count, Greedy;
    CountsWithinCaps(ranked, p, Strategy(id));
    StrategyCapIsShare(p, Count(Greedy(ranked, p), Strategy(id)));
  }

  lemma SelectionKeepsShares(intents: seq<TradeIntent>, p: Policy)
    ensures SharesAreKept(Approved(intents, p), Rejected(intents, p), p)
  {
    hide StrategyCap, Greedy, Ranked, Count, Accepts, Max, LeavesNoRoom;
    RankedSorts(intents);
    forall id {
      ApprovedWithinShare(Ranked(intents), p, id);
    }
    forall x | x in Rejected(intents, p) ensures LeavesNoRoom(Approved(intents, p), x, p) {
      MemberOfPermutation(intents, Ranked(intents), x);
      LeftOutHasNoRoom(Ranked(intents), p, x);
      RefusedForItsShare(Approved(intents, p), x, p);
    }
  }

  /** The rejected intents stand in order of arrival. */
  lemma RejectedInArrivalOrder(intents: seq<TradeIntent>, p: Policy, i: nat, j: nat)
    requires i < j < |Rejected(intents, p)|
    ensures exists a, b :: 0 <= a < b < |intents| && intents[a] == Rejected(intents, p)[i]
                           && intents[b] == Rejected(intents, p)[j]
  {
    WithoutIdsInOrder(intents, IdsOf(Approved(intents, p)), i, j);
  }

  /** The ranking in terms of edges and ids. */
  lemma RankedOrder(intents: seq<TradeIntent>, i: nat, j: nat)
    requires i < j < |Ranked(intents)|
    ensures var a, b := Ranked(intents)[i], Ranked(intents)[j];
            a.edge > b.edge || (a.edge == b.edge && a.intentId <= b.intentId)
  {
    hide Ranked;
    RankedSorts(intents);
  }

  lemma NothingToSelect(p: Policy)
    ensures Approved([], p) == [] && Rejected([], p) == []
  {
  }

  /** select_intents: (approved, rejected), the rejected ones in order of arrival. */
  method SelectIntents(intents: seq<TradeIntent>, p: Policy)
    returns (approved: seq<TradeIntent>, rejected: seq<TradeIntent>)
    ensures approved == Approved(intents, p)
    ensures rejected == Rejected(intents, p)
    ensures SharesAreKept(approved, rejected, p)
  {
    hide SharesAreKept, StrategyCap, Greedy, Ranked;
    SelectionKeepsShares(intents, p);
    if |intents| == 0 {
      NothingToSelect(p);
      return [], [];
    }
    approved := ApproveInOrder(Ranked(intents), p);
    rejected := [];
    var approvedIds := IdsOf(approved);
    for k := 0 to |intents|
      invariant rejected == WithoutIds(intents[..k], approvedIds)
    {
      assert intents[..k + 1][..k] == intents[..k];
      if intents[k].intentId !in approvedIds {
        rejected := rejected + [intents[k]];
      }
    }
    assert intents[..|intents|] == intents;
  }

  /** Once top_n intents are approved, the rest of the ranking changes nothing. */
  lemma {:induction false} FullStaysFull(ranked: seq<TradeIntent>, i: nat, p: Policy)
    requires i <= |ranked| && |Greedy(ranked[..i], p)| >= p.topN
    ensures Greedy(ranked, p) == Greedy(ranked[..i], p)
  {
    if i == |ranked| {
      assert ranked[..i] == ranked;
    } else {
      var init := ranked[..|ranked| - 1];
      assert init[..i] == ranked[..i];
      FullStaysFull(init, i, p);
    }
  }
}
