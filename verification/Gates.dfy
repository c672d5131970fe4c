/** The gates an intent passes before an order: five pre-greek stages and the greek limits. */
module Gates {
  import opened Models

  datatype Rule =
    | MinEdge | MinLiquidity
    | BlockedRegime(tag: RegimeTag) | IntentRegime(tag: RegimeTag)
    | SessionBlackout
    | TradingStateInactive | UnderlyingQuoteStale | ChainSnapshotStale | DailyLossBudget | FeedUnhealthy
    | MaxNetDelta | MaxNetGamma | MaxNetVega

  datatype GateContext = GateContext(
    regimeTag: RegimeTag,
    sessionAllowsEntry: bool,
    flattenSignal: bool,
    minEdge: real,
    minLiquidity: real,
    blockedRegimes: set<RegimeTag>,
    tradingStateActive: bool,
    underlyingQuoteFresh: bool,
    chainSnapshotFresh: bool,
    dailyLossBreached: bool,
    feedHealthy: bool,
    requireChainSnapshot: bool)

  datatype GateResult = Passed | Failed(stage: GateStage, rules: seq<Rule>)

  function EvaluateEdge(intent: TradeIntent, c: GateContext): GateResult {
    if intent.edge < c.minEdge then Failed(EDGE, [MinEdge]) else Passed
  }

  function EvaluateLiquidity(intent: TradeIntent, c: GateContext): GateResult {
    if intent.liquidity < c.minLiquidity then Failed(LIQUIDITY, [MinLiquidity]) else Passed
  }

  function EvaluateRegime(intent: TradeIntent, c: GateContext): GateResult {
    if c.regimeTag in c.blockedRegimes then Failed(REGIME, [BlockedRegime(c.regimeTag)])
    else if intent.regimeTag in c.blockedRegimes then Failed(REGIME, [IntentRegime(intent.regimeTag)])
    else Passed
  }

  function EvaluateSession(intent: TradeIntent, c: GateContext): GateResult {
    if !c.sessionAllowsEntry then Failed(SESSION, [SessionBlackout]) else Passed
  }

  /** A conditional append. */
  function AddIf(rules: seq<Rule>, b: bool, r: Rule): (rs: seq<Rule>)
    ensures |rs| == 0 <==> |rules| == 0 && !b
  {
    if b then rules + [r] else rules
  }

  /** The context breaks an operational rule. */
  predicate BreaksRule(rule: Rule, c: GateContext) {
    match rule
    case TradingStateInactive => !c.tradingStateActive
    case UnderlyingQuoteStale => !c.underlyingQuoteFresh
    case ChainSnapshotStale => c.requireChainSnapshot && !c.chainSnapshotFresh
    case DailyLossBudget => c.dailyLossBreached
    case FeedUnhealthy => !c.feedHealthy
    case _ => false
  }

  /** The place of an operational rule in a report of breaches. */
  function Place(rule: Rule): nat {
    match rule
    case TradingStateInactive => 0
    case UnderlyingQuoteStale => 1
    case ChainSnapshotStale => 2
    case DailyLossBudget => 3
    case _ => 4
  }

  /** The operational rules the context breaks. */
  function OperationalBreaches(c: GateContext): seq<Rule> {
    var a := AddIf([], BreaksRule(TradingStateInactive, c), TradingStateInactive);
    var b := AddIf(a, BreaksRule(UnderlyingQuoteStale, c), UnderlyingQuoteStale);
    var d := AddIf(b, BreaksRule(ChainSnapshotStale, c), ChainSnapshotStale);
    var e := AddIf(d, BreaksRule(DailyLossBudget, c), DailyLossBudget);
    AddIf(e, BreaksRule(FeedUnhealthy, c), FeedUnhealthy)
  }

  function EvaluateOperational(intent: TradeIntent, c: GateContext): GateResult {
    if |OperationalBreaches(c)| > 0 then Failed(OPERATIONAL, OperationalBreaches(c)) else Passed
  }

  /** Exactly the broken rules with a place below n, each once, in their fixed order. */
  ghost predicate ReportsBreaches(rules: seq<Rule>, c: GateContext, n: nat) {
    && (forall rule :: rule in rules <==> BreaksRule(rule, c) && Place(rule) < n)
    && (forall i, j :: 0 <= i < j < |rules| ==> Place(rules[i]) < Place(rules[j]))
  }

  /** One conditional append reports one more rule. */
  lemma OneMoreRule(rules: seq<Rule>, c: GateContext, rule: Rule)
    requires rule in {TradingStateInactive, UnderlyingQuoteStale, ChainSnapshotStale, DailyLossBudget, FeedUnhealthy}
    requires ReportsBreaches(rules, c, Place(rule))
    ensures ReportsBreaches(AddIf(rules, BreaksRule(rule, c), rule), c, Place(rule) + 1)
  {
    var r := AddIf(rules, BreaksRule(rule, c), rule);
    forall other ensures other in r <==> BreaksRule(other, c) && Place(other) < Place(rule) + 1 {
      assert BreaksRule(other, c) && Place(other) == Place(rule) ==> other == rule;
    }
  }

  lemma NothingReported(c: GateContext)
    ensures ReportsBreaches([], c, 0)
  {
  }

  /** The appends in their order report every broken rule. */
  lemma BreachesAreReported(c: GateContext)
    ensures ReportsBreaches(OperationalBreaches(c), c, 5)
  {
    hide ReportsBreaches, BreaksRule, AddIf;
    NothingReported(c);
    var a := AddIf([], BreaksRule(TradingStateInactive, c), TradingStateInactive);
    OneMoreRule([], c, TradingStateInactive);
    var b := AddIf(a, BreaksRule(UnderlyingQuoteStale, c), UnderlyingQuoteStale);
    OneMoreRule(a, c, UnderlyingQuoteStale);
    var d := AddIf(b, BreaksRule(ChainSnapshotStale, c), ChainSnapshotStale);
    OneMoreRule(b, c, ChainSnapshotStale);
    OneMoreRule(d, c, DailyLossBudget);
    OneMoreRule(AddIf(d, BreaksRule(DailyLossBudget, c), DailyLossBudget), c, FeedUnhealthy);
  }

  lemma ReportedAny(rules: seq<Rule>, c: GateContext)
    requires ReportsBreaches(rules, c, 5)
    ensures |rules| > 0 <==> exists rule :: BreaksRule(rule, c)
  {
    if |rules| > 0 {
      assert rules[0] in rules;
    }
  }

  /**
   * evaluate_operational: the list of breaches grows by one conditional append after another. The
   * intent is refused exactly when some rule is broken, and the refusal names the broken rules.
   */
  method CollectOperational(intent: TradeIntent, c: GateContext) returns (r: GateResult)
    ensures r == EvaluateOperational(intent, c)
    ensures r.Failed? <==> exists rule :: BreaksRule(rule, c)
    ensures r.Failed? ==> r.stage == OPERATIONAL && ReportsBreaches(r.rules, c, 5)
  {
    hide ReportsBreaches;
    var breached := [];
    if !c.tradingStateActive {
      breached := breached + [TradingStateInactive];
    }
    if !c.underlyingQuoteFresh {
      breached := breached + [UnderlyingQuoteStale];
    }
    if c.requireChainSnapshot && !c.chainSnapshotFresh {
      breached := breached + [ChainSnapshotStale];
    }
    if c.dailyLossBreached {
      breached := breached + [DailyLossBudget];
    }
    if !c.feedHealthy {
      breached := breached + [FeedUnhealthy];
    }
    assert breached == OperationalBreaches(c);
    BreachesAreReported(c);
    ReportedAny(breached, c);
    r := if |breached| > 0 then Failed(OPERATIONAL, breached) else Passed;
  }

  /** The evaluator of each pre-greek stage, in pipeline order. */
  function Evaluate(k: nat, intent: TradeIntent, c: GateContext): GateResult
    requires k < 5
  {
    match k
    case 0 => EvaluateEdge(intent, c)
    case 1 => EvaluateLiquidity(intent, c)
    case 2 => EvaluateRegime(intent, c)
    case 3 => EvaluateSession(intent, c)
    case 4 => EvaluateOperational(intent, c)
  }

  /** The result of the pipeline from stage k on. */
  function PreGreekFrom(k: nat, intent: TradeIntent, c: GateContext): GateResult
    requires k <= 5
    decreases 5 - k
  {
    if k == 5 then Passed
    else if Evaluate(k, intent, c).Failed? then Evaluate(k, intent, c)
    else PreGreekFrom(k + 1, intent, c)
  }

  function PreGreek(intent: TradeIntent, c: GateContext): GateResult {
    PreGreekFrom(0, intent, c)
  }

  /** evaluate_pre_greek: the stages in order, returning at the first failure. */
  method EvaluatePreGreek(intent: TradeIntent, c: GateContext) returns (r: GateResult)
    ensures r == PreGreek(intent, c)
  {
    for k := 0 to 5
      invariant PreGreek(intent, c) == PreGreekFrom(k, intent, c)
    {
      if k == 4 {
        r := CollectOperational(intent, c);
      } else {
        r := Evaluate(k, intent, c);
      }
      if r.Failed? {
        return;
      }
    }
    r := Passed;
  }

  /* ---- Greek limits -------------------------------------------------------------------- */

  datatype Greeks = Greeks(delta: real, gamma: real, vega: real, theta: real)

  /** max_daily_loss and max_concentration_per_strike are carried and read by nothing. */
  datatype RiskPolicy = RiskPolicy(
    maxNetDelta: real,
    maxNetGamma: real,
    maxNetVega: real,
    spotShock: real,
    volShock: real,
    version: string)

  datatype RiskAssessment = RiskAssessment(
    passed: bool,
    rules: seq<Rule>,
    projected: Greeks,
    current: Greeks)

  function RiskBreaches(p: RiskPolicy, projected: Greeks): seq<Rule> {
    var a := AddIf([], Abs(projected.delta) > p.maxNetDelta, MaxNetDelta);
    var b := AddIf(a, Abs(projected.gamma) > p.maxNetGamma, MaxNetGamma);
    AddIf(b, Abs(projected.vega) > p.maxNetVega, MaxNetVega)
  }

  /** Exactly the exceeded limits, each once, delta before gamma before vega. */
  ghost predicate ReportsLimits(rules: seq<Rule>, p: RiskPolicy, g: Greeks) {
    && (forall rule :: rule in rules <==>
          || (rule.MaxNetDelta? && !(-p.maxNetDelta <= g.delta <= p.maxNetDelta))
          || (rule.MaxNetGamma? && !(-p.maxNetGamma <= g.gamma <= p.maxNetGamma))
          || (rule.MaxNetVega? && !(-p.maxNetVega <= g.vega <= p.maxNetVega)))
    && (forall i, j :: 0 <= i < j < |rules| ==>
          (rules[i].MaxNetDelta? && !rules[j].MaxNetDelta?) || (rules[i].MaxNetGamma? && rules[j].MaxNetVega?))
  }

  /** RiskPolicy.check. */
  method CheckRisk(p: RiskPolicy, current: Greeks, projected: Greeks) returns (a: RiskAssessment)
    ensures a == RiskAssessment(|RiskBreaches(p, projected)| == 0, RiskBreaches(p, projected), projected, current)
    ensures a.passed <==> WithinLimits(p, projected)
    ensures ReportsLimits(a.rules, p, projected)
  {
    var breached := [];
    if Abs(projected.delta) > p.maxNetDelta {
      breached := breached + [MaxNetDelta];
    }
    if Abs(projected.gamma) > p.maxNetGamma {
      breached := breached + [MaxNetGamma];
    }
    if Abs(projected.vega) > p.maxNetVega {
      breached := breached + [MaxNetVega];
    }
    assert breached == RiskBreaches(p, projected);
    a := RiskAssessment(|breached| == 0, breached, projected, current);
  }

  /** Every projected greek lies in the closed interval its limit allows. */
  predicate WithinLimits(p: RiskPolicy, g: Greeks) {
    && -p.maxNetDelta <= g.delta <= p.maxNetDelta
    && -p.maxNetGamma <= g.gamma <= p.maxNetGamma
    && -p.maxNetVega <= g.vega <= p.maxNetVega
  }

  /* ---- What passing means --------------------------------------------------------------- */

  /** The conditions under which nothing stops the intent before the greek check. */
  predicate Admissible(intent: TradeIntent, c: GateContext) {
    && intent.edge >= c.minEdge
    && intent.liquidity >= c.minLiquidity
    && c.regimeTag !in c.blockedRegimes && intent.regimeTag !in c.blockedRegimes
    && c.sessionAllowsEntry
    && c.tradingStateActive && c.underlyingQuoteFresh && c.feedHealthy && !c.dailyLossBreached
    && (c.requireChainSnapshot ==> c.chainSnapshotFresh)
  }

  /** The pipeline passes exactly the admissible intents. */
  lemma PreGreekPassesIff(intent: TradeIntent, c: GateContext)
    ensures PreGreek(intent, c).Passed? <==> Admissible(intent, c)
  {
    assert PreGreekFrom(5, intent, c).Passed?;
    assert PreGreekFrom(4, intent, c) == EvaluateOperational(intent, c);
    assert PreGreekFrom(3, intent, c).Passed? <==> c.sessionAllowsEntry && PreGreekFrom(4, intent, c).Passed?;
    assert PreGreekFrom(2, intent, c).Passed? <==>
           EvaluateRegime(intent, c).Passed? && PreGreekFrom(3, intent, c).Passed?;
    assert PreGreekFrom(1, intent, c).Passed? <==>
           EvaluateLiquidity(intent, c).Passed? && PreGreekFrom(2, intent, c).Passed?;
  }

  /** What the pre-greek stages say of an intent: where it is refused, and the rules it breaks there. */
  lemma RefusedWhere(intent: TradeIntent, c: GateContext)
    ensures var r := PreGreek(intent, c);
            if intent.edge < c.minEdge then r == Failed(EDGE, [MinEdge])
            else if intent.liquidity < c.minLiquidity then r == Failed(LIQUIDITY, [MinLiquidity])
            else if c.regimeTag in c.blockedRegimes then r == Failed(REGIME, [BlockedRegime(c.regimeTag)])
            else if intent.regimeTag in c.blockedRegimes then r == Failed(REGIME, [IntentRegime(intent.regimeTag)])
            else if !c.sessionAllowsEntry then r == Failed(SESSION, [SessionBlackout])
            else r.Passed? || (r.stage.OPERATIONAL? && |r.rules| > 0 && ReportsBreaches(r.rules, c, 5))
  {
    hide ReportsBreaches;
    BreachesAreReported(c);
    assert PreGreekFrom(5, intent, c).Passed?;
    assert PreGreekFrom(4, intent, c) == EvaluateOperational(intent, c);
    hide OperationalBreaches;
    assert EvaluateSession(intent, c).Passed? ==> PreGreekFrom(3, intent, c) == PreGreekFrom(4, intent, c);
    assert EvaluateRegime(intent, c).Passed? ==> PreGreekFrom(2, intent, c) == PreGreekFrom(3, intent, c);
    assert EvaluateLiquidity(intent, c).Passed? ==> PreGreekFrom(1, intent, c) == PreGreekFrom(2, intent, c);
  }

  /** A rejection comes from the first failing stage and names at least one rule. */
  lemma {:induction false} RejectionIsFirstFailure(k: nat, intent: TradeIntent, c: GateContext)
    requires k <= 5
    ensures PreGreekFrom(k, intent, c).Failed? ==>
              exists j :: k <= j < 5 && PreGreekFrom(k, intent, c) == Evaluate(j, intent, c) &&
                          Evaluate(j, intent, c).Failed? &&
                          (forall i :: k <= i < j ==> Evaluate(i, intent, c).Passed?)
    ensures PreGreekFrom(k, intent, c).Failed? ==> |PreGreekFrom(k, intent, c).rules| > 0
    ensures PreGreekFrom(k, intent, c).Failed? ==>
              PreGreekFrom(k, intent, c).stage in {EDGE, LIQUIDITY, REGIME, SESSION, OPERATIONAL}
    decreases 5 - k
  {
    if k < 5 && Evaluate(k, intent, c).Passed? {
      RejectionIsFirstFailure(k + 1, intent, c);
    } else if k < 5 {
      assert PreGreekFrom(k, intent, c) == Evaluate(k, intent, c);
    }
  }

  /** d is at least as strict as c in every threshold and observation. */
  predicate Stricter(c: GateContext, d: GateContext) {
    && d.minEdge >= c.minEdge && d.minLiquidity >= c.minLiquidity
    && d.blockedRegimes >= c.blockedRegimes && d.regimeTag == c.regimeTag
    && (d.sessionAllowsEntry ==> c.sessionAllowsEntry)
    && (d.tradingStateActive ==> c.tradingStateActive)
    && (d.underlyingQuoteFresh ==> c.underlyingQuoteFresh)
    && (d.feedHealthy ==> c.feedHealthy)
    && (c.dailyLossBreached ==> d.dailyLossBreached)
    && (c.requireChainSnapshot ==> d.requireChainSnapshot)
    && (d.chainSnapshotFresh ==> c.chainSnapshotFresh)
  }

  predicate StricterPolicy(p: RiskPolicy, q: RiskPolicy) {
    q.maxNetDelta <= p.maxNetDelta && q.maxNetGamma <= p.maxNetGamma && q.maxNetVega <= p.maxNetVega
  }

  /** Tightening any threshold or limit never admits an intent that was refused. */
  lemma TighteningNeverAdmits(intent: TradeIntent, c: GateContext, d: GateContext,
                              p: RiskPolicy, q: RiskPolicy, g: Greeks)
    requires Stricter(c, d) && StricterPolicy(p, q)
    ensures PreGreek(intent, d).Passed? ==> PreGreek(intent, c).Passed?
    ensures |RiskBreaches(q, g)| == 0 ==> |RiskBreaches(p, g)| == 0
  {
    PreGreekPassesIff(intent, c);
    PreGreekPassesIff(intent, d);
  }
}
