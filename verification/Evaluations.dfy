/** What one evaluation does: the intent it builds from what it was offered, and every way it can end. */
module Evaluations {
  import opened Models
  import opened Messages
  import opened Gates
  import opened Audit
  import opened StrategyFsm
  import opened StrategyTheorems
  import opened RunRecords

  /* ---- The intent ------------------------------------------------------------------------------- */

  /** The selection the strategy makes from the chain. */
  function Selection(s: Strategy, chain: Structures.Chain): Option<Structures.Spread> {
    if s.cfg.structureSelector.None? then None
    else
      Structures.SelectFromChain(s.cfg.structureSelector.value, chain, s.cfg.strikeWidth, s.cfg.minEdge,
                                 s.cfg.minLiquidity)
  }

  /** x is this strategy's intent for the spread, under the current regime, the underlying standing at u. */
  predicate IsIntentFor(x: TradeIntent, s: Strategy, spread: Structures.Spread, u: real) {
    && x.strategyId == s.cfg.strategyId && x.regimeTag == s.regimeTag && x.projectedGreeks == map[]
    && x.instrumentId == spread.instrumentId && x.edge == spread.edge && x.liquidity == spread.liquidity
    && x.rationale.netDebit == Some(spread.debit) && x.rationale.legIds == spread.legIds
    && x.rationale.notional.None? && x.rationale.underlyingMid == Some(u)
    && x.rationale.source == if s.cfg.structureSelector.Some? && s.cfg.structureSelector.value.venue.Deribit?
                             then "deribit_option_chain" else "ib_option_chain"
  }

  /**
   * Outside plumbing mode a chain is evaluated exactly if both actors have reported and a spread is selected
   * from it, and what is built is the intent for that spread.
   */
  lemma IntentIsTheSpread(s: Strategy, chain: Structures.Chain, id: IntentId)
    requires !s.cfg.plumbing
    ensures ContextFromChain(s, chain).Some? <==> s.sessionReceived && s.regimeReceived && Selection(s, chain).Some?
    ensures ContextFromChain(s, chain).Some? ==>
              var c, spread := ContextFromChain(s, chain).value, Selection(s, chain).value;
              var x := BuildIntent(s, c, id);
              && x.intentId == id && c.edge == x.edge && c.liquidity == x.liquidity
              && exists u :: Structures.PricedAt(chain, spread.low, u) && IsIntentFor(x, s, spread, u)
  {
    if ContextFromChain(s, chain).Some? {
      var c, spread := ContextFromChain(s, chain).value, Selection(s, chain).value;
      Structures.DefinedRisk(s.cfg.structureSelector.value, chain, s.cfg.strikeWidth, s.cfg.minEdge,
                             s.cfg.minLiquidity);
      NameIsNotEmpty(s, chain);
      var u := Structures.UnderlyingPrice(chain, spread.low);
      hide Structures.SelectFromChain, Structures.Cents;
      assert Structures.PricedAt(chain, spread.low, u) && IsIntentFor(BuildIntent(s, c, id), s, spread, u);
    }
  }

  lemma NameIsNotEmpty(s: Strategy, chain: Structures.Chain)
    requires Selection(s, chain).Some?
    ensures Selection(s, chain).value.instrumentId != ""
  {
    hide Structures.LowStrike, Structures.HighStrike, Structures.EdgeOf, Structures.StrikeText, Structures.CallQuote;
  }

  /** x is this strategy's plumbing intent: an edge of at least 10 bps and the minimum, for the instrument. */
  predicate IsPlumbingIntent(x: TradeIntent, s: Strategy, instrumentId: string, mid: real) {
    && x.strategyId == s.cfg.strategyId && x.regimeTag == s.regimeTag && x.projectedGreeks == map[]
    && x.instrumentId == instrumentId && x.rationale.underlyingMid == Some(mid)
    && x.edge >= 10.0 && x.edge >= s.cfg.minEdge && (x.edge == 10.0 || x.edge == s.cfg.minEdge)
    && x.rationale.netDebit.None? && x.rationale.notional.None? && x.rationale.legIds == []
  }

  /** In plumbing mode, and only there, a tick is evaluated: its mid, and at least the minimum liquidity. */
  lemma IntentIsTheTick(s: Strategy, instrumentId: string, quote: Costs.Quote, id: IntentId)
    ensures ContextFromTick(s, instrumentId, quote).Some? <==> s.cfg.plumbing && s.sessionReceived && s.regimeReceived
    ensures ContextFromTick(s, instrumentId, quote).Some? ==>
              var x := BuildIntent(s, ContextFromTick(s, instrumentId, quote).value, id);
              var m := Costs.LegMetrics(quote);
              && x.intentId == id && IsPlumbingIntent(x, s, instrumentId, m.mid)
              && x.liquidity >= m.liquidity && x.liquidity >= s.cfg.minLiquidity
              && (x.liquidity == m.liquidity || x.liquidity == s.cfg.minLiquidity)
  {
    hide Costs.LegMetrics;
  }

  /**
   * In plumbing mode a chain is evaluated at the quote of its at-the-money call, or where that is not
   * two-sided at the strike itself with full liquidity.
   */
  lemma IntentIsTheMoney(s: Strategy, chain: Structures.Chain, id: IntentId)
    requires s.cfg.plumbing
    ensures ContextFromChain(s, chain).Some? <==> s.sessionReceived && s.regimeReceived
    ensures ContextFromChain(s, chain).Some? ==>
              var x := BuildIntent(s, ContextFromChain(s, chain).value, id);
              var q := Structures.CallQuote(chain, chain.atm);
              && x.intentId == id
              && if |chain.strikes| > 0 && q.Some? && q.value.bid > 0.0 && q.value.ask > 0.0 then
                   && IsPlumbingIntent(x, s, chain.seriesId, Costs.LegMetrics(q.value).mid)
                   && x.liquidity == Costs.LegMetrics(q.value).liquidity
                 else IsPlumbingIntent(x, s, chain.seriesId, chain.atm) && x.liquidity == 1.0
  {
    hide Structures.CallQuote;
  }

  /* ---- How an evaluation ends ----------------------------------------------------------------------- */

  /** A record of this strategy. */
  function Note(s: Strategy, stage: GateStage, refId: Option<IntentId>, p: Payload): Audit.Entry {
    Audit.Entry(stage, refId, s.cfg.strategyId, p)
  }

  function Move(s: Strategy, from: StrategyState, to: StrategyState, why: Reason): Audit.Entry {
    Note(s, LIFECYCLE, s.activeIntentId, FsmTransition(from, to, why))
  }

  /** Without both actors nothing happens; without an intent the strategy is back at once. */
  lemma NoIntentEnds(s: Strategy, c: Context, i: Inputs)
    requires s.state.Flat?
    ensures !(s.sessionReceived && s.regimeReceived) ==> BeginEvaluation(s, c, i) == s
    ensures s.sessionReceived && s.regimeReceived && !i.builds ==>
              BeginEvaluation(s, c, i) ==
              s.(journal := s.journal + [Move(s, Flat, Evaluating, Signal), Move(s, Evaluating, Flat, NoIntent)])
  {
    hide ReadAll, Transition, RunGatePipeline, BuildIntent, Continues, SameVerdicts, SameIds, SameOutbox;
    var e := Transition(s, Evaluating, Signal);
    TransitionIs(s, Evaluating, Signal);
    TransitionIs(e, Flat, NoIntent);
  }

  /** Why an intent for the context is refused: the first stage in order, and the rules broken there. */
  ghost predicate RefusedFor(s: Strategy, c: Context, i: Inputs, stage: GateStage, rules: seq<Rule>) {
    var quoteIsRecent := Recent(i.now, s.lastQuoteTs, s.cfg.maxQuoteAgeSecs * 1000000000.0);
    var chainIsRecent := c.rationale.source == PLUMBING || Recent(i.now, s.lastChainTs,
      s.cfg.maxChainAgeSecs * 1000000000.0 + s.cfg.chainIntervalMs as real * 1000000.0);
    if c.edge < s.cfg.minEdge then stage == EDGE && rules == [MinEdge]
    else if c.liquidity < s.cfg.minLiquidity then stage == LIQUIDITY && rules == [MinLiquidity]
    else if s.regimeTag in s.cfg.blockedRegimes then stage == REGIME && rules == [BlockedRegime(s.regimeTag)]
    else if !s.sessionAllowsEntry then stage == SESSION && rules == [SessionBlackout]
    else if !quoteIsRecent || (s.cfg.requireChainSnapshot && !chainIsRecent) then
      && stage == OPERATIONAL
      && (forall rule :: rule in rules <==>
            || (rule.UnderlyingQuoteStale? && !quoteIsRecent)
            || (rule.ChainSnapshotStale? && s.cfg.requireChainSnapshot && !chainIsRecent))
    else stage == GREEK && ReportsLimits(rules, s.cfg.risk, GreeksOrZero(i.shocked))
  }

  lemma PreGreekRefusesFor(s: Strategy, intent: TradeIntent, c: Context, i: Inputs)
    requires intent.edge == c.edge && intent.liquidity == c.liquidity && intent.regimeTag == s.regimeTag
    ensures var pre := PreGreek(intent, GateContextOf(s, c, i.now));
            pre.Failed? ==> RefusedFor(s, c, i, pre.stage, pre.rules)
  {
    hide PreGreek, QuoteFresh, ChainFresh, Recent;
    var gates := GateContextOf(s, c, i.now);
    RefusedWhere(intent, gates);
    FreshMeansRecent(s, c, i.now);
    var pre := PreGreek(intent, gates);
    if pre.Failed? && pre.stage.OPERATIONAL? {
      assert pre.rules[0] in pre.rules && BreaksRule(pre.rules[0], gates);
    }
  }

  lemma LimitsRefuseFor(s: Strategy, intent: TradeIntent, c: Context, i: Inputs)
    requires intent.edge == c.edge && intent.liquidity == c.liquidity && intent.regimeTag == s.regimeTag
    requires PreGreek(intent, GateContextOf(s, c, i.now)).Passed?
    ensures RefusedFor(s, c, i, GREEK, RiskBreaches(s.cfg.risk, GreeksOrZero(i.shocked)))
  {
    PreGreekPassesIff(intent, GateContextOf(s, c, i.now));
    hide PreGreek, QuoteFresh, ChainFresh, Recent;
    FreshMeansRecent(s, c, i.now);
  }

  lemma RefusalIs(s: Strategy, stage: GateStage, x: TradeIntent, rules: seq<Rule>, why: Reason)
    ensures RefuseIntent(s, stage, x, rules, why) ==
            s.(state := Flat,
               journal := s.journal + [Note(s, stage, Some(x.intentId), GateReject(rules, x.intentId)),
                                       Move(s, s.state, Flat, why)])
  {
    hide ReadAll, Record, Transition, Continues, SameIds, SameOutbox, SameVerdicts;
    RecordIs(s, stage, Some(x.intentId), GateReject(rules, x.intentId));
    TransitionIs(Record(s, stage, Some(x.intentId), GateReject(rules, x.intentId)), Flat, why);
  }

  /** s after it has begun to evaluate. */
  function Begun(s: Strategy): Strategy {
    s.(state := Evaluating, journal := s.journal + [Move(s, s.state, Evaluating, Signal)])
  }

  /** The evaluation ends in Flat with the refusal recorded. */
  ghost predicate Refused(s: Strategy, t: Strategy, id: IntentId, stage: GateStage, rules: seq<Rule>) {
    t == s.(journal := s.journal + [Move(s, Flat, Evaluating, Signal),
                                    Note(s, stage, Some(id), GateReject(rules, id)),
                                    Move(s, Evaluating, Flat, if stage == GREEK then GreekRejected else GateRejected)])
  }

  lemma PipelineRefuses(e: Strategy, x: TradeIntent, c: Context, i: Inputs) returns (stage: GateStage, rules: seq<Rule>)
    requires x.edge == c.edge && x.liquidity == c.liquidity && x.regimeTag == e.regimeTag
    requires !GatesOpen(e, c, i)
    ensures RefusedFor(e, c, i, stage, rules)
    ensures RunGatePipeline(e, x, c, i) ==
            RefuseIntent(e, stage, x, rules, if stage == GREEK then GreekRejected else GateRejected)
  {
    hide PreGreek, QuoteFresh, ChainFresh, Recent, ReadAll, Record, AfterGates, RefuseIntent, RefusedFor;
    var pre := PreGreek(x, GateContextOf(e, c, i.now));
    PreGreekPassesIff(x, GateContextOf(e, c, i.now));
    FreshMeansRecent(e, c, i.now);
    if pre.Failed? {
      stage, rules := pre.stage, pre.rules;
      PreGreekRefusesFor(e, x, c, i);
      RefusedWhere(x, GateContextOf(e, c, i.now));
    } else {
      stage, rules := GREEK, RiskBreaches(e.cfg.risk, GreeksOrZero(i.shocked));
      LimitsRefuseFor(e, x, c, i);
    }
  }

  lemma BegunIs(s: Strategy, c: Context, i: Inputs)
    requires s.state.Flat? && ActorsReady(s) && i.builds
    ensures BeginEvaluation(s, c, i) == RunGatePipeline(Begun(s), BuildIntent(s, c, i.freshId), c, i)
    ensures BuildIntent(Begun(s), c, i.freshId) == BuildIntent(s, c, i.freshId)
  {
    hide ReadAll, Transition, RunGatePipeline, Continues, SameVerdicts, SameIds, SameOutbox;
    TransitionIs(s, Evaluating, Signal);
  }

  lemma BegunSame(s: Strategy, c: Context, i: Inputs)
    ensures GatesOpen(Begun(s), c, i) == GatesOpen(s, c, i)
    ensures forall stage, rules :: RefusedFor(Begun(s), c, i, stage, rules) <==> RefusedFor(s, c, i, stage, rules)
  {
    hide Recent, ReportsLimits, WithinLimits;
  }

  /** With a gate closed the intent is refused at the first closed one, and nothing else changes. */
  lemma ClosedGateRefuses(s: Strategy, c: Context, i: Inputs)
    requires s.state.Flat? && ActorsReady(s) && i.builds && !GatesOpen(s, c, i)
    ensures exists stage, rules ::
              RefusedFor(s, c, i, stage, rules) && Refused(s, BeginEvaluation(s, c, i), i.freshId, stage, rules)
  {
    hide ReadAll, RunGatePipeline, RefuseIntent, RefusedFor, GatesOpen;
    var x := BuildIntent(s, c, i.freshId);
    BegunIs(s, c, i);
    BegunSame(s, c, i);
    var stage, rules := PipelineRefuses(Begun(s), x, c, i);
    var why := if stage == GREEK then GreekRejected else GateRejected;
    RefusalIs(Begun(s), stage, x, rules, why);
    assert s.journal + [Move(s, Flat, Evaluating, Signal)] +
           [Note(s, stage, Some(i.freshId), GateReject(rules, i.freshId)), Move(s, Evaluating, Flat, why)] ==
           s.journal + [Move(s, Flat, Evaluating, Signal),
                        Note(s, stage, Some(i.freshId), GateReject(rules, i.freshId)), Move(s, Evaluating, Flat, why)];
    assert Refused(s, BeginEvaluation(s, c, i), i.freshId, stage, rules);
  }

  /** s with all gates passed for this intent. */
  function Passed(s: Strategy, id: IntentId): Strategy {
    s.(state := Evaluating,
       journal := s.journal + [Move(s, Flat, Evaluating, Signal), Note(s, GREEK, Some(id), GreekPassed(id))])
  }

  lemma OpenGatesPass(s: Strategy, c: Context, i: Inputs)
    requires s.state.Flat? && ActorsReady(s) && i.builds && GatesOpen(s, c, i)
    ensures BeginEvaluation(s, c, i) == AfterGates(Passed(s, i.freshId), BuildIntent(s, c, i.freshId), i)
  {
    hide ReadAll, AfterGates, RefuseIntent, PreGreek, Record, QuoteFresh, ChainFresh, Recent;
    var x, e := BuildIntent(s, c, i.freshId), Begun(s);
    BegunIs(s, c, i);
    BegunSame(s, c, i);
    PreGreekPassesIff(x, GateContextOf(e, c, i.now));
    FreshMeansRecent(e, c, i.now);
    RecordIs(e, GREEK, Some(i.freshId), GreekPassed(i.freshId));
    var signal, passed := Move(s, Flat, Evaluating, Signal), Note(s, GREEK, Some(i.freshId), GreekPassed(i.freshId));
    assert s.journal + [signal] + [passed] == s.journal + [signal, passed];
  }

  /** In a dry run a passed intent is recorded and dropped. */
  lemma DryRunRecords(s: Strategy, c: Context, i: Inputs)
    requires s.state.Flat? && ActorsReady(s) && i.builds && GatesOpen(s, c, i) && s.cfg.dryRun
    ensures var x := BuildIntent(s, c, i.freshId);
            var p, note := Passed(s, i.freshId), DryRunIntent(x.intentId, x.instrumentId, x.edge);
            BeginEvaluation(s, c, i) ==
            p.(state := Flat,
               journal := p.journal + [Note(s, LIFECYCLE, Some(x.intentId), note), Move(s, Evaluating, Flat, DryRun)])
  {
    hide ReadAll, Record, Transition, Continues, SameIds, SameOutbox, SameVerdicts, BuildIntent, GatesOpen;
    OpenGatesPass(s, c, i);
    var x, p := BuildIntent(s, c, i.freshId), Passed(s, i.freshId);
    IdIsFresh(s, c, i.freshId);
    var note := DryRunIntent(x.intentId, x.instrumentId, x.edge);
    RecordIs(p, LIFECYCLE, Some(x.intentId), note);
    TransitionIs(Record(p, LIFECYCLE, Some(x.intentId), note), Flat, DryRun);
  }

  lemma IdIsFresh(s: Strategy, c: Context, id: IntentId)
    ensures BuildIntent(s, c, id).intentId == id
  {
  }

  /** With the selector enabled a passed intent is parked and published. */
  lemma SelectorIsAsked(s: Strategy, c: Context, i: Inputs)
    requires s.state.Flat? && ActorsReady(s) && i.builds && GatesOpen(s, c, i) && !s.cfg.dryRun && s.cfg.selectorEnabled
    ensures var x := BuildIntent(s, c, i.freshId);
            var p := Passed(s, i.freshId);
            BeginEvaluation(s, c, i) ==
            p.(state := PendingApproval, pendingIntent := Some(x), published := s.published + [ToSnapshot(x)],
               journal := p.journal + [Move(s, Evaluating, PendingApproval, SelectorQueue)])
  {
    hide ReadAll, Record, Transition, Continues, SameIds, SameOutbox, SameVerdicts, BuildIntent, GatesOpen;
    OpenGatesPass(s, c, i);
    var x, p := BuildIntent(s, c, i.freshId), Passed(s, i.freshId);
    TransitionIs(p.(pendingIntent := Some(x)), PendingApproval, SelectorQueue);
  }

  /** s, engaged in the intent, with the submission recorded. */
  function Submitting(s: Strategy, x: TradeIntent): Strategy {
    s.(state := PendingEntry, activeIntentId := Some(x.intentId), activeIntent := Some(x),
       journal := s.journal + [Note(s, LIFECYCLE, Some(x.intentId), FsmTransition(s.state, PendingEntry, Submit)),
                               Note(s, LIFECYCLE, Some(x.intentId), OrderSubmit(x.intentId, x.instrumentId))])
  }

  lemma SubmissionIs(s: Strategy, x: TradeIntent, i: Inputs)
    ensures SubmitApprovedIntent(s, x, i) == SubmitEntry(Submitting(s, x), x, i)
  {
    hide ReadAll, Record, Transition, SubmitEntry, Continues, SameIds, SameOutbox, SameVerdicts;
    var a := s.(activeIntentId := Some(x.intentId), activeIntent := Some(x));
    TransitionIs(a, PendingEntry, Submit);
    RecordIs(Transition(a, PendingEntry, Submit), LIFECYCLE, Some(x.intentId), OrderSubmit(x.intentId, x.instrumentId));
    assert s.journal + [Note(s, LIFECYCLE, Some(x.intentId), FsmTransition(s.state, PendingEntry, Submit))] +
           [Note(s, LIFECYCLE, Some(x.intentId), OrderSubmit(x.intentId, x.instrumentId))] == Submitting(s, x).journal;
  }

  /** Otherwise it is submitted at once. */
  lemma PassedIsSubmitted(s: Strategy, c: Context, i: Inputs)
    requires s.state.Flat? && ActorsReady(s) && i.builds && GatesOpen(s, c, i)
    requires !s.cfg.dryRun && !s.cfg.selectorEnabled
    ensures BeginEvaluation(s, c, i) ==
            SubmitEntry(Submitting(Passed(s, i.freshId), BuildIntent(s, c, i.freshId)), BuildIntent(s, c, i.freshId), i)
  {
    hide ReadAll, SubmitApprovedIntent, SubmitEntry, BuildIntent, GatesOpen;
    OpenGatesPass(s, c, i);
    SubmissionIs(Passed(s, i.freshId), BuildIntent(s, c, i.freshId), i);
  }

  /* ---- The entry order ----------------------------------------------------------------------------------- */

  lemma ErrorIs(s: Strategy, x: TradeIntent)
    ensures JournalOrderError(s, x) ==
            s.(state := Flat,
               journal := s.journal + [Note(s, LIFECYCLE, Some(x.intentId), OrderError(InstrumentNotFound)),
                                       Move(s, s.state, Flat, InstrumentNotFound)])
  {
    hide ReadAll, Record, Transition, Continues, SameIds, SameOutbox, SameVerdicts;
    RecordIs(s, LIFECYCLE, Some(x.intentId), OrderError(InstrumentNotFound));
    TransitionIs(Record(s, LIFECYCLE, Some(x.intentId), OrderError(InstrumentNotFound)), Flat, InstrumentNotFound);
  }

  /** m is the middle of the last quote of the instrument, 0.0 where there is none. */
  predicate LastMid(m: real, instrumentId: string, i: Inputs) {
    if instrumentId in i.quotes then m - i.quotes[instrumentId].bid == i.quotes[instrumentId].ask - m else m == 0.0
  }

  /**
   * The entry of a spread is a bracket around the middle of its last quote, without exits where there is no
   * price; the entry in plumbing mode buys the underlying. An unknown instrument is recorded as an error,
   * and the strategy is back in Flat.
   */
  lemma EntryOrderIs(s: Strategy, x: TradeIntent, i: Inputs, m: real)
    requires LastMid(m, x.instrumentId, i)
    ensures var t, n := SubmitEntry(s, x, i), s.cfg.orderQty;
            if (if s.cfg.plumbing then s.cfg.underlying else x.instrumentId) !in i.instruments then
              t == s.(state := Flat,
                      journal := s.journal + [Note(s, LIFECYCLE, Some(x.intentId), OrderError(InstrumentNotFound)),
                                              Move(s, s.state, Flat, InstrumentNotFound)])
            else if s.cfg.plumbing then
              t == s.(calls := s.calls + [MarketOrder(Purpose.Entry, s.cfg.underlying, BUY, n)])
            else
              t == s.(positionInstrument := x.instrumentId, legIds := x.rationale.legIds,
                      calls := s.calls + [if m == 0.0 then BracketOrder(x.instrumentId, n, None, None)
                                          else BracketOrder(x.instrumentId, n, Some(m + m * s.cfg.takeProfitPct),
                                                            Some(m - m * s.cfg.stopLossPct))])
  {
    hide ReadAll, JournalOrderError, BracketFor, EntryPriceEstimate, Continues, SameIds, SameOutbox, SameVerdicts;
    ErrorIs(s, x);
    EstimateIs(x.instrumentId, i, m);
    BracketIs(s.cfg, x.instrumentId, m);
  }

  lemma EstimateIs(instrumentId: string, i: Inputs, m: real)
    requires LastMid(m, instrumentId, i)
    ensures EntryPriceEstimate(instrumentId, i) == m
  {
  }

  lemma BracketIs(cfg: Config, instrumentId: string, m: real)
    ensures BracketFor(cfg, instrumentId, m) ==
            if m == 0.0 then BracketOrder(instrumentId, cfg.orderQty, None, None)
            else BracketOrder(instrumentId, cfg.orderQty, Some(m + m * cfg.takeProfitPct),
                              Some(m - m * cfg.stopLossPct))
  {
    assert m * (1.0 + cfg.takeProfitPct) == m + m * cfg.takeProfitPct;
    assert m * (1.0 - cfg.stopLossPct) == m - m * cfg.stopLossPct;
  }
}
