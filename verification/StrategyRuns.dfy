/** What every run of one strategy keeps, whatever arrives on its bus and from its engine. */
module StrategyRuns {
  import opened Models
  import opened Messages
  import opened Gates
  import opened Audit
  import opened StrategyFsm

  function Auditing(s: Strategy): Auditor {
    ReadAll(s.journal)
  }

  /** uuid4() returns an id on which this strategy has not decided before. */
  predicate FreshId(s: Strategy, i: Inputs) {
    i.freshId !in Auditing(s).decided
  }

  predicate Fresh(s: Strategy, e: Event) {
    (e.ChainArrived? || e.QuoteTick?) ==> FreshId(s, e.inputs)
  }

  /** Every evaluation of the run draws a fresh id. Nothing is assumed of the messages. */
  predicate FreshRun(s: Strategy, events: seq<Event>) {
    |events| == 0 ||
    (FreshRun(s, events[..|events| - 1]) && Fresh(Run(s, events[..|events| - 1]), events[|events| - 1]))
  }

  /* ---- The invariant -------------------------------------------------------------------- */

  /** The counters the auditor keeps, when `parked` intents wait for a verdict. */
  ghost predicate Counts(s: Strategy, m: Auditor, parked: nat) {
    && m.entryCount == m.submitCount
    && |s.published| == m.queuedCount
    && (if s.cfg.selectorEnabled then m.queuedCount == m.submitCount + m.declinedCount + parked else m.queuedCount == 0)
  }

  /** The journal so far is in order, and the live state is the audited one. */
  ghost predicate Audited(s: Strategy) {
    Auditing(s).ok && Auditing(s).state == s.state
  }

  /** What is parked has passed the gates, has no verdict yet, and is the last thing published. */
  ghost predicate HoldsGated(s: Strategy) {
    && s.pendingIntent.Some?
    && var x := s.pendingIntent.value;
    && x.intentId in Auditing(s).passed && x.intentId !in Auditing(s).submitted && x.intentId !in Auditing(s).declined
    && x.strategyId == s.cfg.strategyId
    && x.edge >= s.cfg.minEdge && x.liquidity >= s.cfg.minLiquidity
    && s.cfg.selectorEnabled && !s.cfg.dryRun
    && |s.published| > 0 && s.published[|s.published| - 1] == ToSnapshot(x)
  }

  /** An engaged strategy knows the submitted intent it is engaged in. */
  ghost predicate Engagement(s: Strategy) {
    Engaged(s.state) ==>
      && s.activeIntentId.Some? && s.activeIntent.Some?
      && s.activeIntent.value.intentId == s.activeIntentId.value
      && s.activeIntentId.value in Auditing(s).submitted
  }

  /** Every context this configuration builds already meets the minimum edge. */
  predicate EdgeAssured(cfg: Config) {
    cfg.plumbing || cfg.structureSelector.None? || cfg.structureSelector.value.venue.Ib?
  }

  /** Every context this configuration builds already meets the minimum liquidity. */
  predicate LiquidityAssured(cfg: Config) {
    !cfg.plumbing
  }

  /** No refusal at a stage the configuration can never fail, or outside the report. */
  ghost predicate Refusals(s: Strategy) {
    && Auditing(s).refusedAt <= REPORT_STAGES
    && (EdgeAssured(s.cfg) ==> EDGE !in Auditing(s).refusedAt)
    && (LiquidityAssured(s.cfg) ==> LIQUIDITY !in Auditing(s).refusedAt)
  }

  /** The one-shot flags: a triggered exit and a hedge happen at most once each. */
  ghost predicate OneShots(s: Strategy) {
    && Auditing(s).triggeredExits == One(s.exitSubmitted)
    && Auditing(s).hedges <= One(s.hedgeSubmitted)
  }

  /** What holds between callbacks. */
  ghost predicate Inv(s: Strategy) {
    && Audited(s) && !s.state.Evaluating?
    && (s.pendingIntent.Some? <==> s.state.PendingApproval?)
    && (s.state.PendingApproval? ==> HoldsGated(s))
    && Engagement(s)
    && Counts(s, Auditing(s), One(s.pendingIntent.Some?))
    && Auditing(s).entryCount == Auditing(s).returnCount + One(Engaged(s.state))
    && Auditing(s).rejectionRecords == Auditing(s).rejectionReturns
    && Refusals(s) && OneShots(s)
  }

  /** The invariant speaks of these fields only. */
  predicate SameCore(s: Strategy, t: Strategy) {
    && t.cfg == s.cfg && t.state == s.state && t.pendingIntent == s.pendingIntent
    && t.activeIntentId == s.activeIntentId && t.activeIntent == s.activeIntent
    && t.published == s.published && t.journal == s.journal
    && t.exitSubmitted == s.exitSubmitted && t.hedgeSubmitted == s.hedgeSubmitted
  }

  lemma CoreKeeps(s: Strategy, t: Strategy)
    requires Inv(s) && SameCore(s, t)
    ensures Inv(t)
  {
  }

  /** A record the auditor does not act on. */
  predicate Neutral(p: Payload) {
    !p.FsmTransition? && !p.GateReject? && !p.GreekPassed? && !p.OrderSubmit? && !p.SelectorRejected?
    && !p.OrderDenied? && !p.DeltaHedge? && !Foreign(p)
  }

  lemma NeutralKeeps(s: Strategy, stage: GateStage, refId: Option<IntentId>, p: Payload)
    requires Inv(s) && Neutral(p)
    ensures Inv(Record(s, stage, refId, p))
  {
    hide ReadAll;
  }

  lemma InitialInv(cfg: Config)
    ensures Inv(Initial(cfg))
  {
  }

  /* ---- Submission ------------------------------------------------------------------------- */

  /** The point at which an intent is about to be submitted. */
  ghost predicate ReadyToSubmit(s: Strategy, id: IntentId) {
    && Audited(s) && (s.state.Evaluating? || s.state.PendingApproval?)
    && s.pendingIntent.None?
    && id in Auditing(s).passed && id !in Auditing(s).submitted && id !in Auditing(s).declined
    && Counts(s, Auditing(s), One(s.cfg.selectorEnabled))
    && Auditing(s).entryCount == Auditing(s).returnCount
    && Auditing(s).rejectionRecords == Auditing(s).rejectionReturns
    && Refusals(s) && OneShots(s)
  }

  /** The strategy right after ORDER_SUBMIT is journalled. */
  function Committed(s: Strategy, intent: TradeIntent): Strategy {
    var p := Transition(s.(activeIntentId := Some(intent.intentId), activeIntent := Some(intent)), PendingEntry,
                        Submit);
    Record(p, LIFECYCLE, Some(intent.intentId), OrderSubmit(intent.intentId, intent.instrumentId))
  }

  lemma CommitKeeps(s: Strategy, intent: TradeIntent)
    requires ReadyToSubmit(s, intent.intentId)
    ensures Inv(Committed(s, intent)) && Committed(s, intent).state.PendingEntry?
    ensures Auditing(Committed(s, intent)).submitted == Auditing(s).submitted + {intent.intentId}
  {
    hide ReadAll;
  }

  /** Returning to Flat after an order error keeps the invariant. */
  lemma OrderErrorKeeps(s: Strategy, intent: TradeIntent)
    requires Inv(s) && (s.state.PendingEntry? || s.state.Exiting?)
    ensures Inv(JournalOrderError(s, intent))
  {
    hide ReadAll;
  }

  lemma UnderlyingMarketKeeps(s: Strategy, intent: TradeIntent, purpose: Purpose, side: Side, i: Inputs)
    requires Inv(s) && (s.state.PendingEntry? || s.state.Exiting?)
    ensures Inv(SubmitUnderlyingMarket(s, intent, purpose, side, i))
  {
    hide Inv, JournalOrderError;
    OrderErrorKeeps(s, intent);
    CoreKeeps(s, s.(calls := s.calls + [MarketOrder(purpose, s.cfg.underlying, side, s.cfg.orderQty)]));
  }

  lemma SubmitEntryKeeps(s: Strategy, intent: TradeIntent, i: Inputs)
    requires Inv(s) && s.state.PendingEntry?
    ensures Inv(SubmitEntry(s, intent, i))
  {
    hide Inv, JournalOrderError, EntryPriceEstimate, SubmitUnderlyingMarket;
    if s.cfg.plumbing {
      UnderlyingMarketKeeps(s, intent, Purpose.Entry, BUY, i);
    } else if intent.instrumentId !in i.instruments {
      OrderErrorKeeps(s, intent);
    } else {
      CoreKeeps(s, SubmitEntry(s, intent, i));
    }
  }

  lemma SubmitKeeps(s: Strategy, intent: TradeIntent, i: Inputs)
    requires ReadyToSubmit(s, intent.intentId)
    ensures Inv(SubmitApprovedIntent(s, intent, i))
  {
    CommitKeeps(s, intent);
    SubmitEntryKeeps(Committed(s, intent), intent, i);
  }

  /* ---- Evaluation -------------------------------------------------------------------------- */

  /** In the middle of an evaluation, before anything is decided about `id`. */
  ghost predicate InEvaluation(s: Strategy, id: IntentId) {
    && Audited(s) && s.state.Evaluating? && s.pendingIntent.None?
    && id !in Auditing(s).decided
    && Counts(s, Auditing(s), 0)
    && Auditing(s).entryCount == Auditing(s).returnCount
    && Auditing(s).rejectionRecords == Auditing(s).rejectionReturns
    && Refusals(s) && OneShots(s)
  }

  lemma EnterEvaluation(s: Strategy, id: IntentId)
    requires Inv(s) && s.state.Flat? && id !in Auditing(s).decided
    ensures InEvaluation(Transition(s, Evaluating, Signal), id)
  {
    hide ReadAll;
  }

  lemma GateRejectKeeps(s: Strategy, stage: GateStage, intent: TradeIntent, rules: seq<Rule>, why: Reason)
    requires InEvaluation(s, intent.intentId) && (why == GateRejected || why == GreekRejected)
    requires stage in REPORT_STAGES
    requires EdgeAssured(s.cfg) ==> stage != EDGE
    requires LiquidityAssured(s.cfg) ==> stage != LIQUIDITY
    ensures Inv(RefuseIntent(s, stage, intent, rules, why))
  {
    hide ReadAll;
  }

  /** The strategy right after GREEK_PASSED is journalled. */
  function Gated(s: Strategy, intent: TradeIntent): Strategy {
    Record(s, GREEK, Some(intent.intentId), GreekPassed(intent.intentId))
  }

  /** An undecided id has neither passed nor been submitted nor declined. */
  lemma UndecidedIsNew(s: Strategy, id: IntentId)
    requires Audited(s) && id !in Auditing(s).decided
    ensures id !in Auditing(s).passed && id !in Auditing(s).submitted && id !in Auditing(s).declined
  {
    AcceptedIds(s.journal);
  }

  lemma QueueKeeps(s: Strategy, intent: TradeIntent)
    requires InEvaluation(s, intent.intentId) && s.cfg.selectorEnabled && !s.cfg.dryRun
    requires intent.strategyId == s.cfg.strategyId
    requires intent.edge >= s.cfg.minEdge && intent.liquidity >= s.cfg.minLiquidity
    ensures Inv(QueueForSelector(Gated(s, intent), intent))
  {
    hide ReadAll;
    UndecidedIsNew(s, intent.intentId);
    var q := QueueForSelector(Gated(s, intent), intent);
    assert Auditing(q).passed == Auditing(s).passed + {intent.intentId};
    assert |q.published| == |s.published| + 1;
  }

  lemma DryRunKeeps(s: Strategy, intent: TradeIntent, i: Inputs)
    requires InEvaluation(s, intent.intentId) && s.cfg.dryRun
    ensures Inv(AfterGates(Gated(s, intent), intent, i))
  {
    hide ReadAll;
  }

  lemma DirectKeeps(s: Strategy, intent: TradeIntent, i: Inputs)
    requires InEvaluation(s, intent.intentId) && !s.cfg.selectorEnabled
    ensures Inv(SubmitApprovedIntent(Gated(s, intent), intent, i))
  {
    UndecidedIsNew(s, intent.intentId);
    SubmitKeeps(Gated(s, intent), intent, i);
  }

  /** The pipeline never stops at a stage the intent is known to meet. */
  lemma RefusedStage(intent: TradeIntent, c: GateContext)
    requires PreGreek(intent, c).Failed?
    ensures PreGreek(intent, c).stage in REPORT_STAGES
    ensures intent.edge >= c.minEdge ==> PreGreek(intent, c).stage != EDGE
    ensures intent.liquidity >= c.minLiquidity ==> PreGreek(intent, c).stage != LIQUIDITY
  {
    RejectionIsFirstFailure(0, intent, c);
  }

  lemma PipelineKeeps(s: Strategy, intent: TradeIntent, c: Context, i: Inputs)
    requires InEvaluation(s, intent.intentId) && intent.strategyId == s.cfg.strategyId
    requires EdgeAssured(s.cfg) ==> intent.edge >= s.cfg.minEdge
    requires LiquidityAssured(s.cfg) ==> intent.liquidity >= s.cfg.minLiquidity
    ensures Inv(RunGatePipeline(s, intent, c, i))
  {
    hide Inv, InEvaluation, AfterGates, Record, Transition, RefuseIntent, RiskBreaches, PreGreek, Gated;
    var pre := PreGreek(intent, GateContextOf(s, c, i.now));
    var breaches := RiskBreaches(s.cfg.risk, GreeksOrZero(i.shocked));
    if pre.Failed? {
      RefusedStage(intent, GateContextOf(s, c, i.now));
      GateRejectKeeps(s, pre.stage, intent, pre.rules, GateRejected);
    } else if |breaches| > 0 {
      GateRejectKeeps(s, GREEK, intent, breaches, GreekRejected);
    } else {
      PreGreekPassesIff(intent, GateContextOf(s, c, i.now));
      AfterGatesKeeps(s, intent, i);
    }
  }

  lemma AfterGatesKeeps(s: Strategy, intent: TradeIntent, i: Inputs)
    requires InEvaluation(s, intent.intentId) && intent.strategyId == s.cfg.strategyId
    requires intent.edge >= s.cfg.minEdge && intent.liquidity >= s.cfg.minLiquidity
    ensures Inv(AfterGates(Record(s, GREEK, Some(intent.intentId), GreekPassed(intent.intentId)), intent, i))
  {
    hide Inv, InEvaluation;
    if s.cfg.dryRun {
      DryRunKeeps(s, intent, i);
    } else if s.cfg.selectorEnabled {
      QueueKeeps(s, intent);
    } else {
      DirectKeeps(s, intent, i);
    }
  }

  lemma NoIntentKeeps(s: Strategy, id: IntentId)
    requires InEvaluation(s, id)
    ensures Inv(Transition(s, Flat, NoIntent))
  {
    hide ReadAll;
  }

  lemma EvaluationKeeps(s: Strategy, c: Context, i: Inputs)
    requires Inv(s) && s.state.Flat? && FreshId(s, i)
    requires EdgeAssured(s.cfg) ==> c.edge >= s.cfg.minEdge
    requires LiquidityAssured(s.cfg) ==> c.liquidity >= s.cfg.minLiquidity
    ensures Inv(BeginEvaluation(s, c, i))
  {
    hide Inv, InEvaluation, Transition, RunGatePipeline, BuildIntent;
    if ActorsReady(s) {
      EnterEvaluation(s, i.freshId);
      var e := Transition(s, Evaluating, Signal);
      if i.builds {
        BuiltIntent(e, c, i.freshId);
        PipelineKeeps(e, BuildIntent(e, c, i.freshId), c, i);
      } else {
        NoIntentKeeps(e, i.freshId);
      }
    }
  }

  lemma BuiltIntent(s: Strategy, c: Context, id: IntentId)
    ensures var x := BuildIntent(s, c, id);
            x.intentId == id && x.strategyId == s.cfg.strategyId && x.edge == c.edge && x.liquidity == c.liquidity
  {
  }

  /* ---- The other callbacks ------------------------------------------------------------------ */

  lemma ExitKeeps(s: Strategy, i: Inputs)
    requires Inv(s) && s.state.Exiting?
    ensures Inv(SubmitExit(s, i))
  {
    hide Inv, SubmitUnderlyingMarket;
    if s.cfg.plumbing {
      if s.activeIntent.Some? {
        UnderlyingMarketKeeps(s, s.activeIntent.value, Exit, SELL, i);
      }
    } else {
      var id := if s.positionInstrument != "" then s.positionInstrument else s.cfg.underlying;
      CoreKeeps(s, s.(calls := s.calls + [MarketOrder(Exit, id, SELL, s.cfg.orderQty)]));
    }
  }

  lemma BeginExitKeeps(s: Strategy, reason: Reason)
    requires Inv(s) && s.state.InPosition? && !IsRejectionReturn(reason) && !reason.TakeProfitStopLoss?
    ensures Inv(Transition(s, Exiting, reason)) && Transition(s, Exiting, reason).state.Exiting?
  {
    hide ReadAll;
  }

  lemma TriggeredExitKeeps(s: Strategy)
    requires Inv(s) && s.state.InPosition? && !s.exitSubmitted
    ensures var t := Transition(s.(exitSubmitted := true), Exiting, TakeProfitStopLoss);
            Inv(t) && t.state.Exiting?
  {
    hide ReadAll;
  }

  lemma FlattenKeeps(s: Strategy, reason: Reason, i: Inputs)
    requires Inv(s) && !IsRejectionReturn(reason) && !reason.TakeProfitStopLoss?
    ensures Inv(FlattenPositions(s, reason, i))
  {
    hide Inv, Transition, SubmitExit, Record;
    if !s.state.InPosition? && !s.state.PendingEntry? {
      NeutralKeeps(s, LIFECYCLE, None, FlattenSkipped(s.state, reason));
    } else {
      var c := s.(calls := s.calls + [CancelAllOrders]);
      CoreKeeps(s, c);
      if c.state.InPosition? {
        BeginExitKeeps(c, reason);
        ExitKeeps(Transition(c, Exiting, reason), i);
      }
    }
  }

  lemma ExitTriggersKeep(s: Strategy, bid: real, i: Inputs)
    requires Inv(s) && s.state.InPosition?
    ensures Inv(CheckExitTriggers(s, bid, i))
  {
    hide Inv, Transition, SubmitExit, ProfitPct;
    if !s.exitSubmitted {
      TriggeredExitKeeps(s);
      ExitKeeps(Transition(s.(exitSubmitted := true), Exiting, TakeProfitStopLoss), i);
    }
  }

  /** The structure selectors return nothing below the liquidity minimum, IB nothing below the edge minimum. */
  lemma ChainContextMeetsMinima(s: Strategy, chain: Structures.Chain)
    requires ContextFromChain(s, chain).Some?
    ensures EdgeAssured(s.cfg) ==> ContextFromChain(s, chain).value.edge >= s.cfg.minEdge
    ensures LiquidityAssured(s.cfg) ==> ContextFromChain(s, chain).value.liquidity >= s.cfg.minLiquidity
  {
    if !s.cfg.plumbing {
      Structures.DefinedRisk(s.cfg.structureSelector.value, chain, s.cfg.strikeWidth, s.cfg.minEdge,
                             s.cfg.minLiquidity);
    }
  }

  lemma ChainKeeps(s: Strategy, chain: Structures.Chain, i: Inputs)
    requires Inv(s) && FreshId(s, i)
    ensures Inv(OnOptionChain(s, chain, i))
  {
    hide Inv, BeginEvaluation, ContextFromChain;
    var t := s.(lastChainTs := Some(chain.ts));
    CoreKeeps(s, t);
    if t.state.Flat? && ContextFromChain(t, chain).Some? {
      ChainContextMeetsMinima(t, chain);
      EvaluationKeeps(t, ContextFromChain(t, chain).value, i);
    }
  }

  lemma TickContextMeetsMinima(s: Strategy, instrumentId: string, quote: Costs.Quote)
    requires ContextFromTick(s, instrumentId, quote).Some?
    ensures ContextFromTick(s, instrumentId, quote).value.edge >= s.cfg.minEdge
    ensures ContextFromTick(s, instrumentId, quote).value.liquidity >= s.cfg.minLiquidity
  {
  }

  lemma TickKeeps(s: Strategy, ts: int, instrumentId: string, quote: Costs.Quote, i: Inputs)
    requires Inv(s) && FreshId(s, i)
    ensures Inv(OnQuoteTick(s, ts, instrumentId, quote, i))
  {
    hide Inv, BeginEvaluation, ContextFromTick, FlattenPositions, CheckExitTriggers;
    var t := s.(lastQuoteTs := Some(ts));
    CoreKeeps(s, t);
    if t.state.InPosition? {
      if t.flattenSignal {
        FlattenKeeps(t, SessionClosed, i);
      } else {
        ExitTriggersKeep(t, quote.bid, i);
      }
    } else if t.state.Flat? && ContextFromTick(t, instrumentId, quote).Some? {
      TickContextMeetsMinima(t, instrumentId, quote);
      EvaluationKeeps(t, ContextFromTick(t, instrumentId, quote).value, i);
    }
  }

  lemma SessionKeeps(s: Strategy, allows: bool, flatten: bool, i: Inputs)
    requires Inv(s)
    ensures Inv(OnSessionPhase(s, allows, flatten, i))
  {
    hide Inv, FlattenPositions;
    var t := s.(sessionAllowsEntry := allows, sessionReceived := true, flattenSignal := flatten);
    CoreKeeps(s, t);
    FlattenKeeps(t, SessionClosed, i);
  }

  lemma HedgeKeeps(s: Strategy, delta: real)
    requires Inv(s) && !s.hedgeSubmitted
    ensures Inv(s.(hedgeSubmitted := true))
    ensures Inv(Record(s.(hedgeSubmitted := true), LIFECYCLE, s.activeIntentId, DeltaHedge(delta)))
  {
    hide ReadAll;
  }

  lemma GreeksKeep(s: Strategy, i: Inputs)
    requires Inv(s)
    ensures Inv(OnOptionGreeks(s, i))
  {
    hide Inv, Record, Abs, Min;
    var delta := GreeksOrZero(i.current).delta;
    if OnOptionGreeks(s, i) != s {
      HedgeKeeps(s, delta);
      var t := s.(hedgeSubmitted := true);
      var r := Record(t, LIFECYCLE, t.activeIntentId, DeltaHedge(delta));
      if OnOptionGreeks(s, i) != t {
        CoreKeeps(r, OnOptionGreeks(s, i));
      }
    }
  }

  lemma FillJournalKeeps(s: Strategy, price: real, quantity: real)
    requires Inv(s)
    ensures Inv(JournalFill(s, price, quantity))
  {
    hide Inv, Record;
    var f := Record(s, FILL, s.activeIntentId, Fill(price, quantity));
    NeutralKeeps(s, FILL, s.activeIntentId, Fill(price, quantity));
    if f.activeIntentId.Some? {
      NeutralKeeps(f, LEARNING, f.activeIntentId, LearningRecord(f.activeIntentId.value));
    } else if f.activeIntent.Some? {
      var id := f.activeIntent.value.intentId;
      NeutralKeeps(f, LEARNING, Some(id), LearningRecord(id));
    }
    var l := JournalLearning(f);
    NeutralKeeps(l, PNL, l.activeIntentId, Pnl);
  }

  lemma EntryFillKeeps(s: Strategy, price: real)
    requires Inv(s) && s.state.PendingEntry?
    ensures Inv(Transition(s.(entryPrice := Some(price)), InPosition, EntryFill))
  {
    hide ReadAll;
  }

  lemma ExitFillKeeps(s: Strategy)
    requires Inv(s) && s.state.Exiting?
    ensures Inv(Transition(s.(activeIntentId := None, activeIntent := None, entryPrice := None), Flat, ExitFill))
  {
    hide ReadAll;
  }

  lemma FillKeeps(s: Strategy, price: real, quantity: real)
    requires Inv(s)
    ensures Inv(OnOrderFilled(s, price, quantity))
  {
    hide JournalFill, Inv, Transition;
    FillJournalKeeps(s, price, quantity);
    var j := JournalFill(s, price, quantity);
    if j.state.PendingEntry? {
      EntryFillKeeps(j, price);
    } else if j.state.Exiting? {
      ExitFillKeeps(j);
    }
  }

  lemma OrderRejectedKeeps(s: Strategy)
    requires Inv(s)
    ensures Inv(OnOrderRejected(s))
  {
    hide ReadAll;
    if s.state.PendingEntry? {
      NeutralKeeps(s, LIFECYCLE, s.activeIntentId, OrderRejected);
    }
  }

  lemma OrderDeniedKeeps(s: Strategy)
    requires Inv(s)
    ensures Inv(OnOrderDenied(s))
  {
    hide ReadAll;
  }

  lemma ApprovalKeeps(s: Strategy, m: ApprovedSnapshot, i: Inputs)
    requires Inv(s)
    ensures Inv(OnIntentApproved(s, m, i))
  {
    hide ReadAll;
    if Concerns(s, m.snapshot.strategyId, m.snapshot.intentId) && FromSnapshot(m.snapshot).Some? {
      SubmitKeeps(s.(pendingIntent := None), FromSnapshot(m.snapshot).value, i);
    }
  }

  lemma RejectionKeeps(s: Strategy, m: RejectedSnapshot)
    requires Inv(s)
    ensures Inv(OnIntentRejected(s, m))
  {
    hide ReadAll;
  }

  /** Every callback keeps the invariant. */
  lemma StepKeeps(s: Strategy, e: Event)
    requires Inv(s) && Fresh(s, e)
    ensures Inv(Step(s, e)) && Step(s, e).cfg == s.cfg
  {
    hide Inv, OnOptionChain, OnQuoteTick, OnOptionGreeks, OnSessionPhase, OnOrderFilled, OnOrderRejected,
      OnOrderDenied, OnIntentApproved, OnIntentRejected;
    match e
    case ChainArrived(chain, i) => ChainKeeps(s, chain, i);
    case QuoteTick(ts, id, quote, i) => TickKeeps(s, ts, id, quote, i);
    case OptionGreeksArrived(i) => GreeksKeep(s, i);
    case SessionPhase(allows, flatten, i) => SessionKeeps(s, allows, flatten, i);
    case RegimeMessage(tag) => RegimeKeeps(s, tag);
    case OrderFilledEvent(price, quantity) => FillKeeps(s, price, quantity);
    case OrderRejectedEvent => OrderRejectedKeeps(s);
    case OrderDeniedEvent => OrderDeniedKeeps(s);
    case IntentApproved(m, i) => ApprovalKeeps(s, m, i);
    case IntentRejected(m) => RejectionKeeps(s, m);
    case Started => NeutralKeeps(s, LIFECYCLE, None, StrategyStart);
    case Stopped => NeutralKeeps(s, LIFECYCLE, None, StrategyStop(s.state));
  }

  lemma RegimeKeeps(s: Strategy, tag: string)
    requires Inv(s)
    ensures Inv(OnRegimeTag(s, tag))
  {
    hide ReadAll;
  }

  /** Over every run, with any messages in any order. */
  lemma {:induction false} RunKeeps(s: Strategy, events: seq<Event>)
    requires Inv(s) && FreshRun(s, events)
    ensures Inv(Run(s, events)) && Run(s, events).cfg == s.cfg
  {
    hide Inv, Step;
    if |events| > 0 {
      RunKeeps(s, events[..|events| - 1]);
      StepKeeps(Run(s, events[..|events| - 1]), events[|events| - 1]);
    }
  }
}
