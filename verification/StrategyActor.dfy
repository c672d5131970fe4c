/**
 * The strategy as the object it is: callbacks that assign its fields. Each method is proved to
 * change the object's value exactly as the corresponding function of StrategyFsm does, so every
 * theorem about runs of StrategyFsm holds of the object.
 */
module StrategyActor {
  import opened Models
  import opened Messages
  import opened Gates
  import opened Audit
  import opened StrategyFsm
  import opened SharedFile

  /** A shared log at the start of a callback, and how many records of the strategy's own it had journalled. */
  datatype Origin = Origin(log: seq<Audit.Entry>, own: nat)

  class ReferenceStrategy {
    const cfg: Config
    const file: NodeJournal
    var state: StrategyState
    var sessionAllowsEntry: bool
    var sessionReceived: bool
    var flattenSignal: bool
    var regimeTag: RegimeTag
    var regimeReceived: bool
    var lastQuoteTs: Option<int>
    var lastChainTs: Option<int>
    var activeIntentId: Option<IntentId>
    var activeIntent: Option<TradeIntent>
    var pendingIntent: Option<TradeIntent>
    var entryPrice: Option<real>
    var exitSubmitted: bool
    var hedgeSubmitted: bool
    var positionInstrument: string
    var legIds: seq<string>
    var journal: seq<Audit.Entry>
    var published: seq<TradeIntentSnapshot>
    var calls: seq<EngineCall>
    ghost var origin: Origin

    /** The object's value. */
    function View(): (v: StrategyFsm.Strategy)
      reads this
      ensures v.cfg == cfg && v.state == state
      ensures v.activeIntentId == activeIntentId && v.activeIntent == activeIntent
    {
      StrategyFsm.Strategy(
        cfg, state, sessionAllowsEntry, sessionReceived, flattenSignal, regimeTag, regimeReceived, lastQuoteTs,
        lastChainTs, activeIntentId, activeIntent, pendingIntent, entryPrice, exitSubmitted, hedgeSubmitted,
        positionInstrument, legIds, journal, published, calls)
    }

    /** The shared file holds what it held at the origin, and then exactly what this strategy has journalled since. */
    ghost predicate Synced()
      reads this`journal, this`origin, file, file.store
    {
      && file.Valid() && origin.own <= |journal|
      && file.log == origin.log + journal[origin.own..]
    }

    constructor (config: Config, shared: NodeJournal)
      ensures cfg == config && file == shared && View() == Initial(config)
    {
      cfg, file := config, shared;
      state := Flat;
      sessionAllowsEntry, sessionReceived, flattenSignal := false, false, false;
      regimeTag, regimeReceived := UNKNOWN, false;
      lastQuoteTs, lastChainTs := None, None;
      activeIntentId, activeIntent, pendingIntent, entryPrice := None, None, None, None;
      exitSubmitted, hedgeSubmitted := false, false;
      positionInstrument, legIds := "", [];
      journal, published, calls, origin := [], [], [], Origin([], 0);
    }

    method Record(stage: GateStage, refId: Option<IntentId>, payload: Payload)
      requires Synced() && !Foreign(payload)
      modifies this, file, file.store
      ensures Synced() && origin == old(origin)
      ensures View() == StrategyFsm.Record(old(View()), stage, refId, payload)
    {
      hide ReadAll, file.Valid;
      var e := Audit.Entry(stage, refId, cfg.strategyId, payload);
      assert (journal + [e])[origin.own..] == journal[origin.own..] + [e];
      journal := journal + [e];
      file.Append(e);
    }

    method Transition(to: StrategyState, reason: Reason)
      requires Synced()
      modifies this, file, file.store
      ensures Synced() && origin == old(origin)
      ensures View() == StrategyFsm.Transition(old(View()), to, reason)
    {
      hide Synced, Continues, SameIds, SameOutbox, SameVerdicts, Quiet, ReadAll, StrategyFsm.Record;
      var oldState := state;
      state := to;
      Record(LIFECYCLE, activeIntentId, FsmTransition(oldState, to, reason));
    }

    /* ---- Evaluation ---------------------------------------------------------------------- */

    method BeginEvaluation(c: Context, i: Inputs)
      requires Synced()
      modifies this, file, file.store
      ensures Synced() && origin == old(origin)
      ensures View() == StrategyFsm.BeginEvaluation(old(View()), c, i)
    {
      hide Synced, Continues, SameIds, SameOutbox, SameVerdicts, Quiet, ReadAll, StrategyFsm.Transition,
        StrategyFsm.RunGatePipeline, StrategyFsm.BuildIntent;
      if !(sessionReceived && regimeReceived) {
        return;
      }
      Transition(Evaluating, Signal);
      if !i.builds {
        Transition(Flat, NoIntent);
        return;
      }
      RunGatePipeline(StrategyFsm.BuildIntent(View(), c, i.freshId), c, i);
    }

    method RunGatePipeline(intent: TradeIntent, c: Context, i: Inputs)
      requires Synced()
      modifies this, file, file.store
      ensures Synced() && origin == old(origin)
      ensures View() == StrategyFsm.RunGatePipeline(old(View()), intent, c, i)
    {
      hide Synced, Continues, SameIds, SameOutbox, SameVerdicts, Quiet, ReadAll, View, StrategyFsm.Record,
        StrategyFsm.RefuseIntent, StrategyFsm.AfterGates, PreGreek, RiskBreaches, GateContextOf, WithinLimits;
      var pre := EvaluatePreGreek(intent, GateContextOf(View(), c, i.now));
      if pre.Failed? {
        RefuseIntent(pre.stage, intent, pre.rules, GateRejected);
        return;
      }
      var assessment := CheckRisk(cfg.risk, GreeksOrZero(i.current), GreeksOrZero(i.shocked));
      if !assessment.passed {
        RefuseIntent(GREEK, intent, assessment.rules, GreekRejected);
        return;
      }
      Record(GREEK, Some(intent.intentId), GreekPassed(intent.intentId));
      AfterGates(intent, i);
    }

    /** Journal the refusal and return to Flat. */
    method RefuseIntent(stage: GateStage, intent: TradeIntent, rules: seq<Rule>, why: Reason)
      requires Synced()
      modifies this, file, file.store
      ensures Synced() && origin == old(origin)
      ensures View() == StrategyFsm.RefuseIntent(old(View()), stage, intent, rules, why)
    {
      hide Synced, Continues, SameIds, SameOutbox, SameVerdicts, Quiet, ReadAll, View, StrategyFsm.Record,
        StrategyFsm.Transition;
      Record(stage, Some(intent.intentId), GateReject(rules, intent.intentId));
      Transition(Flat, why);
    }

    method AfterGates(intent: TradeIntent, i: Inputs)
      requires Synced()
      modifies this, file, file.store
      ensures Synced() && origin == old(origin)
      ensures View() == StrategyFsm.AfterGates(old(View()), intent, i)
    {
      hide Synced, Continues, SameIds, SameOutbox, SameVerdicts, Quiet, ReadAll, View, StrategyFsm.Record,
        StrategyFsm.Transition, StrategyFsm.QueueForSelector, StrategyFsm.SubmitApprovedIntent;
      if cfg.dryRun {
        Record(LIFECYCLE, Some(intent.intentId), DryRunIntent(intent.intentId, intent.instrumentId, intent.edge));
        Transition(Flat, DryRun);
        return;
      }
      if cfg.selectorEnabled {
        QueueForSelector(intent);
        return;
      }
      SubmitApprovedIntent(intent, i);
    }

    method QueueForSelector(intent: TradeIntent)
      requires Synced()
      modifies this, file, file.store
      ensures Synced() && origin == old(origin)
      ensures View() == StrategyFsm.QueueForSelector(old(View()), intent)
    {
      hide Synced, Continues, SameIds, SameOutbox, SameVerdicts, Quiet, ReadAll, StrategyFsm.Transition;
      pendingIntent := Some(intent);
      Transition(PendingApproval, SelectorQueue);
      published := published + [ToSnapshot(intent)];
    }

    method Engage(intent: TradeIntent)
      requires Synced()
      modifies this, file, file.store
      ensures Synced() && origin == old(origin)
      ensures View() == StrategyFsm.Engage(old(View()), intent)
    {
      hide Synced, Continues, SameIds, SameOutbox, SameVerdicts, Quiet, ReadAll, StrategyFsm.Transition;
      activeIntentId := Some(intent.intentId);
      activeIntent := Some(intent);
      Transition(PendingEntry, Submit);
    }

    method SubmitApprovedIntent(intent: TradeIntent, i: Inputs)
      requires Synced()
      modifies this, file, file.store
      ensures Synced() && origin == old(origin)
      ensures View() == StrategyFsm.SubmitApprovedIntent(old(View()), intent, i)
    {
      hide Synced, View, Continues, SameIds, SameOutbox, SameVerdicts, Quiet, ReadAll,
        StrategyFsm.Record, StrategyFsm.Engage, StrategyFsm.SubmitEntry;
      Engage(intent);
      Record(LIFECYCLE, Some(intent.intentId), OrderSubmit(intent.intentId, intent.instrumentId));
      SubmitEntry(intent, i);
    }

    /* ---- Orders -------------------------------------------------------------------------- */

    method SubmitEntry(intent: TradeIntent, i: Inputs)
      requires Synced()
      modifies this, file, file.store
      ensures Synced() && origin == old(origin)
      ensures View() == StrategyFsm.SubmitEntry(old(View()), intent, i)
    {
      hide Synced, Continues, SameIds, SameOutbox, SameVerdicts, Quiet, ReadAll, BracketFor, EntryPriceEstimate,
        StrategyFsm.JournalOrderError, StrategyFsm.SubmitUnderlyingMarket;
      if cfg.plumbing {
        SubmitUnderlyingMarket(intent, Purpose.Entry, BUY, i);
        return;
      }
      if intent.instrumentId !in i.instruments {
        JournalOrderError(intent);
        return;
      }
      var price := EntryPriceEstimate(intent.instrumentId, i);
      calls := calls + [BracketFor(cfg, intent.instrumentId, price)];
      positionInstrument := intent.instrumentId;
      legIds := intent.rationale.legIds;
    }

    method SubmitUnderlyingMarket(intent: TradeIntent, purpose: Purpose, side: Side, i: Inputs)
      requires Synced()
      modifies this, file, file.store
      ensures Synced() && origin == old(origin)
      ensures View() == StrategyFsm.SubmitUnderlyingMarket(old(View()), intent, purpose, side, i)
    {
      hide Synced, Continues, SameIds, SameOutbox, SameVerdicts, Quiet, ReadAll, StrategyFsm.JournalOrderError;
      if cfg.underlying !in i.instruments {
        JournalOrderError(intent);
        return;
      }
      calls := calls + [MarketOrder(purpose, cfg.underlying, side, cfg.orderQty)];
    }

    method JournalOrderError(intent: TradeIntent)
      requires Synced()
      modifies this, file, file.store
      ensures Synced() && origin == old(origin)
      ensures View() == StrategyFsm.JournalOrderError(old(View()), intent)
    {
      hide Synced, Continues, SameIds, SameOutbox, SameVerdicts, Quiet, ReadAll, View, StrategyFsm.Record,
        StrategyFsm.Transition;
      Record(LIFECYCLE, Some(intent.intentId), OrderError(InstrumentNotFound));
      Transition(Flat, InstrumentNotFound);
    }

    method SubmitExit(i: Inputs)
      requires Synced()
      modifies this, file, file.store
      ensures Synced() && origin == old(origin)
      ensures View() == StrategyFsm.SubmitExit(old(View()), i)
    {
      hide Synced, Continues, SameIds, SameOutbox, SameVerdicts, Quiet, ReadAll, StrategyFsm.SubmitUnderlyingMarket;
      if cfg.plumbing {
        if activeIntent.Some? {
          SubmitUnderlyingMarket(activeIntent.value, Exit, SELL, i);
        }
        return;
      }
      var id := if positionInstrument != "" then positionInstrument else cfg.underlying;
      if id in i.instruments {
        calls := calls + [MarketOrder(Exit, id, SELL, cfg.orderQty)];
      }
    }

    method FlattenPositions(reason: Reason, i: Inputs)
      requires Synced()
      modifies this, file, file.store
      ensures Synced() && origin == old(origin)
      ensures View() == StrategyFsm.FlattenPositions(old(View()), reason, i)
    {
      hide Synced, Continues, SameIds, SameOutbox, SameVerdicts, Quiet, ReadAll, StrategyFsm.Record,
        StrategyFsm.Transition, StrategyFsm.SubmitExit;
      if !state.InPosition? && !state.PendingEntry? {
        Record(LIFECYCLE, None, FlattenSkipped(state, reason));
        return;
      }
      if i.cancelRaises {
        return;
      }
      calls := calls + [CancelAllOrders];
      if state.InPosition? && activeIntentId.Some? {
        Transition(Exiting, reason);
        SubmitExit(i);
      }
    }

    method CheckExitTriggers(bid: real, i: Inputs)
      requires Synced()
      modifies this, file, file.store
      ensures Synced() && origin == old(origin)
      ensures View() == StrategyFsm.CheckExitTriggers(old(View()), bid, i)
    {
      hide Synced, Continues, SameIds, SameOutbox, SameVerdicts, Quiet, ReadAll, StrategyFsm.Transition,
        StrategyFsm.SubmitExit, ProfitPct;
      if exitSubmitted || entryPrice.None? || activeIntentId.None? {
        return;
      }
      var pnl := ProfitPct(entryPrice.value, bid);
      if pnl >= cfg.takeProfitPct || pnl <= -cfg.stopLossPct {
        exitSubmitted := true;
        Transition(Exiting, TakeProfitStopLoss);
        SubmitExit(i);
      }
    }

    /* ---- Callbacks ----------------------------------------------------------------------- */

    method OnOptionChain(chain: Structures.Chain, i: Inputs)
      requires Synced()
      modifies this, file, file.store
      ensures Synced() && origin == old(origin)
      ensures View() == StrategyFsm.OnOptionChain(old(View()), chain, i)
    {
      hide Synced, Continues, SameIds, SameOutbox, SameVerdicts, Quiet, ReadAll, StrategyFsm.BeginEvaluation,
        ContextFromChain;
      lastChainTs := Some(chain.ts);
      if !state.Flat? {
        return;
      }
      var context := ContextFromChain(View(), chain);
      if context.Some? {
        BeginEvaluation(context.value, i);
      }
    }

    method OnQuoteTick(ts: int, instrumentId: string, quote: Costs.Quote, i: Inputs)
      requires Synced()
      modifies this, file, file.store
      ensures Synced() && origin == old(origin)
      ensures View() == StrategyFsm.OnQuoteTick(old(View()), ts, instrumentId, quote, i)
    {
      hide Synced, Continues, SameIds, SameOutbox, SameVerdicts, Quiet, ReadAll, StrategyFsm.BeginEvaluation,
        StrategyFsm.CheckExitTriggers, StrategyFsm.FlattenPositions, ContextFromTick;
      lastQuoteTs := Some(ts);
      if state.InPosition? {
        if flattenSignal {
          FlattenPositions(SessionClosed, i);
        } else {
          CheckExitTriggers(quote.bid, i);
        }
        return;
      }
      if !state.Flat? {
        return;
      }
      var context := ContextFromTick(View(), instrumentId, quote);
      if context.Some? {
        BeginEvaluation(context.value, i);
      }
    }

    method OnOptionGreeks(i: Inputs)
      requires Synced()
      modifies this, file, file.store
      ensures Synced() && origin == old(origin)
      ensures View() == StrategyFsm.OnOptionGreeks(old(View()), i)
    {
      hide Synced, Continues, SameIds, SameOutbox, SameVerdicts, Quiet, ReadAll, StrategyFsm.SubmitDeltaHedge;
      if !state.InPosition? {
        return;
      }
      if cfg.plumbing || cfg.hedgePerp.None? {
        return;
      }
      var delta := GreeksOrZero(i.current).delta;
      if Abs(delta) <= cfg.hedgeDeltaBand || hedgeSubmitted {
        return;
      }
      hedgeSubmitted := true;
      SubmitDeltaHedge(cfg.hedgePerp.value, delta, i);
    }

    method SubmitDeltaHedge(perp: string, delta: real, i: Inputs)
      requires Synced()
      modifies this, file, file.store
      ensures Synced() && origin == old(origin)
      ensures View() == StrategyFsm.SubmitDeltaHedge(old(View()), perp, delta, i)
    {
      hide Synced, Continues, SameIds, SameOutbox, SameVerdicts, Quiet, ReadAll, StrategyFsm.Record;
      if perp !in i.instruments {
        return;
      }
      var side := if delta > 0.0 then SELL else BUY;
      Record(LIFECYCLE, activeIntentId, DeltaHedge(delta));
      if !cfg.dryRun {
        calls := calls + [MarketOrder(Hedge, perp, side, Min(Abs(delta), cfg.orderQty))];
      }
    }

    method OnSessionPhase(allowsEntry: bool, flatten: bool, i: Inputs)
      requires Synced()
      modifies this, file, file.store
      ensures Synced() && origin == old(origin)
      ensures View() == StrategyFsm.OnSessionPhase(old(View()), allowsEntry, flatten, i)
    {
      hide Synced, Continues, SameIds, SameOutbox, SameVerdicts, Quiet, ReadAll, StrategyFsm.FlattenPositions;
      sessionAllowsEntry := allowsEntry;
      sessionReceived := true;
      flattenSignal := flatten;
      if flatten && (state.InPosition? || state.PendingEntry?) {
        FlattenPositions(SessionClosed, i);
      }
    }

    method OnRegimeTag(tag: string)
      requires Synced()
      modifies this, file, file.store
      ensures Synced() && origin == old(origin)
      ensures View() == StrategyFsm.OnRegimeTag(old(View()), tag)
    {
      hide Synced, Continues, SameIds, SameOutbox, SameVerdicts, Quiet, ReadAll;
      var parsed := ParseTag(tag);
      if parsed.None? {
        return;
      }
      regimeTag := parsed.value;
      regimeReceived := true;
    }

    method JournalFill(price: real, quantity: real)
      requires Synced()
      modifies this, file, file.store
      ensures Synced() && origin == old(origin)
      ensures View() == StrategyFsm.JournalFill(old(View()), price, quantity)
    {
      hide Synced, Continues, SameIds, SameOutbox, SameVerdicts, Quiet, ReadAll, View, StrategyFsm.Record;
      Record(FILL, activeIntentId, Fill(price, quantity));
      if activeIntentId.Some? {
        Record(LEARNING, activeIntentId, LearningRecord(activeIntentId.value));
      } else if activeIntent.Some? {
        Record(LEARNING, Some(activeIntent.value.intentId), LearningRecord(activeIntent.value.intentId));
      }
      Record(PNL, activeIntentId, Pnl);
    }

    method OpenPosition(price: real)
      requires Synced()
      modifies this, file, file.store
      ensures Synced() && origin == old(origin)
      ensures View() == StrategyFsm.OpenPosition(old(View()), price)
    {
      hide Synced, Continues, SameIds, SameOutbox, SameVerdicts, Quiet, ReadAll, StrategyFsm.Transition;
      entryPrice := Some(price);
      Transition(InPosition, EntryFill);
    }

    method ClosePosition()
      requires Synced()
      modifies this, file, file.store
      ensures Synced() && origin == old(origin)
      ensures View() == StrategyFsm.ClosePosition(old(View()))
    {
      hide Synced, Continues, SameIds, SameOutbox, SameVerdicts, Quiet, ReadAll, StrategyFsm.Transition;
      activeIntentId := None;
      activeIntent := None;
      entryPrice := None;
      Transition(Flat, ExitFill);
    }

    method OnOrderFilled(price: real, quantity: real)
      requires Synced()
      modifies this, file, file.store
      ensures Synced() && origin == old(origin)
      ensures View() == StrategyFsm.OnOrderFilled(old(View()), price, quantity)
    {
      hide Synced, View, Continues, SameIds, SameOutbox, SameVerdicts, Quiet, ReadAll,
        StrategyFsm.JournalFill, StrategyFsm.OpenPosition, StrategyFsm.ClosePosition;
      JournalFill(price, quantity);
      if state.PendingEntry? {
        OpenPosition(price);
      } else if state.Exiting? {
        ClosePosition();
      }
    }

    method GiveUpEntry(why: Reason)
      requires Synced()
      modifies this, file, file.store
      ensures Synced() && origin == old(origin)
      ensures View() == StrategyFsm.GiveUpEntry(old(View()), why)
    {
      hide Synced, Continues, SameIds, SameOutbox, SameVerdicts, Quiet, ReadAll, StrategyFsm.Transition;
      activeIntentId := None;
      activeIntent := None;
      Transition(Flat, why);
    }

    method OnOrderRejected()
      requires Synced()
      modifies this, file, file.store
      ensures Synced() && origin == old(origin)
      ensures View() == StrategyFsm.OnOrderRejected(old(View()))
    {
      hide Synced, View, Continues, SameIds, SameOutbox, SameVerdicts, Quiet, ReadAll,
        StrategyFsm.Record, StrategyFsm.GiveUpEntry;
      if !state.PendingEntry? {
        return;
      }
      Record(LIFECYCLE, activeIntentId, OrderRejected);
      GiveUpEntry(OrderRejectedByVenue);
    }

    method OnOrderDenied()
      requires Synced()
      modifies this, file, file.store
      ensures Synced() && origin == old(origin)
      ensures View() == StrategyFsm.OnOrderDenied(old(View()))
    {
      hide Synced, View, Continues, SameIds, SameOutbox, SameVerdicts, Quiet, ReadAll,
        StrategyFsm.Record, StrategyFsm.GiveUpEntry;
      if !state.PendingEntry? {
        return;
      }
      Record(RISK_ENGINE, activeIntentId, OrderDenied);
      GiveUpEntry(OrderDeniedByEngine);
    }

    method OnIntentApproved(m: ApprovedSnapshot, i: Inputs)
      requires Synced()
      modifies this, file, file.store
      ensures Synced() && origin == old(origin)
      ensures View() == StrategyFsm.OnIntentApproved(old(View()), m, i)
    {
      hide Synced, Continues, SameIds, SameOutbox, SameVerdicts, Quiet, ReadAll, StrategyFsm.SubmitApprovedIntent,
        FromSnapshot;
      if m.snapshot.strategyId != cfg.strategyId {
        return;
      }
      if !state.PendingApproval? || pendingIntent.None? {
        return;
      }
      if pendingIntent.value.intentId != m.snapshot.intentId {
        return;
      }
      var intent := FromSnapshot(m.snapshot);
      if intent.None? {
        return;
      }
      pendingIntent := None;
      SubmitApprovedIntent(intent.value, i);
    }

    method OnIntentRejected(m: RejectedSnapshot)
      requires Synced()
      modifies this, file, file.store
      ensures Synced() && origin == old(origin)
      ensures View() == StrategyFsm.OnIntentRejected(old(View()), m)
    {
      hide Synced, Continues, SameIds, SameOutbox, SameVerdicts, Quiet, ReadAll, StrategyFsm.Record,
        StrategyFsm.Transition;
      if m.strategyId != cfg.strategyId {
        return;
      }
      if !state.PendingApproval? || pendingIntent.None? {
        return;
      }
      if pendingIntent.value.intentId != m.intentId {
        return;
      }
      Record(LIFECYCLE, Some(pendingIntent.value.intentId), SelectorRejected(m.intentId));
      pendingIntent := None;
      Transition(Flat, SelectorReject);
    }

    method OnStart()
      requires Synced()
      modifies this, file, file.store
      ensures Synced() && origin == old(origin)
      ensures View() == StrategyFsm.OnStart(old(View()))
    {
      hide Synced, Continues, SameIds, SameOutbox, SameVerdicts, Quiet, ReadAll, StrategyFsm.Record;
      Record(LIFECYCLE, None, StrategyStart);
    }

    method OnStop()
      requires Synced()
      modifies this, file, file.store
      ensures Synced() && origin == old(origin)
      ensures View() == StrategyFsm.OnStop(old(View()))
    {
      hide Synced, Continues, SameIds, SameOutbox, SameVerdicts, Quiet, ReadAll, StrategyFsm.Record;
      Record(LIFECYCLE, None, StrategyStop(state));
    }

    /** Dispatch of one event; the verdict topics are subscribed only when the selector is enabled. */
    method Dispatch(e: Event)
      requires Synced()
      modifies this, file, file.store
      ensures Synced() && origin == old(origin)
      ensures View() == Step(old(View()), e)
    {
      hide Synced, Continues, SameIds, SameOutbox, SameVerdicts, Quiet, ReadAll, StrategyFsm.OnOptionChain,
        StrategyFsm.OnQuoteTick, StrategyFsm.OnOptionGreeks, StrategyFsm.OnSessionPhase, StrategyFsm.OnRegimeTag,
        StrategyFsm.OnOrderFilled, StrategyFsm.OnOrderRejected, StrategyFsm.OnOrderDenied,
        StrategyFsm.OnIntentApproved, StrategyFsm.OnIntentRejected, StrategyFsm.OnStart, StrategyFsm.OnStop;
      match e
      case ChainArrived(chain, i) => OnOptionChain(chain, i);
      case QuoteTick(ts, instrumentId, quote, i) => OnQuoteTick(ts, instrumentId, quote, i);
      case OptionGreeksArrived(i) => OnOptionGreeks(i);
      case SessionPhase(allows, flatten, i) => OnSessionPhase(allows, flatten, i);
      case RegimeMessage(tag) => OnRegimeTag(tag);
      case OrderFilledEvent(price, quantity) => OnOrderFilled(price, quantity);
      case OrderRejectedEvent => OnOrderRejected();
      case OrderDeniedEvent => OnOrderDenied();
      case IntentApproved(m, i) =>
        if cfg.selectorEnabled {
          OnIntentApproved(m, i);
        }
      case IntentRejected(m) =>
        if cfg.selectorEnabled {
          OnIntentRejected(m);
        }
      case Started => OnStart();
      case Stopped => OnStop();
    }

    /** One callback: the object steps, and the shared file gains exactly the records it journals. */
    method Handle(e: Event)
      requires file.Valid()
      modifies this, file, file.store
      ensures file.Valid()
      ensures View() == Step(old(View()), e)
      ensures file.log == old(file.log) + NewRecords(old(View()), View())
    {
      hide Step, file.Valid;
      origin := Origin(file.log, |journal|);
      Dispatch(e);
    }
  }
}
