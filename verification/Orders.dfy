/** What the strategy sends to the engine over a run: entries, exits, hedges and their prices. */
module Orders {
  import opened Models
  import opened Messages
  import opened Gates
  import opened Audit
  import opened StrategyFsm
  import opened StrategyRuns

  /* ---- Entries and exits pair up ----------------------------------------------------------- */

  predicate IsEntry(c: EngineCall) {
    c.BracketOrder? || (c.MarketOrder? && c.purpose.Entry?)
  }

  predicate IsExit(c: EngineCall) {
    c.MarketOrder? && c.purpose.Exit?
  }

  /** The last entry or exit order sent. */
  function LastTrade(calls: seq<EngineCall>): Option<EngineCall> {
    if |calls| == 0 then None
    else if IsEntry(calls[|calls| - 1]) || IsExit(calls[|calls| - 1]) then Some(calls[|calls| - 1])
    else LastTrade(calls[..|calls| - 1])
  }

  /** c sells what the order before it bought: same instrument, same quantity. */
  predicate Closes(c: EngineCall, before: Option<EngineCall>) {
    && c.MarketOrder? && c.side.SELL?
    && before.Some? && IsEntry(before.value)
    && before.value.instrumentId == c.instrumentId && before.value.quantity == c.quantity
  }

  /** Every exit closes the entry sent last before it, so no entry is closed twice. */
  ghost predicate Paired(calls: seq<EngineCall>) {
    |calls| == 0 ||
    (Paired(calls[..|calls| - 1]) &&
     (IsExit(calls[|calls| - 1]) ==> Closes(calls[|calls| - 1], LastTrade(calls[..|calls| - 1]))))
  }

  lemma OneMoreCall(calls: seq<EngineCall>, c: EngineCall)
    requires Paired(calls) && (IsExit(c) ==> Closes(c, LastTrade(calls)))
    ensures Paired(calls + [c])
    ensures LastTrade(calls + [c]) == if IsEntry(c) || IsExit(c) then Some(c) else LastTrade(calls)
  {
    assert (calls + [c])[..|calls|] == calls;
  }

  /** The instrument an exit would sell now. */
  function ExitInstrument(s: Strategy): string {
    if s.cfg.plumbing then s.cfg.underlying
    else if s.positionInstrument != "" then s.positionInstrument else s.cfg.underlying
  }

  /** The order sent last is an entry of what an exit would sell now. */
  predicate Bought(s: Strategy) {
    var last := LastTrade(s.calls);
    && last.Some? && IsEntry(last.value)
    && last.value.instrumentId == ExitInstrument(s) && last.value.quantity == s.cfg.orderQty
  }

  ghost predicate InOrder(s: Strategy) {
    Paired(s.calls) && (s.state.PendingEntry? || s.state.InPosition? ==> Bought(s))
  }

  /** The empty text names no instrument. */
  predicate Named(e: Event) {
    match e
    case ChainArrived(_, i) => "" !in i.instruments
    case QuoteTick(_, _, _, i) => "" !in i.instruments
    case OptionGreeksArrived(i) => "" !in i.instruments
    case SessionPhase(_, _, i) => "" !in i.instruments
    case IntentApproved(_, i) => "" !in i.instruments
    case _ => true
  }

  /** Nothing the pairing depends on changed, except the state. */
  predicate SameOrders(s: Strategy, t: Strategy) {
    t.cfg == s.cfg && t.calls == s.calls && t.positionInstrument == s.positionInstrument
  }

  predicate Holding(s: Strategy) {
    s.state.PendingEntry? || s.state.InPosition?
  }

  lemma OrderKept(s: Strategy, t: Strategy)
    requires InOrder(s) && SameOrders(s, t) && (Holding(t) ==> Holding(s))
    ensures InOrder(t)
  {
    hide Paired, LastTrade;
  }

  lemma RecordOrders(s: Strategy, stage: GateStage, refId: Option<IntentId>, p: Payload)
    requires !Foreign(p)
    ensures var t := Record(s, stage, refId, p);
            && SameOrders(s, t) && t.state == s.state
            && t.activeIntentId == s.activeIntentId && t.activeIntent == s.activeIntent
  {
    hide ReadAll;
  }

  lemma TransitionOrders(s: Strategy, to: StrategyState, reason: Reason)
    ensures var t := Transition(s, to, reason);
            && SameOrders(s, t) && t.state == to
            && t.activeIntentId == s.activeIntentId && t.activeIntent == s.activeIntent
  {
    hide ReadAll;
  }

  lemma ErrorOrders(s: Strategy, intent: TradeIntent)
    ensures SameOrders(s, JournalOrderError(s, intent)) && JournalOrderError(s, intent).state.Flat?
  {
    hide ReadAll, Record, Transition;
    RecordOrders(s, LIFECYCLE, Some(intent.intentId), OrderError(InstrumentNotFound));
    TransitionOrders(Record(s, LIFECYCLE, Some(intent.intentId), OrderError(InstrumentNotFound)), Flat,
                     InstrumentNotFound);
  }

  lemma EntryKeepsOrder(s: Strategy, intent: TradeIntent, i: Inputs)
    requires Paired(s.calls) && "" !in i.instruments
    ensures InOrder(SubmitEntry(s, intent, i))
  {
    hide ReadAll, LastTrade, Paired, EntryPriceEstimate, JournalOrderError, Continues, SameIds, SameOutbox,
      SameVerdicts;
    ErrorOrders(s, intent);
    if s.cfg.plumbing {
      OneMoreCall(s.calls, MarketOrder(Purpose.Entry, s.cfg.underlying, BUY, s.cfg.orderQty));
    } else {
      OneMoreCall(s.calls, BracketFor(s.cfg, intent.instrumentId, EntryPriceEstimate(intent.instrumentId, i)));
    }
  }

  lemma SubmitKeepsOrder(s: Strategy, intent: TradeIntent, i: Inputs)
    requires Paired(s.calls) && "" !in i.instruments
    ensures InOrder(SubmitApprovedIntent(s, intent, i))
  {
    hide ReadAll, Paired, InOrder, SubmitEntry, Record, Transition, Continues, SameIds, SameOutbox, SameVerdicts;
    var a := s.(activeIntentId := Some(intent.intentId), activeIntent := Some(intent));
    var p := Transition(a, PendingEntry, Submit);
    TransitionOrders(a, PendingEntry, Submit);
    RecordOrders(p, LIFECYCLE, Some(intent.intentId), OrderSubmit(intent.intentId, intent.instrumentId));
    EntryKeepsOrder(Record(p, LIFECYCLE, Some(intent.intentId), OrderSubmit(intent.intentId, intent.instrumentId)),
                    intent, i);
  }

  lemma RefusalOrders(s: Strategy, stage: GateStage, intent: TradeIntent, rules: seq<Rule>, why: Reason)
    ensures SameOrders(s, RefuseIntent(s, stage, intent, rules, why))
    ensures RefuseIntent(s, stage, intent, rules, why).state.Flat?
  {
    hide ReadAll, Record, Transition, Continues, SameIds, SameOutbox, SameVerdicts;
    RecordOrders(s, stage, Some(intent.intentId), GateReject(rules, intent.intentId));
    TransitionOrders(Record(s, stage, Some(intent.intentId), GateReject(rules, intent.intentId)), Flat, why);
  }

  lemma AfterGatesKeepsOrder(s: Strategy, intent: TradeIntent, i: Inputs)
    requires InOrder(s) && s.state.Evaluating? && "" !in i.instruments
    ensures InOrder(AfterGates(s, intent, i))
  {
    if s.cfg.dryRun {
      hide ReadAll, InOrder, Record, Transition, Continues, SameIds, SameOutbox, SameVerdicts;
      var dry := DryRunIntent(intent.intentId, intent.instrumentId, intent.edge);
      RecordOrders(s, LIFECYCLE, Some(intent.intentId), dry);
      TransitionOrders(Record(s, LIFECYCLE, Some(intent.intentId), dry), Flat, DryRun);
      OrderKept(s, AfterGates(s, intent, i));
    } else if s.cfg.selectorEnabled {
      hide ReadAll, InOrder, Record, Transition, Continues, SameIds, SameOutbox, SameVerdicts;
      TransitionOrders(s.(pendingIntent := Some(intent)), PendingApproval, SelectorQueue);
      OrderKept(s, AfterGates(s, intent, i));
    } else {
      hide SubmitApprovedIntent;
      SubmitKeepsOrder(s, intent, i);
    }
  }

  lemma PipelineKeepsOrder(s: Strategy, intent: TradeIntent, c: Context, i: Inputs)
    requires InOrder(s) && s.state.Evaluating? && "" !in i.instruments
    ensures InOrder(RunGatePipeline(s, intent, c, i))
  {
    hide ReadAll, InOrder, PreGreek, RiskBreaches, GateContextOf, RefuseIntent, AfterGates, Record,
      Continues, SameIds, SameOutbox, SameVerdicts;
    var pre := PreGreek(intent, GateContextOf(s, c, i.now));
    var breaches := RiskBreaches(s.cfg.risk, GreeksOrZero(i.shocked));
    if pre.Failed? {
      RefusalOrders(s, pre.stage, intent, pre.rules, GateRejected);
      OrderKept(s, RunGatePipeline(s, intent, c, i));
    } else if |breaches| > 0 {
      RefusalOrders(s, GREEK, intent, breaches, GreekRejected);
      OrderKept(s, RunGatePipeline(s, intent, c, i));
    } else {
      var g := Record(s, GREEK, Some(intent.intentId), GreekPassed(intent.intentId));
      RecordOrders(s, GREEK, Some(intent.intentId), GreekPassed(intent.intentId));
      OrderKept(s, g);
      AfterGatesKeepsOrder(g, intent, i);
    }
  }

  lemma EvaluationKeepsOrder(s: Strategy, c: Context, i: Inputs)
    requires InOrder(s) && s.state.Flat? && "" !in i.instruments
    ensures InOrder(BeginEvaluation(s, c, i))
  {
    hide ReadAll, InOrder, RunGatePipeline, BuildIntent, Transition, Continues, SameIds, SameOutbox, SameVerdicts;
    var e := Transition(s, Evaluating, Signal);
    TransitionOrders(s, Evaluating, Signal);
    OrderKept(s, e);
    TransitionOrders(e, Flat, NoIntent);
    OrderKept(e, Transition(e, Flat, NoIntent));
    PipelineKeepsOrder(e, BuildIntent(e, c, i.freshId), c, i);
  }

  lemma SubmitExitKeepsOrder(s: Strategy, i: Inputs)
    requires Paired(s.calls) && Bought(s) && s.state.Exiting?
    ensures InOrder(SubmitExit(s, i))
  {
    hide ReadAll, LastTrade, Paired, JournalOrderError, Continues, SameIds, SameOutbox, SameVerdicts;
    if s.activeIntent.Some? {
      ErrorOrders(s, s.activeIntent.value);
    }
    OneMoreCall(s.calls, MarketOrder(Exit, ExitInstrument(s), SELL, s.cfg.orderQty));
  }

  lemma ExitKeepsOrder(s: Strategy, reason: Reason, i: Inputs)
    requires InOrder(s) && s.state.InPosition?
    ensures InOrder(BeginExit(s, reason, i))
  {
    hide ReadAll, LastTrade, Paired, Transition, SubmitExit, Continues, SameIds, SameOutbox, SameVerdicts;
    TransitionOrders(s, Exiting, reason);
    SubmitExitKeepsOrder(Transition(s, Exiting, reason), i);
  }

  lemma CancelKeepsOrder(s: Strategy)
    requires InOrder(s)
    ensures InOrder(s.(calls := s.calls + [CancelAllOrders]))
  {
    hide LastTrade, Paired;
    OneMoreCall(s.calls, CancelAllOrders);
  }

  lemma FlattenKeepsOrder(s: Strategy, reason: Reason, i: Inputs)
    requires InOrder(s)
    ensures InOrder(FlattenPositions(s, reason, i))
  {
    hide ReadAll, InOrder, BeginExit, Record, Continues, SameIds, SameOutbox, SameVerdicts;
    if s.state.InPosition? || s.state.PendingEntry? {
      var c := s.(calls := s.calls + [CancelAllOrders]);
      CancelKeepsOrder(s);
      if s.state.InPosition? {
        ExitKeepsOrder(c, reason, i);
      }
    } else {
      RecordOrders(s, LIFECYCLE, None, FlattenSkipped(s.state, reason));
      OrderKept(s, FlattenPositions(s, reason, i));
    }
  }

  lemma TickKeepsOrder(s: Strategy, ts: int, id: string, quote: Costs.Quote, i: Inputs)
    requires InOrder(s) && "" !in i.instruments
    ensures InOrder(OnQuoteTick(s, ts, id, quote, i))
  {
    hide ReadAll, InOrder, BeginEvaluation, BeginExit, FlattenPositions, ContextFromTick, ProfitPct,
      Continues, SameIds, SameOutbox, SameVerdicts;
    var t := s.(lastQuoteTs := Some(ts));
    OrderKept(s, t);
    if t.state.InPosition? {
      FlattenKeepsOrder(t, SessionClosed, i);
      OrderKept(t, t.(exitSubmitted := true));
      ExitKeepsOrder(t.(exitSubmitted := true), TakeProfitStopLoss, i);
    } else if t.state.Flat? && ContextFromTick(t, id, quote).Some? {
      EvaluationKeepsOrder(t, ContextFromTick(t, id, quote).value, i);
    }
  }

  lemma ChainKeepsOrder(s: Strategy, chain: Structures.Chain, i: Inputs)
    requires InOrder(s) && "" !in i.instruments
    ensures InOrder(OnOptionChain(s, chain, i))
  {
    hide ReadAll, InOrder, BeginEvaluation, ContextFromChain, Continues, SameIds, SameOutbox, SameVerdicts;
    var t := s.(lastChainTs := Some(chain.ts));
    OrderKept(s, t);
    if t.state.Flat? && ContextFromChain(t, chain).Some? {
      EvaluationKeepsOrder(t, ContextFromChain(t, chain).value, i);
    }
  }

  lemma HedgeOrders(s: Strategy, perp: string, delta: real, i: Inputs)
    requires InOrder(s)
    ensures InOrder(SubmitDeltaHedge(s, perp, delta, i))
  {
    hide ReadAll, LastTrade, Paired, Record, Continues, SameIds, SameOutbox, SameVerdicts;
    RecordOrders(s, LIFECYCLE, s.activeIntentId, DeltaHedge(delta));
    OneMoreCall(s.calls, MarketOrder(Hedge, perp, if delta > 0.0 then SELL else BUY, Min(Abs(delta), s.cfg.orderQty)));
  }

  lemma GreeksKeepOrder(s: Strategy, i: Inputs)
    requires InOrder(s)
    ensures InOrder(OnOptionGreeks(s, i))
  {
    hide ReadAll, InOrder, SubmitDeltaHedge, Continues, SameIds, SameOutbox, SameVerdicts;
    OrderKept(s, s.(hedgeSubmitted := true));
    if s.cfg.hedgePerp.Some? {
      HedgeOrders(s.(hedgeSubmitted := true), s.cfg.hedgePerp.value, GreeksOrZero(i.current).delta, i);
    }
  }

  lemma JournalFillOrders(s: Strategy, price: real, quantity: real)
    ensures SameOrders(s, JournalFill(s, price, quantity)) && JournalFill(s, price, quantity).state == s.state
  {
    hide ReadAll, Record, Continues, SameIds, SameOutbox, SameVerdicts;
    var f := Record(s, FILL, s.activeIntentId, Fill(price, quantity));
    RecordOrders(s, FILL, s.activeIntentId, Fill(price, quantity));
    if f.activeIntentId.Some? {
      RecordOrders(f, LEARNING, f.activeIntentId, LearningRecord(f.activeIntentId.value));
    } else if f.activeIntent.Some? {
      RecordOrders(f, LEARNING, Some(f.activeIntent.value.intentId), LearningRecord(f.activeIntent.value.intentId));
    }
    var l := JournalLearning(f);
    RecordOrders(l, PNL, l.activeIntentId, Pnl);
  }

  lemma FillKeepsOrder(s: Strategy, price: real, quantity: real)
    requires InOrder(s)
    ensures InOrder(OnOrderFilled(s, price, quantity))
  {
    hide ReadAll, InOrder, JournalFill, Transition, Continues, SameIds, SameOutbox, SameVerdicts;
    var j := JournalFill(s, price, quantity);
    JournalFillOrders(s, price, quantity);
    TransitionOrders(j.(entryPrice := Some(price)), InPosition, EntryFill);
    TransitionOrders(j.(activeIntentId := None, activeIntent := None, entryPrice := None), Flat, ExitFill);
    OrderKept(s, OnOrderFilled(s, price, quantity));
  }

  lemma RefusedOrderKeeps(s: Strategy)
    requires InOrder(s)
    ensures InOrder(OnOrderRejected(s)) && InOrder(OnOrderDenied(s))
  {
    hide ReadAll, InOrder, Record, Transition, Continues, SameIds, SameOutbox, SameVerdicts;
    RecordOrders(s, LIFECYCLE, s.activeIntentId, OrderRejected);
    RecordOrders(s, RISK_ENGINE, s.activeIntentId, OrderDenied);
    var j := Record(s, LIFECYCLE, s.activeIntentId, OrderRejected);
    var d := Record(s, RISK_ENGINE, s.activeIntentId, OrderDenied);
    TransitionOrders(j.(activeIntentId := None, activeIntent := None), Flat, OrderRejectedByVenue);
    TransitionOrders(d.(activeIntentId := None, activeIntent := None), Flat, OrderDeniedByEngine);
    OrderKept(s, OnOrderRejected(s));
    OrderKept(s, OnOrderDenied(s));
  }

  lemma VerdictKeepsOrder(s: Strategy, e: Event)
    requires InOrder(s) && Named(e) && (e.IntentApproved? || e.IntentRejected?)
    ensures InOrder(Step(s, e))
  {
    if e.IntentApproved? {
      hide ReadAll, LastTrade, Paired, SubmitApprovedIntent, FromSnapshot, Continues, SameIds, SameOutbox,
        SameVerdicts, Bought;
      if FromSnapshot(e.approved.snapshot).Some? {
        SubmitKeepsOrder(s.(pendingIntent := None), FromSnapshot(e.approved.snapshot).value, e.inputs);
      }
    } else {
      hide ReadAll, InOrder, Record, Transition, Continues, SameIds, SameOutbox, SameVerdicts;
      var m := e.rejected;
      RecordOrders(s, LIFECYCLE, Some(m.intentId), SelectorRejected(m.intentId));
      var j := Record(s, LIFECYCLE, Some(m.intentId), SelectorRejected(m.intentId));
      TransitionOrders(j.(pendingIntent := None), Flat, SelectorReject);
      OrderKept(s, Step(s, e));
    }
  }

  lemma SessionKeepsOrder(s: Strategy, allows: bool, flatten: bool, i: Inputs)
    requires InOrder(s)
    ensures InOrder(OnSessionPhase(s, allows, flatten, i))
  {
    hide ReadAll, InOrder, FlattenPositions, Continues, SameIds, SameOutbox, SameVerdicts;
    var t := s.(sessionAllowsEntry := allows, sessionReceived := true, flattenSignal := flatten);
    OrderKept(s, t);
    FlattenKeepsOrder(t, SessionClosed, i);
  }

  lemma LifecycleKeepsOrder(s: Strategy)
    requires InOrder(s)
    ensures InOrder(OnStart(s)) && InOrder(OnStop(s))
  {
    hide ReadAll, InOrder, Record, Continues, SameIds, SameOutbox, SameVerdicts;
    RecordOrders(s, LIFECYCLE, None, StrategyStart);
    RecordOrders(s, LIFECYCLE, None, StrategyStop(s.state));
    OrderKept(s, OnStart(s));
    OrderKept(s, OnStop(s));
  }

  lemma StepKeepsOrder(s: Strategy, e: Event)
    requires InOrder(s) && Named(e)
    ensures InOrder(Step(s, e))
  {
    hide ReadAll, InOrder, OnOptionChain, OnQuoteTick, OnOptionGreeks, OnSessionPhase, OnOrderFilled, OnOrderRejected,
      OnOrderDenied, OnIntentApproved, OnIntentRejected, OnStart, OnStop;
    match e
    case ChainArrived(chain, i) => ChainKeepsOrder(s, chain, i);
    case QuoteTick(ts, id, quote, i) => TickKeepsOrder(s, ts, id, quote, i);
    case OptionGreeksArrived(i) => GreeksKeepOrder(s, i);
    case SessionPhase(allows, flatten, i) => SessionKeepsOrder(s, allows, flatten, i);
    case RegimeMessage(tag) => OrderKept(s, OnRegimeTag(s, tag));
    case OrderFilledEvent(price, quantity) => FillKeepsOrder(s, price, quantity);
    case OrderRejectedEvent => RefusedOrderKeeps(s);
    case OrderDeniedEvent => RefusedOrderKeeps(s);
    case Started => LifecycleKeepsOrder(s);
    case Stopped => LifecycleKeepsOrder(s);
    case _ => VerdictKeepsOrder(s, e);
  }

  /**
   * Over any run, whatever fills, rejections and messages arrive: every exit order sells exactly the
   * instrument and quantity of the entry order sent last before it, and no entry is closed twice.
   */
  lemma {:induction false} ExitsCloseEntries(cfg: Config, events: seq<Event>)
    requires forall k :: 0 <= k < |events| ==> Named(events[k])
    ensures InOrder(Run(Initial(cfg), events))
  {
    if |events| > 0 {
      hide Step, InOrder;
      ExitsCloseEntries(cfg, events[..|events| - 1]);
      StepKeepsOrder(Run(Initial(cfg), events[..|events| - 1]), events[|events| - 1]);
    }
  }

  function CountCalls(calls: seq<EngineCall>, exits: bool): nat {
    if |calls| == 0 then 0
    else CountCalls(calls[..|calls| - 1], exits) +
         One(if exits then IsExit(calls[|calls| - 1]) else IsEntry(calls[|calls| - 1]))
  }

  lemma {:induction false} PairedCounts(calls: seq<EngineCall>)
    requires Paired(calls)
    ensures CountCalls(calls, true) + One(LastTrade(calls).Some? && IsEntry(LastTrade(calls).value)) <=
            CountCalls(calls, false)
  {
    if |calls| > 0 {
      PairedCounts(calls[..|calls| - 1]);
    }
  }

  /** A strategy never sends more exit orders than entry orders. */
  lemma NeverMoreExitsThanEntries(cfg: Config, events: seq<Event>)
    requires forall k :: 0 <= k < |events| ==> Named(events[k])
    ensures var calls := Run(Initial(cfg), events).calls;
            CountCalls(calls, true) <= CountCalls(calls, false)
  {
    hide Run, Paired, CountCalls, LastTrade;
    ExitsCloseEntries(cfg, events);
    PairedCounts(Run(Initial(cfg), events).calls);
  }

  /* ---- Leaving a position when the session closes ---------------------------------------------- */

  /** The event tells a strategy in position to flatten: a closing message, or any tick after one. */
  predicate TellsToFlatten(s: Strategy, e: Event) {
    match e
    case SessionPhase(_, flatten, _) => flatten
    case QuoteTick(_, _, _, _) => s.flattenSignal
    case _ => false
  }

  function InputsOf(e: Event): Inputs
    requires e.SessionPhase? || e.QuoteTick?
  {
    match e
    case SessionPhase(_, _, i) => i
    case QuoteTick(_, _, _, i) => i
  }

  lemma ExitSends(s: Strategy, reason: Reason, i: Inputs)
    requires s.state.InPosition? && s.activeIntent.Some?
    ensures var t := BeginExit(s, reason, i);
            && !t.state.InPosition?
            && (ExitInstrument(s) in i.instruments ==>
                  t.state.Exiting? && t.calls == s.calls + [MarketOrder(Exit, ExitInstrument(s), SELL, s.cfg.orderQty)])
            && (ExitInstrument(s) !in i.instruments ==>
                  t.calls == s.calls && (t.state.Exiting? <==> !s.cfg.plumbing))
  {
    hide ReadAll, Transition, JournalOrderError, Continues, SameIds, SameOutbox, SameVerdicts;
    TransitionOrders(s, Exiting, reason);
    ErrorOrders(Transition(s, Exiting, reason), s.activeIntent.value);
  }

  lemma HasActiveIntent(s: Strategy)
    requires Inv(s) && s.state.InPosition?
    ensures s.activeIntentId.Some? && s.activeIntent.Some?
  {
    hide ReadAll;
  }

  /** The strategy as it begins to flatten: the message taken in, and the cancel call sent. */
  function Cancelled(s: Strategy, e: Event): Strategy
    requires e.SessionPhase? || e.QuoteTick?
  {
    match e
    case SessionPhase(allows, flatten, _) =>
      s.(sessionAllowsEntry := allows, sessionReceived := true, flattenSignal := flatten,
         calls := s.calls + [CancelAllOrders])
    case QuoteTick(ts, _, _, _) => s.(lastQuoteTs := Some(ts), calls := s.calls + [CancelAllOrders])
  }

  lemma CancelledKeeps(s: Strategy, e: Event)
    requires e.SessionPhase? || e.QuoteTick?
    ensures var c := Cancelled(s, e);
            && c.state == s.state && c.cfg == s.cfg && c.activeIntent == s.activeIntent && c.journal == s.journal
            && c.positionInstrument == s.positionInstrument && c.calls == s.calls + [CancelAllOrders]
  {
  }

  lemma FlattenIsExit(s: Strategy, e: Event)
    requires s.state.InPosition? && s.activeIntentId.Some? && TellsToFlatten(s, e) && !InputsOf(e).cancelRaises
    ensures Step(s, e) == BeginExit(Cancelled(s, e), SessionClosed, InputsOf(e))
  {
    hide ReadAll, BeginExit, Continues, SameIds, SameOutbox, SameVerdicts;
  }

  /** A cancel call that raises ends the callback: the message is taken in and nothing else happens. */
  lemma RaisingCancel(s: Strategy, e: Event)
    requires s.state.InPosition? && TellsToFlatten(s, e) && InputsOf(e).cancelRaises
    ensures Step(s, e) == Cancelled(s, e).(calls := s.calls)
  {
    hide ReadAll, Continues, SameIds, SameOutbox, SameVerdicts;
  }

  /**
   * A strategy in position that is told to flatten leaves the position if and only if cancelling does
   * not raise. If it raises, nothing is journalled and nothing sent. Otherwise the strategy cancels,
   * then sells what it holds if the instrument is known; when it is not known nothing is sold, and
   * outside plumbing mode the strategy is in Exiting all the same.
   */
  lemma FlattenLeavesPosition(s: Strategy, e: Event)
    requires Inv(s) && s.state.InPosition? && TellsToFlatten(s, e)
    ensures var t := Step(s, e);
            && (t.state.InPosition? <==> InputsOf(e).cancelRaises)
            && (InputsOf(e).cancelRaises ==> t.journal == s.journal && t.calls == s.calls)
            && (!InputsOf(e).cancelRaises && ExitInstrument(s) in InputsOf(e).instruments ==>
                  && t.state.Exiting?
                  && t.calls == s.calls + [CancelAllOrders, MarketOrder(Exit, ExitInstrument(s), SELL, s.cfg.orderQty)])
            && (!InputsOf(e).cancelRaises && ExitInstrument(s) !in InputsOf(e).instruments ==>
                  t.calls == s.calls + [CancelAllOrders] && (t.state.Exiting? <==> !s.cfg.plumbing))
  {
    hide Step, BeginExit, Inv, ReadAll, Cancelled;
    CancelledKeeps(s, e);
    if InputsOf(e).cancelRaises {
      RaisingCancel(s, e);
    } else {
      HasActiveIntent(s);
      FlattenIsExit(s, e);
      ExitSends(Cancelled(s, e), SessionClosed, InputsOf(e));
      var sell := MarketOrder(Exit, ExitInstrument(s), SELL, s.cfg.orderQty);
      assert s.calls + [CancelAllOrders] + [sell] == s.calls + [CancelAllOrders, sell];
    }
  }

  /** Cancelling raises, and no session message takes the flatten signal back. */
  predicate CannotFlatten(e: Event) {
    match e
    case SessionPhase(_, flatten, i) => flatten && i.cancelRaises
    case QuoteTick(_, _, _, i) => i.cancelRaises
    case _ => true
  }

  /** In position and told to flatten, as s; since s it sent hedges only and journalled no transition. */
  ghost predicate StuckSince(s: Strategy, t: Strategy) {
    && t.state.InPosition? && t.flattenSignal && t.exitSubmitted == s.exitSubmitted
    && s.calls <= t.calls
    && (forall k :: |s.calls| <= k < |t.calls| ==> t.calls[k].MarketOrder? && t.calls[k].purpose.Hedge?)
    && s.journal <= t.journal
    && (forall k :: |s.journal| <= k < |t.journal| ==> !t.journal[k].payload.FsmTransition?)
  }

  lemma StuckIsTransitive(s: Strategy, t: Strategy, u: Strategy)
    requires StuckSince(s, t) && StuckSince(t, u)
    ensures StuckSince(s, u)
  {
    forall k | |s.calls| <= k < |u.calls| ensures u.calls[k].MarketOrder? && u.calls[k].purpose.Hedge? {
      if k < |t.calls| {
        assert u.calls[k] == t.calls[k];
      }
    }
    forall k | |s.journal| <= k < |u.journal| ensures !u.journal[k].payload.FsmTransition? {
      if k < |t.journal| {
        assert u.journal[k] == t.journal[k];
      }
    }
  }

  lemma RecordStaysStuck(s: Strategy, stage: GateStage, refId: Option<IntentId>, p: Payload)
    requires s.state.InPosition? && s.flattenSignal && !p.FsmTransition? && !Foreign(p)
    ensures StuckSince(s, Record(s, stage, refId, p))
  {
    hide ReadAll;
  }

  lemma FillStaysStuck(s: Strategy, price: real, quantity: real)
    requires s.state.InPosition? && s.flattenSignal
    ensures StuckSince(s, JournalFill(s, price, quantity))
  {
    hide ReadAll, Record, StuckSince, Continues, SameIds, SameOutbox, SameVerdicts;
    var f := Record(s, FILL, s.activeIntentId, Fill(price, quantity));
    var l := JournalLearning(f);
    RecordStaysStuck(s, FILL, s.activeIntentId, Fill(price, quantity));
    NothingDoneStaysStuck(s, f);
    LearningStaysStuck(f);
    NothingDoneStaysStuck(f, l);
    RecordStaysStuck(l, PNL, l.activeIntentId, Pnl);
    StuckIsTransitive(s, f, l);
    StuckIsTransitive(s, l, Record(l, PNL, l.activeIntentId, Pnl));
  }

  lemma NothingDoneStaysStuck(s: Strategy, t: Strategy)
    requires StuckSince(s, t)
    ensures t.state.InPosition? && t.flattenSignal
  {
  }

  lemma LearningStaysStuck(s: Strategy)
    requires s.state.InPosition? && s.flattenSignal
    ensures StuckSince(s, JournalLearning(s))
  {
    hide ReadAll, Record, Continues, SameIds, SameOutbox, SameVerdicts;
    if s.activeIntentId.Some? {
      RecordStaysStuck(s, LEARNING, s.activeIntentId, LearningRecord(s.activeIntentId.value));
    } else if s.activeIntent.Some? {
      var id := s.activeIntent.value.intentId;
      RecordStaysStuck(s, LEARNING, Some(id), LearningRecord(id));
    }
  }

  lemma HedgeStaysStuck(s: Strategy, i: Inputs)
    requires s.state.InPosition? && s.flattenSignal
    ensures StuckSince(s, OnOptionGreeks(s, i))
  {
    hide ReadAll, Record, Continues, SameIds, SameOutbox, SameVerdicts;
    var delta := GreeksOrZero(i.current).delta;
    RecordStaysStuck(s.(hedgeSubmitted := true), LIFECYCLE, s.activeIntentId, DeltaHedge(delta));
    RecordOrders(s.(hedgeSubmitted := true), LIFECYCLE, s.activeIntentId, DeltaHedge(delta));
  }

  lemma StepStaysStuck(s: Strategy, e: Event)
    requires s.state.InPosition? && s.flattenSignal && CannotFlatten(e)
    ensures StuckSince(s, Step(s, e))
  {
    hide ReadAll, Record, JournalFill, OnOptionGreeks, Continues, SameIds, SameOutbox, SameVerdicts;
    match e
    case QuoteTick(_, _, _, _) => RaisingCancel(s, e);
    case SessionPhase(_, _, _) => RaisingCancel(s, e);
    case OptionGreeksArrived(i) => HedgeStaysStuck(s, i);
    case OrderFilledEvent(price, quantity) =>
      FillStaysStuck(s, price, quantity);
      NothingDoneStaysStuck(s, JournalFill(s, price, quantity));
    case Started => RecordStaysStuck(s, LIFECYCLE, None, StrategyStart);
    case Stopped => RecordStaysStuck(s, LIFECYCLE, None, StrategyStop(s.state));
    case _ =>
  }

  /**
   * Blackout flattening where cancelling always raises: a strategy in position that was told to flatten
   * stays in that position over any run, whatever is filled, quoted or said, until a session message
   * takes the signal back. It sells nothing, not even at the two exit prices.
   */
  lemma {:induction false} StuckInPosition(s: Strategy, events: seq<Event>)
    requires s.state.InPosition? && s.flattenSignal
    requires forall k :: 0 <= k < |events| ==> CannotFlatten(events[k])
    ensures StuckSince(s, Run(s, events))
  {
    if |events| > 0 {
      hide Step, StuckSince, CannotFlatten;
      var before, e := events[..|events| - 1], events[|events| - 1];
      StuckInPosition(s, before);
      NothingDoneStaysStuck(s, Run(s, before));
      StepStaysStuck(Run(s, before), e);
      StuckIsTransitive(s, Run(s, before), Step(Run(s, before), e));
    }
  }

  /* ---- Prices -------------------------------------------------------------------------------- */

  /**
   * With a positive entry price, the tick check leaves the position exactly when no exit was ever
   * triggered before and the bid reaches one of the two prices a bracket placed at that entry price
   * would carry.
   */
  lemma TriggersMatchBracket(s: Strategy, bid: real, i: Inputs)
    requires s.state.InPosition? && s.activeIntentId.Some?
    requires s.entryPrice.Some? && s.entryPrice.value > 0.0
    ensures var b := BracketFor(s.cfg, ExitInstrument(s), s.entryPrice.value);
            !CheckExitTriggers(s, bid, i).state.InPosition? <==>
            !s.exitSubmitted && (bid >= b.takeProfit.value || bid <= b.stopLoss.value)
  {
    hide ReadAll, CheckExitTriggers, ProfitPct;
    var e, tp, sl := s.entryPrice.value, s.cfg.takeProfitPct, s.cfg.stopLossPct;
    ProfitScales(e, bid, tp);
    ProfitScales(e, bid, -sl);
    assert e * (1.0 + -sl) == e * (1.0 - sl);
    TriggerLeaves(s, bid, i);
  }

  /**
   * The tick check never asks which instrument the tick is for: in position, quotes of any two
   * instruments with the same prices do the same. A spread bought at the price of the spread is held
   * against quotes of the underlying and of the hedge instrument, too, and sold by the first at or over
   * its take-profit price.
   */
  lemma AnyInstrumentTriggers(s: Strategy, ts: int, id: string, quote: Costs.Quote, i: Inputs)
    requires Inv(s) && s.state.InPosition? && !s.flattenSignal && !s.exitSubmitted
    requires s.entryPrice.Some? && s.entryPrice.value > 0.0
    ensures forall other ::
              Step(s, QuoteTick(ts, other, quote, i)) == Step(s, QuoteTick(ts, ExitInstrument(s), quote, i))
    ensures var t := Step(s, QuoteTick(ts, id, quote, i));
            var b := BracketFor(s.cfg, ExitInstrument(s), s.entryPrice.value);
            && (!t.state.InPosition? <==> quote.bid >= b.takeProfit.value || quote.bid <= b.stopLoss.value)
            && (!t.state.InPosition? && ExitInstrument(s) in i.instruments ==>
                  t.state.Exiting? && t.calls == s.calls + [MarketOrder(Exit, ExitInstrument(s), SELL, s.cfg.orderQty)])
  {
    hide ReadAll, Inv, BeginExit, BracketFor, ProfitPct, Continues, SameIds, SameOutbox, SameVerdicts;
    var r := s.(lastQuoteTs := Some(ts));
    HasActiveIntent(s);
    TriggersMatchBracket(r, quote.bid, i);
    ExitSends(r.(exitSubmitted := true), TakeProfitStopLoss, i);
  }

  ghost predicate HasTriggered(log: seq<Audit.Entry>) {
    exists k :: 0 <= k < |log| && IsTrigger(log[k])
  }

  predicate IsTrigger(e: Audit.Entry) {
    e.payload.FsmTransition? && e.payload.reason.TakeProfitStopLoss?
  }

  lemma {:induction false} TriggersAreCounted(log: seq<Audit.Entry>)
    ensures HasTriggered(log) <==> ReadAll(log).triggeredExits > 0
  {
    if |log| > 0 {
      hide LegalEdge;
      var init := log[..|log| - 1];
      TriggersAreCounted(init);
      assert HasTriggered(log) <==> HasTriggered(init) || IsTrigger(log[|log| - 1]) by {
        if HasTriggered(init) {
          var k :| 0 <= k < |init| && IsTrigger(init[k]);
          assert IsTrigger(log[k]);
        }
        if HasTriggered(log) && !IsTrigger(log[|log| - 1]) {
          var k :| 0 <= k < |log| && IsTrigger(log[k]);
          assert IsTrigger(init[k]);
        }
      }
    }
  }

  lemma TriggeredFlag(s: Strategy)
    requires Inv(s)
    ensures s.exitSubmitted <==> ReadAll(s.journal).triggeredExits > 0
  {
    hide ReadAll;
  }

  /**
   * Over any run: once a take-profit or stop-loss transition has been journalled, no tick takes a
   * later position out of the market, at any price, as long as no flatten signal is set.
   */
  lemma NoTriggerAfterTheFirst(cfg: Config, events: seq<Event>, ts: int, id: string, quote: Costs.Quote, i: Inputs)
    requires FreshRun(Initial(cfg), events)
    requires var s := Run(Initial(cfg), events);
             HasTriggered(s.journal) && s.state.InPosition? && !s.flattenSignal
    ensures var s := Run(Initial(cfg), events);
            Step(s, QuoteTick(ts, id, quote, i)) == s.(lastQuoteTs := Some(ts))
  {
    hide Run, Inv, ReadAll, HasTriggered;
    InitialInv(cfg);
    RunKeeps(Initial(cfg), events);
    TriggersAreCounted(Run(Initial(cfg), events).journal);
    TriggeredFlag(Run(Initial(cfg), events));
  }

  lemma TriggerLeaves(s: Strategy, bid: real, i: Inputs)
    requires s.state.InPosition? && s.activeIntentId.Some? && s.entryPrice.Some?
    ensures var pnl := ProfitPct(s.entryPrice.value, bid);
            !CheckExitTriggers(s, bid, i).state.InPosition? <==>
            !s.exitSubmitted && (pnl >= s.cfg.takeProfitPct || pnl <= -s.cfg.stopLossPct)
  {
    hide ReadAll, ProfitPct, Transition, JournalOrderError, Continues, SameIds, SameOutbox, SameVerdicts;
    var t := s.(exitSubmitted := true);
    TransitionOrders(t, Exiting, TakeProfitStopLoss);
    if s.activeIntent.Some? {
      ErrorOrders(Transition(t, Exiting, TakeProfitStopLoss), s.activeIntent.value);
    }
  }

  lemma ProfitScales(e: real, bid: real, x: real)
    requires e > 0.0
    ensures ProfitPct(e, bid) >= x <==> bid >= e * (1.0 + x)
    ensures ProfitPct(e, bid) <= x <==> bid <= e * (1.0 + x)
  {
    var pnl := (bid - e) / e;
    assert pnl * e == bid - e;
    Scaled(pnl, x, e);
  }

  lemma Scaled(a: real, b: real, e: real)
    requires e > 0.0
    ensures a >= b <==> a * e >= b * e
    ensures a <= b <==> a * e <= b * e
  {
    if a > b {
      assert (a - b) * e > 0.0;
    } else if a < b {
      assert (b - a) * e > 0.0;
    }
  }

  /** The net delta after the hedge order fills. */
  function HedgedDelta(delta: real, c: EngineCall): real
    requires c.MarketOrder?
  {
    if c.side.BUY? then delta + c.quantity else delta - c.quantity
  }

  /**
   * A hedge order moves the delta toward zero by the quantity it trades, never past it, and never
   * trades more than the configured quantity.
   */
  lemma HedgeShrinksDelta(s: Strategy, i: Inputs)
    requires |OnOptionGreeks(s, i).calls| > |s.calls| && s.cfg.orderQty >= 0.0
    ensures |OnOptionGreeks(s, i).calls| == |s.calls| + 1
    ensures var c := OnOptionGreeks(s, i).calls[|s.calls|];
            var delta := GreeksOrZero(i.current).delta;
            && c.MarketOrder? && c.purpose.Hedge? && 0.0 <= c.quantity <= s.cfg.orderQty
            && Abs(HedgedDelta(delta, c)) == Abs(delta) - c.quantity
            && Abs(delta) > s.cfg.hedgeDeltaBand && !s.cfg.dryRun
  {
    hide ReadAll, Continues, SameIds, SameOutbox, SameVerdicts;
  }
}
