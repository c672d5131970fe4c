/** One strategy as a value: its fields, and each of its callbacks as a function of them. */
module StrategyFsm {
  import opened Models
  import opened Messages
  import opened Gates
  import opened Audit
  import Costs
  import Structures

  datatype Config = Config(
    strategyId: string,
    underlying: string,
    dryRun: bool,
    selectorEnabled: bool,
    minEdge: real,
    minLiquidity: real,
    blockedRegimes: set<RegimeTag>,
    requireChainSnapshot: bool,
    maxQuoteAgeSecs: real,
    maxChainAgeSecs: real,
    chainIntervalMs: int,
    risk: RiskPolicy,
    plumbing: bool,
    structureSelector: Option<Structures.Selector>,
    strikeWidth: int,
    orderQty: real,
    takeProfitPct: real,
    stopLossPct: real,
    hedgePerp: Option<string>,
    hedgeDeltaBand: real)

  datatype Purpose = Entry | Exit | Hedge

  /** Calls that reach the execution engine. */
  datatype EngineCall =
    | BracketOrder(instrumentId: string, quantity: real, takeProfit: Option<real>, stopLoss: Option<real>)
    | MarketOrder(purpose: Purpose, instrumentId: string, side: Side, quantity: real)
    | CancelAllOrders

  /** What the trading engine answers during one callback. */
  datatype Inputs = Inputs(
    now: int,                             // clock, in nanoseconds
    freshId: IntentId,                    // uuid4()
    builds: bool,                         // build_intent returns an intent
    current: Option<Greeks>,              // portfolio greeks, unshocked
    shocked: Option<Greeks>,              // portfolio greeks under the policy's shocks
    instruments: set<string>,             // ids present in the instrument cache
    quotes: map<string, Costs.Quote>,     // last quotes in the cache
    cancelRaises: bool)                   // cancel_all_orders() raises before acting

  datatype Event =
    | ChainArrived(chain: Structures.Chain, inputs: Inputs)
    | QuoteTick(ts: int, instrumentId: string, quote: Costs.Quote, inputs: Inputs)
    | OptionGreeksArrived(inputs: Inputs)
    | SessionPhase(allowsEntry: bool, flattenSignal: bool, inputs: Inputs)
    | RegimeMessage(tag: string)
    | OrderFilledEvent(price: real, quantity: real)
    | OrderRejectedEvent
    | OrderDeniedEvent
    | IntentApproved(approved: ApprovedSnapshot, inputs: Inputs)
    | IntentRejected(rejected: RejectedSnapshot)
    | Started
    | Stopped

  datatype Strategy = Strategy(
    cfg: Config,
    state: StrategyState,
    sessionAllowsEntry: bool,
    sessionReceived: bool,
    flattenSignal: bool,
    regimeTag: RegimeTag,
    regimeReceived: bool,
    lastQuoteTs: Option<int>,
    lastChainTs: Option<int>,
    activeIntentId: Option<IntentId>,
    activeIntent: Option<TradeIntent>,
    pendingIntent: Option<TradeIntent>,
    entryPrice: Option<real>,
    exitSubmitted: bool,
    hedgeSubmitted: bool,
    positionInstrument: string,           // "" stands for None
    legIds: seq<string>,
    journal: seq<Audit.Entry>,            // its own journal's entries
    published: seq<TradeIntentSnapshot>,  // everything it put on the intent topic
    calls: seq<EngineCall>)               // everything it sent to the engine

  function Initial(cfg: Config): Strategy {
    Strategy(cfg, Flat, false, false, false, UNKNOWN, false, None, None, None, None, None, None,
             false, false, "", [], [], [], [])
  }

  /** The journal of r is that of s and after it records of the strategy's own. */
  predicate Extends(s: Strategy, r: Strategy) {
    && s.journal <= r.journal
    && forall k :: |s.journal| <= k < |r.journal| ==> OwnEntry(r.journal[k], s.cfg.strategyId)
  }

  /**
   * r goes on from s: the configuration and what the bus and the data feed last told the strategy are
   * unchanged, and the journal is only extended.
   */
  predicate Continues(s: Strategy, r: Strategy) {
    && Extends(s, r)
    && r.cfg == s.cfg
    && r.sessionAllowsEntry == s.sessionAllowsEntry && r.sessionReceived == s.sessionReceived
    && r.flattenSignal == s.flattenSignal
    && r.regimeTag == s.regimeTag && r.regimeReceived == s.regimeReceived
    && r.lastQuoteTs == s.lastQuoteTs && r.lastChainTs == s.lastChainTs
  }

  /** No id is decided or passed between s and r. */
  predicate SameIds(s: Strategy, r: Strategy) {
    && ReadAll(r.journal).passed == ReadAll(s.journal).passed
    && ReadAll(r.journal).passes == ReadAll(s.journal).passes
    && ReadAll(r.journal).decided == ReadAll(s.journal).decided
  }

  /** Nothing is parked, unparked or published between s and r. */
  predicate SameOutbox(s: Strategy, r: Strategy) {
    r.pendingIntent == s.pendingIntent && r.published == s.published
  }

  /** Nothing is submitted or declined between s and r. */
  predicate SameVerdicts(s: Strategy, r: Strategy) {
    && ReadAll(r.journal).submitCount == ReadAll(s.journal).submitCount
    && ReadAll(r.journal).declinedCount == ReadAll(s.journal).declinedCount
  }

  predicate Quiet(s: Strategy, r: Strategy) {
    Continues(s, r) && SameIds(s, r) && SameOutbox(s, r) && SameVerdicts(s, r)
  }

  /** The evaluation context built from a chain or a tick. */
  datatype Context = Context(
    instrumentId: string,
    underlyingMid: real,
    edge: real,
    liquidity: real,
    spreadInstrumentId: string,           // "" stands for None
    rationale: Rationale)

  /* ---- Journal and state ------------------------------------------------------------- */

  function Record(s: Strategy, stage: GateStage, refId: Option<IntentId>, payload: Payload): (r: Strategy)
    requires !Foreign(payload)
    ensures Continues(s, r) && SameOutbox(s, r)
    ensures ReadAll(r.journal) == Read(ReadAll(s.journal), Audit.Entry(stage, refId, s.cfg.strategyId, payload))
  {
    ReadOneMore(s.journal, Audit.Entry(stage, refId, s.cfg.strategyId, payload));
    s.(journal := s.journal + [Audit.Entry(stage, refId, s.cfg.strategyId, payload)])
  }

  function Transition(s: Strategy, to: StrategyState, reason: Reason): (r: Strategy)
    ensures Quiet(s, r)
  {
    Record(s.(state := to), LIFECYCLE, s.activeIntentId, FsmTransition(s.state, to, reason))
  }

  predicate ActorsReady(s: Strategy) {
    s.sessionReceived && s.regimeReceived
  }

  function GreeksOrZero(g: Option<Greeks>): Greeks {
    if g.Some? then g.value else Greeks(0.0, 0.0, 0.0, 0.0)
  }

  /* ---- Contexts ------------------------------------------------------------------------ */

  const PLUMBING: string := "backtest_plumbing"

  function ContextFromChain(s: Strategy, chain: Structures.Chain): Option<Context> {
    if !ActorsReady(s) then None
    else if s.cfg.plumbing then Some(PlumbingChainContext(s, chain))
    else if s.cfg.structureSelector.None? then None
    else
      match Structures.SelectFromChain(s.cfg.structureSelector.value, chain, s.cfg.strikeWidth, s.cfg.minEdge,
                                       s.cfg.minLiquidity)
      case None => None
      case Some(spread) => Some(ContextFromSpread(spread, chain, s.cfg.structureSelector.value))
  }

  function PlumbingChainContext(s: Strategy, chain: Structures.Chain): Context {
    var callQuote := if |chain.strikes| > 0 then Structures.CallQuote(chain, chain.atm) else None;
    var quote := if callQuote.Some? then callQuote.value else Costs.Quote(0.0, 0.0);
    var metrics := Costs.QuoteSpreadLiquidity(quote, chain.atm, 0.0, 1.0);
    Context(chain.seriesId, metrics.mid, Max(s.cfg.minEdge, 10.0), metrics.liquidity, "",
            Rationale("option_chain_slice", None, None, None, []))
  }

  function ContextFromSpread(spread: Structures.Spread, chain: Structures.Chain, sel: Structures.Selector): Context {
    Context(spread.instrumentId, Structures.UnderlyingPrice(chain, spread.low), spread.edge, spread.liquidity,
            spread.instrumentId,
            Rationale(if sel.venue.Ib? then "ib_option_chain" else "deribit_option_chain",
                      Some(spread.debit), None, None, spread.legIds))
  }

  /** Only the plumbing mode evaluates on a quote tick. */
  function ContextFromTick(s: Strategy, instrumentId: string, quote: Costs.Quote): Option<Context> {
    if !s.cfg.plumbing || !ActorsReady(s) then None
    else
      var metrics := Costs.LegMetrics(quote);
      Some(Context(instrumentId, metrics.mid, Max(s.cfg.minEdge, 10.0), Max(s.cfg.minLiquidity, metrics.liquidity),
                   instrumentId, Rationale(PLUMBING, None, None, None, [])))
  }

  function BuildIntent(s: Strategy, c: Context, id: IntentId): TradeIntent {
    TradeIntent(id, s.cfg.strategyId, if c.spreadInstrumentId != "" then c.spreadInstrumentId else c.instrumentId,
                c.edge, c.liquidity, s.regimeTag, map[], c.rationale.(underlyingMid := Some(c.underlyingMid)))
  }

  /* ---- Evaluation ---------------------------------------------------------------------- */

  /** Seconds between two clock readings. */
  function AgeSecs(now: int, ts: int): real {
    (now - ts) as real / 1000000000.0
  }

  predicate QuoteFresh(s: Strategy, now: int) {
    s.lastQuoteTs.Some? && AgeSecs(now, s.lastQuoteTs.value) <= s.cfg.maxQuoteAgeSecs
  }

  predicate ChainFresh(s: Strategy, c: Context, now: int) {
    if !s.cfg.requireChainSnapshot || c.rationale.source == PLUMBING then true
    else
      && s.lastChainTs.Some?
      && AgeSecs(now, s.lastChainTs.value) <= s.cfg.maxChainAgeSecs + s.cfg.chainIntervalMs as real / 1000.0
  }

  function GateContextOf(s: Strategy, c: Context, now: int): GateContext {
    GateContext(s.regimeTag, s.sessionAllowsEntry, s.flattenSignal, s.cfg.minEdge, s.cfg.minLiquidity,
                s.cfg.blockedRegimes, true, QuoteFresh(s, now), ChainFresh(s, c, now), false, true,
                s.cfg.requireChainSnapshot)
  }

  function BeginEvaluation(s: Strategy, c: Context, i: Inputs): (r: Strategy)
    ensures Continues(s, r)
    ensures s.cfg.selectorEnabled ==> SameVerdicts(s, r)
  {
    if !ActorsReady(s) then s
    else
      var e := Transition(s, Evaluating, Signal);
      if !i.builds then Transition(e, Flat, NoIntent) else RunGatePipeline(e, BuildIntent(e, c, i.freshId), c, i)
  }

  function RunGatePipeline(s: Strategy, intent: TradeIntent, c: Context, i: Inputs): (r: Strategy)
    ensures Continues(s, r)
    ensures s.cfg.selectorEnabled ==> SameVerdicts(s, r)
  {
    hide PreGreek, RiskBreaches, GateContextOf, ReadAll, Record, AfterGates, RefuseIntent;
    var pre := PreGreek(intent, GateContextOf(s, c, i.now));
    var breaches := RiskBreaches(s.cfg.risk, GreeksOrZero(i.shocked));
    if pre.Failed? then RefuseIntent(s, pre.stage, intent, pre.rules, GateRejected)
    else if |breaches| > 0 then RefuseIntent(s, GREEK, intent, breaches, GreekRejected)
    else
      AfterGates(Record(s, GREEK, Some(intent.intentId), GreekPassed(intent.intentId)), intent, i)
  }

  /** Journal the refusal and return to Flat. */
  function RefuseIntent(s: Strategy, stage: GateStage, intent: TradeIntent, rules: seq<Rule>,
                        why: Reason): (r: Strategy)
    ensures Continues(s, r) && SameOutbox(s, r) && SameVerdicts(s, r)
    ensures ReadAll(r.journal).passed == ReadAll(s.journal).passed
    ensures ReadAll(r.journal).passes == ReadAll(s.journal).passes
    ensures ReadAll(r.journal).decided == ReadAll(s.journal).decided + {intent.intentId}
  {
    Transition(Record(s, stage, Some(intent.intentId), GateReject(rules, intent.intentId)), Flat, why)
  }

  /** A gated intent is journalled (dry run), queued for the selector, or submitted. */
  function AfterGates(s: Strategy, intent: TradeIntent, i: Inputs): (r: Strategy)
    ensures Continues(s, r) && SameIds(s, r)
    ensures s.cfg.selectorEnabled ==> SameVerdicts(s, r)
  {
    if s.cfg.dryRun then
      Transition(Record(s, LIFECYCLE, Some(intent.intentId),
                        DryRunIntent(intent.intentId, intent.instrumentId, intent.edge)), Flat, DryRun)
    else if s.cfg.selectorEnabled then QueueForSelector(s, intent)
    else SubmitApprovedIntent(s, intent, i)
  }

  function QueueForSelector(s: Strategy, intent: TradeIntent): (r: Strategy)
    ensures Continues(s, r) && SameIds(s, r) && SameVerdicts(s, r)
  {
    var q := Transition(s.(pendingIntent := Some(intent)), PendingApproval, SelectorQueue);
    q.(published := q.published + [ToSnapshot(intent)])
  }

  /** The intent becomes the active one and its entry pending. */
  function Engage(s: Strategy, intent: TradeIntent): (r: Strategy)
    ensures Quiet(s, r)
  {
    Transition(s.(activeIntentId := Some(intent.intentId), activeIntent := Some(intent)), PendingEntry, Submit)
  }

  function SubmitApprovedIntent(s: Strategy, intent: TradeIntent, i: Inputs): (r: Strategy)
    ensures Continues(s, r) && SameIds(s, r) && SameOutbox(s, r)
  {
    hide ReadAll, Record, Engage, SubmitEntry;
    var p := Engage(s, intent);
    SubmitEntry(Record(p, LIFECYCLE, Some(intent.intentId), OrderSubmit(intent.intentId, intent.instrumentId)),
                intent, i)
  }

  /* ---- Orders -------------------------------------------------------------------------- */

  function SubmitEntry(s: Strategy, intent: TradeIntent, i: Inputs): (r: Strategy)
    ensures Quiet(s, r)
  {
    if s.cfg.plumbing then SubmitUnderlyingMarket(s, intent, Purpose.Entry, BUY, i)
    else if intent.instrumentId !in i.instruments then JournalOrderError(s, intent)
    else
      var price := EntryPriceEstimate(intent.instrumentId, i);
      s.(calls := s.calls + [BracketFor(s.cfg, intent.instrumentId, price)],
         positionInstrument := intent.instrumentId,
         legIds := intent.rationale.legIds)
  }

  /** The entry order; its two exit prices are left out when there is no price to start from. */
  function BracketFor(cfg: Config, instrumentId: string, price: real): EngineCall {
    BracketOrder(instrumentId, cfg.orderQty,
                 if price != 0.0 then Some(price * (1.0 + cfg.takeProfitPct)) else None,
                 if price != 0.0 then Some(price * (1.0 - cfg.stopLossPct)) else None)
  }

  /** Mid of the cached quote; 0.0 when there is none, which counts as no estimate. */
  function EntryPriceEstimate(instrumentId: string, i: Inputs): real {
    if instrumentId in i.quotes then (i.quotes[instrumentId].bid + i.quotes[instrumentId].ask) / 2.0 else 0.0
  }

  function SubmitUnderlyingMarket(s: Strategy, intent: TradeIntent, purpose: Purpose, side: Side,
                                  i: Inputs): (r: Strategy)
    ensures Quiet(s, r)
  {
    if s.cfg.underlying !in i.instruments then JournalOrderError(s, intent)
    else s.(calls := s.calls + [MarketOrder(purpose, s.cfg.underlying, side, s.cfg.orderQty)])
  }

  function JournalOrderError(s: Strategy, intent: TradeIntent): (r: Strategy)
    ensures Quiet(s, r)
  {
    Transition(Record(s, LIFECYCLE, Some(intent.intentId), OrderError(InstrumentNotFound)), Flat, InstrumentNotFound)
  }

  function SubmitExit(s: Strategy, i: Inputs): (r: Strategy)
    ensures Quiet(s, r)
  {
    if s.cfg.plumbing then
      if s.activeIntent.Some? then SubmitUnderlyingMarket(s, s.activeIntent.value, Exit, SELL, i) else s
    else
      var id := if s.positionInstrument != "" then s.positionInstrument else s.cfg.underlying;
      if id !in i.instruments then s
      else s.(calls := s.calls + [MarketOrder(Exit, id, SELL, s.cfg.orderQty)])
  }

  function BeginExit(s: Strategy, reason: Reason, i: Inputs): (r: Strategy)
    ensures Quiet(s, r)
  {
    SubmitExit(Transition(s, Exiting, reason), i)
  }

  function FlattenPositions(s: Strategy, reason: Reason, i: Inputs): (r: Strategy)
    ensures Quiet(s, r)
  {
    hide ReadAll, Record, BeginExit;
    if !s.state.InPosition? && !s.state.PendingEntry? then
      Record(s, LIFECYCLE, None, FlattenSkipped(s.state, reason))
    else if i.cancelRaises then s
    else
      var c := s.(calls := s.calls + [CancelAllOrders]);
      if c.state.InPosition? && c.activeIntentId.Some? then BeginExit(c, reason, i) else c
  }

  /** Profit relative to the entry price; 0.0 unless that price is positive. */
  function ProfitPct(entry: real, bid: real): real {
    if entry > 0.0 then (bid - entry) / entry else 0.0
  }

  function CheckExitTriggers(s: Strategy, bid: real, i: Inputs): (r: Strategy)
    ensures Quiet(s, r)
  {
    hide ReadAll, BeginExit, ProfitPct;
    if s.exitSubmitted || s.entryPrice.None? || s.activeIntentId.None? then s
    else
      var pnl := ProfitPct(s.entryPrice.value, bid);
      if pnl >= s.cfg.takeProfitPct || pnl <= -s.cfg.stopLossPct then
        BeginExit(s.(exitSubmitted := true), TakeProfitStopLoss, i)
      else s
  }

  /* ---- Callbacks ----------------------------------------------------------------------- */

  function OnOptionChain(s: Strategy, chain: Structures.Chain, i: Inputs): (r: Strategy)
    ensures Continues(s.(lastChainTs := Some(chain.ts)), r)
    ensures s.cfg.selectorEnabled ==> SameVerdicts(s, r)
  {
    var t := s.(lastChainTs := Some(chain.ts));
    if !t.state.Flat? then t
    else
      match ContextFromChain(t, chain)
      case None => t
      case Some(c) => BeginEvaluation(t, c, i)
  }

  function OnQuoteTick(s: Strategy, ts: int, instrumentId: string, quote: Costs.Quote, i: Inputs): (r: Strategy)
    ensures Continues(s.(lastQuoteTs := Some(ts)), r)
    ensures s.cfg.selectorEnabled ==> SameVerdicts(s, r)
  {
    var t := s.(lastQuoteTs := Some(ts));
    if t.state.InPosition? then
      if t.flattenSignal then FlattenPositions(t, SessionClosed, i) else CheckExitTriggers(t, quote.bid, i)
    else if !t.state.Flat? then t
    else
      match ContextFromTick(t, instrumentId, quote)
      case None => t
      case Some(c) => BeginEvaluation(t, c, i)
  }

  /** One hedge at most: the flag is set before the instrument is looked up and never cleared. */
  function OnOptionGreeks(s: Strategy, i: Inputs): (r: Strategy)
    ensures Quiet(s, r)
  {
    var delta := GreeksOrZero(i.current).delta;
    if !s.state.InPosition? || s.cfg.plumbing || s.cfg.hedgePerp.None? then s
    else if Abs(delta) <= s.cfg.hedgeDeltaBand || s.hedgeSubmitted then s
    else SubmitDeltaHedge(s.(hedgeSubmitted := true), s.cfg.hedgePerp.value, delta, i)
  }

  function SubmitDeltaHedge(s: Strategy, perp: string, delta: real, i: Inputs): (r: Strategy)
    ensures Quiet(s, r)
  {
    if perp !in i.instruments then s
    else
      var r := Record(s, LIFECYCLE, s.activeIntentId, DeltaHedge(delta));
      if r.cfg.dryRun then r
      else r.(calls := r.calls + [MarketOrder(Hedge, perp, if delta > 0.0 then SELL else BUY,
                                              Min(Abs(delta), s.cfg.orderQty))])
  }

  function OnSessionPhase(s: Strategy, allowsEntry: bool, flattenSignal: bool, i: Inputs): (r: Strategy)
    ensures Quiet(s.(sessionAllowsEntry := allowsEntry, sessionReceived := true, flattenSignal := flattenSignal), r)
  {
    var t := s.(sessionAllowsEntry := allowsEntry, sessionReceived := true, flattenSignal := flattenSignal);
    if flattenSignal && (t.state.InPosition? || t.state.PendingEntry?) then FlattenPositions(t, SessionClosed, i) else t
  }

  /** An unknown tag raises before anything changes. */
  function OnRegimeTag(s: Strategy, tag: string): (r: Strategy)
    ensures match ParseTag(tag)
            case None => r == s
            case Some(t) => r == s.(regimeTag := t, regimeReceived := true)
  {
    match ParseTag(tag)
    case None => s
    case Some(t) => s.(regimeTag := t, regimeReceived := true)
  }

  /** The learning module attributes a fill to the active intent, if there is one. */
  function JournalLearning(s: Strategy): (r: Strategy)
    ensures Quiet(s, r)
  {
    if s.activeIntentId.Some? then
      Record(s, LEARNING, s.activeIntentId, LearningRecord(s.activeIntentId.value))
    else if s.activeIntent.Some? then
      Record(s, LEARNING, Some(s.activeIntent.value.intentId), LearningRecord(s.activeIntent.value.intentId))
    else s
  }

  function JournalFill(s: Strategy, price: real, quantity: real): (r: Strategy)
    ensures Quiet(s, r)
  {
    hide ReadAll, Record, JournalLearning;
    var l := JournalLearning(Record(s, FILL, s.activeIntentId, Fill(price, quantity)));
    Record(l, PNL, l.activeIntentId, Pnl)
  }

  function OpenPosition(s: Strategy, price: real): (r: Strategy)
    ensures Quiet(s, r)
  {
    Transition(s.(entryPrice := Some(price)), InPosition, EntryFill)
  }

  function ClosePosition(s: Strategy): (r: Strategy)
    ensures Quiet(s, r)
  {
    Transition(s.(activeIntentId := None, activeIntent := None, entryPrice := None), Flat, ExitFill)
  }

  function OnOrderFilled(s: Strategy, price: real, quantity: real): (r: Strategy)
    ensures Quiet(s, r)
  {
    var j := JournalFill(s, price, quantity);
    if j.state.PendingEntry? then OpenPosition(j, price)
    else if j.state.Exiting? then ClosePosition(j)
    else j
  }

  /** The entry order came to nothing. */
  function GiveUpEntry(s: Strategy, why: Reason): (r: Strategy)
    ensures Quiet(s, r)
  {
    Transition(s.(activeIntentId := None, activeIntent := None), Flat, why)
  }

  function OnOrderRejected(s: Strategy): (r: Strategy)
    ensures Quiet(s, r)
  {
    hide ReadAll, Record, Transition;
    if !s.state.PendingEntry? then s
    else
      GiveUpEntry(Record(s, LIFECYCLE, s.activeIntentId, OrderRejected), OrderRejectedByVenue)
  }

  function OnOrderDenied(s: Strategy): (r: Strategy)
    ensures Quiet(s, r)
  {
    hide ReadAll, Record, Transition;
    if !s.state.PendingEntry? then s
    else
      GiveUpEntry(Record(s, RISK_ENGINE, s.activeIntentId, OrderDenied), OrderDeniedByEngine)
  }

  /** The message concerns the intent this strategy has parked. */
  predicate Concerns(s: Strategy, strategyId: string, intentId: IntentId) {
    && strategyId == s.cfg.strategyId
    && s.state.PendingApproval? && s.pendingIntent.Some?
    && s.pendingIntent.value.intentId == intentId
  }

  /** A regime text the conversion does not know raises before anything changes. */
  function OnIntentApproved(s: Strategy, m: ApprovedSnapshot, i: Inputs): (r: Strategy)
    ensures Continues(s, r) && SameIds(s, r)
  {
    if !Concerns(s, m.snapshot.strategyId, m.snapshot.intentId) then s
    else
      match FromSnapshot(m.snapshot)
      case None => s
      case Some(intent) => SubmitApprovedIntent(s.(pendingIntent := None), intent, i)
  }

  function OnIntentRejected(s: Strategy, m: RejectedSnapshot): (r: Strategy)
    ensures Continues(s, r) && SameIds(s, r)
  {
    if !Concerns(s, m.strategyId, m.intentId) then s
    else
      var j := Record(s, LIFECYCLE, Some(m.intentId), SelectorRejected(m.intentId));
      Transition(j.(pendingIntent := None), Flat, SelectorReject)
  }

  function OnStart(s: Strategy): (r: Strategy)
    ensures Quiet(s, r)
  {
    Record(s, LIFECYCLE, None, StrategyStart)
  }

  function OnStop(s: Strategy): (r: Strategy)
    ensures Quiet(s, r)
  {
    Record(s, LIFECYCLE, None, StrategyStop(s.state))
  }

  /** One callback. The verdict topics are subscribed only when the selector is enabled. */
  function Step(s: Strategy, e: Event): (r: Strategy)
    ensures r.cfg == s.cfg
  {
    match e
    case ChainArrived(chain, i) => OnOptionChain(s, chain, i)
    case QuoteTick(ts, instrumentId, quote, i) => OnQuoteTick(s, ts, instrumentId, quote, i)
    case OptionGreeksArrived(i) => OnOptionGreeks(s, i)
    case SessionPhase(allows, flatten, i) => OnSessionPhase(s, allows, flatten, i)
    case RegimeMessage(tag) => OnRegimeTag(s, tag)
    case OrderFilledEvent(price, quantity) => OnOrderFilled(s, price, quantity)
    case OrderRejectedEvent => OnOrderRejected(s)
    case OrderDeniedEvent => OnOrderDenied(s)
    case IntentApproved(m, i) => if s.cfg.selectorEnabled then OnIntentApproved(s, m, i) else s
    case IntentRejected(m) => if s.cfg.selectorEnabled then OnIntentRejected(s, m) else s
    case Started => OnStart(s)
    case Stopped => OnStop(s)
  }

  /** The records t has journalled since s. */
  function NewRecords(s: Strategy, t: Strategy): seq<Audit.Entry> {
    if |s.journal| <= |t.journal| then t.journal[|s.journal|..] else []
  }

  /** The strategy after a run of callbacks, in order. */
  function Run(s: Strategy, events: seq<Event>): Strategy {
    if |events| == 0 then s else Step(Run(s, events[..|events| - 1]), events[|events| - 1])
  }
}
