/**
 * What the records of a strategy say, over any run: at which price a position was opened, and for which
 * stage, intent and rules each record was written.
 */
module RunRecords {
  import opened Models
  import opened Messages
  import opened Gates
  import opened Audit
  import opened StrategyFsm

  /* ---- The entry price ------------------------------------------------------------------------ */

  predicate Invested(state: StrategyState) {
    state.InPosition? || state.Exiting?
  }

  /** The price of the last FILL record. */
  function LastFill(log: seq<Audit.Entry>): Option<real> {
    if |log| == 0 then None
    else
      match log[|log| - 1].payload
      case Fill(price, _) => Some(price)
      case _ => LastFill(log[..|log| - 1])
  }

  predicate Enters(p: Payload) {
    p.FsmTransition? && p.to.InPosition?
  }

  /** The price of the last FILL record before the last transition to InPosition. */
  function EntryPriceIn(log: seq<Audit.Entry>): Option<real> {
    if |log| == 0 then None
    else if Enters(log[|log| - 1].payload) then LastFill(log[..|log| - 1])
    else EntryPriceIn(log[..|log| - 1])
  }

  /* ---- Stages, ids and rules -------------------------------------------------------------------- */

  /** The rules that can be broken at a stage. */
  predicate RulesOfStage(stage: GateStage, rules: seq<Rule>) {
    match stage
    case EDGE => rules == [MinEdge]
    case LIQUIDITY => rules == [MinLiquidity]
    case REGIME => |rules| == 1 && (rules[0].BlockedRegime? || rules[0].IntentRegime?)
    case SESSION => rules == [SessionBlackout]
    case OPERATIONAL =>
      |rules| > 0 &&
      forall rule :: rule in rules ==> rule in {TradingStateInactive, UnderlyingQuoteStale, ChainSnapshotStale,
                                                DailyLossBudget, FeedUnhealthy}
    case GREEK => |rules| > 0 && forall rule :: rule in rules ==> rule in {MaxNetDelta, MaxNetGamma, MaxNetVega}
    case _ => false
  }

  /** The record stands at its stage and names the intent it is about. */
  predicate InPlace(e: Audit.Entry) {
    match e.payload
    case GateReject(rules, id) => e.refId == Some(id) && RulesOfStage(e.stage, rules)
    case GreekPassed(id) => e.stage.GREEK? && e.refId == Some(id)
    case OrderSubmit(id, _) => e.stage.LIFECYCLE? && e.refId == Some(id)
    case DryRunIntent(id, _, _) => e.stage.LIFECYCLE? && e.refId == Some(id)
    case SelectorRejected(id) => e.stage.LIFECYCLE? && e.refId == Some(id)
    case LearningRecord(id) => e.stage.LEARNING? && e.refId == Some(id)
    case OrderDenied => e.stage.RISK_ENGINE?
    case Fill(_, _) => e.stage.FILL?
    case Pnl => e.stage.PNL?
    case _ => e.stage.LIFECYCLE?
  }

  ghost predicate AllInPlace(log: seq<Audit.Entry>) {
    forall k :: 0 <= k < |log| ==> InPlace(log[k])
  }

  lemma OneMoreInPlace(log: seq<Audit.Entry>, e: Audit.Entry)
    requires AllInPlace(log) && InPlace(e)
    ensures AllInPlace(log + [e])
  {
    hide InPlace;
  }

  /* ---- What each callback adds --------------------------------------------------------------------- */

  /** Records in place are added, and no position is opened, between s and t. */
  ghost predicate OpensNothing(s: Strategy, t: Strategy) {
    && t.entryPrice == s.entryPrice && EntryPriceIn(t.journal) == EntryPriceIn(s.journal)
    && (Invested(t.state) ==> Invested(s.state))
    && (AllInPlace(s.journal) ==> AllInPlace(t.journal))
  }

  lemma RecordOpensNothing(s: Strategy, stage: GateStage, refId: Option<IntentId>, p: Payload)
    requires !Foreign(p)
    ensures var t := Record(s, stage, refId, p);
            && t.state == s.state && t.entryPrice == s.entryPrice && t.cfg == s.cfg
            && t.activeIntentId == s.activeIntentId && t.activeIntent == s.activeIntent
            && (!Enters(p) ==> EntryPriceIn(t.journal) == EntryPriceIn(s.journal))
            && (Enters(p) ==> EntryPriceIn(t.journal) == LastFill(s.journal))
            && LastFill(t.journal) == (if p.Fill? then Some(p.price) else LastFill(s.journal))
            && (AllInPlace(s.journal) && InPlace(Audit.Entry(stage, refId, s.cfg.strategyId, p)) ==>
                  AllInPlace(t.journal))
  {
    hide ReadAll, Continues, SameOutbox, InPlace, AllInPlace;
    var e := Audit.Entry(stage, refId, s.cfg.strategyId, p);
    if AllInPlace(s.journal) && InPlace(e) {
      OneMoreInPlace(s.journal, e);
    }
    assert (s.journal + [e])[..|s.journal|] == s.journal;
  }

  lemma TransitionOpens(s: Strategy, to: StrategyState, reason: Reason)
    ensures var t := Transition(s, to, reason);
            && t.state == to && t.entryPrice == s.entryPrice && t.cfg == s.cfg
            && t.activeIntentId == s.activeIntentId && t.activeIntent == s.activeIntent
            && EntryPriceIn(t.journal) == (if to.InPosition? then LastFill(s.journal) else EntryPriceIn(s.journal))
            && (AllInPlace(s.journal) ==> AllInPlace(t.journal))
  {
    hide ReadAll, Continues, SameOutbox, Record, EntryPriceIn, LastFill, AllInPlace;
    RecordOpensNothing(s.(state := to), LIFECYCLE, s.activeIntentId, FsmTransition(s.state, to, reason));
  }

  lemma ErrorOpensNothing(s: Strategy, intent: TradeIntent)
    ensures OpensNothing(s, JournalOrderError(s, intent)) && !Invested(JournalOrderError(s, intent).state)
  {
    hide ReadAll, Record, Transition, EntryPriceIn, LastFill, AllInPlace;
    var p := OrderError(InstrumentNotFound);
    RecordOpensNothing(s, LIFECYCLE, Some(intent.intentId), p);
    TransitionOpens(Record(s, LIFECYCLE, Some(intent.intentId), p), Flat, InstrumentNotFound);
  }

  lemma EntryOpensNothing(s: Strategy, intent: TradeIntent, i: Inputs)
    requires !Invested(s.state)
    ensures OpensNothing(s, SubmitEntry(s, intent, i)) && !Invested(SubmitEntry(s, intent, i).state)
  {
    hide ReadAll, JournalOrderError, EntryPriceEstimate, Continues, SameIds, SameOutbox, SameVerdicts, EntryPriceIn,
      AllInPlace;
    ErrorOpensNothing(s, intent);
  }

  lemma SubmitOpensNothing(s: Strategy, intent: TradeIntent, i: Inputs)
    ensures var t := SubmitApprovedIntent(s, intent, i);
            && t.entryPrice == s.entryPrice && EntryPriceIn(t.journal) == EntryPriceIn(s.journal)
            && !Invested(t.state) && (AllInPlace(s.journal) ==> AllInPlace(t.journal))
  {
    hide ReadAll, SubmitEntry, Record, Transition, Continues, SameIds, SameOutbox, SameVerdicts, EntryPriceIn,
      LastFill, AllInPlace;
    var a := s.(activeIntentId := Some(intent.intentId), activeIntent := Some(intent));
    TransitionOpens(a, PendingEntry, Submit);
    var p := Transition(a, PendingEntry, Submit);
    var submit := OrderSubmit(intent.intentId, intent.instrumentId);
    RecordOpensNothing(p, LIFECYCLE, Some(intent.intentId), submit);
    EntryOpensNothing(Record(p, LIFECYCLE, Some(intent.intentId), submit), intent, i);
  }

  lemma AfterGatesOpensNothing(s: Strategy, intent: TradeIntent, i: Inputs)
    ensures var t := AfterGates(s, intent, i);
            && t.entryPrice == s.entryPrice && EntryPriceIn(t.journal) == EntryPriceIn(s.journal)
            && !Invested(t.state) && (AllInPlace(s.journal) ==> AllInPlace(t.journal))
  {
    hide ReadAll, SubmitApprovedIntent, Record, Transition, Continues, SameIds, SameOutbox, SameVerdicts, EntryPriceIn,
      LastFill, AllInPlace;
    var dry := DryRunIntent(intent.intentId, intent.instrumentId, intent.edge);
    RecordOpensNothing(s, LIFECYCLE, Some(intent.intentId), dry);
    TransitionOpens(Record(s, LIFECYCLE, Some(intent.intentId), dry), Flat, DryRun);
    TransitionOpens(s.(pendingIntent := Some(intent)), PendingApproval, SelectorQueue);
    SubmitOpensNothing(s, intent, i);
  }

  lemma RefusalOpensNothing(s: Strategy, stage: GateStage, intent: TradeIntent, rules: seq<Rule>, why: Reason)
    ensures var t := RefuseIntent(s, stage, intent, rules, why);
            && t.state.Flat? && t.entryPrice == s.entryPrice
            && EntryPriceIn(t.journal) == EntryPriceIn(s.journal)
            && (AllInPlace(s.journal) && RulesOfStage(stage, rules) ==> AllInPlace(t.journal))
  {
    hide ReadAll, Record, Transition, Continues, SameIds, SameOutbox, SameVerdicts, EntryPriceIn, LastFill,
      AllInPlace, RulesOfStage;
    var p := GateReject(rules, intent.intentId);
    RecordOpensNothing(s, stage, Some(intent.intentId), p);
    TransitionOpens(Record(s, stage, Some(intent.intentId), p), Flat, why);
  }

  lemma RulesArePlaced(intent: TradeIntent, c: GateContext, p: RiskPolicy, g: Greeks)
    ensures PreGreek(intent, c).Failed? ==> RulesOfStage(PreGreek(intent, c).stage, PreGreek(intent, c).rules)
    ensures |RiskBreaches(p, g)| > 0 ==> RulesOfStage(GREEK, RiskBreaches(p, g))
  {
    BreachesAreReported(c);
    RejectionIsFirstFailure(0, intent, c);
    hide OperationalBreaches;
  }

  lemma PipelineOpensNothing(s: Strategy, intent: TradeIntent, c: Context, i: Inputs)
    ensures var t := RunGatePipeline(s, intent, c, i);
            && t.entryPrice == s.entryPrice && EntryPriceIn(t.journal) == EntryPriceIn(s.journal)
            && !Invested(t.state) && (AllInPlace(s.journal) ==> AllInPlace(t.journal))
  {
    hide ReadAll, PreGreek, RiskBreaches, GateContextOf, RefuseIntent, AfterGates, Record, Continues, SameIds,
      SameOutbox, SameVerdicts, EntryPriceIn, LastFill, AllInPlace;
    var pre := PreGreek(intent, GateContextOf(s, c, i.now));
    var breaches := RiskBreaches(s.cfg.risk, GreeksOrZero(i.shocked));
    RulesArePlaced(intent, GateContextOf(s, c, i.now), s.cfg.risk, GreeksOrZero(i.shocked));
    if pre.Failed? {
      RefusalOpensNothing(s, pre.stage, intent, pre.rules, GateRejected);
    } else if |breaches| > 0 {
      RefusalOpensNothing(s, GREEK, intent, breaches, GreekRejected);
    } else {
      RecordOpensNothing(s, GREEK, Some(intent.intentId), GreekPassed(intent.intentId));
      AfterGatesOpensNothing(Record(s, GREEK, Some(intent.intentId), GreekPassed(intent.intentId)), intent, i);
    }
  }

  lemma EvaluationOpensNothing(s: Strategy, c: Context, i: Inputs)
    requires s.state.Flat?
    ensures OpensNothing(s, BeginEvaluation(s, c, i))
  {
    hide ReadAll, RunGatePipeline, BuildIntent, Transition, Continues, SameIds, SameOutbox, SameVerdicts, EntryPriceIn,
      LastFill, AllInPlace;
    var e := Transition(s, Evaluating, Signal);
    TransitionOpens(s, Evaluating, Signal);
    TransitionOpens(e, Flat, NoIntent);
    PipelineOpensNothing(e, BuildIntent(e, c, i.freshId), c, i);
  }

  lemma SubmitExitOpensNothing(s: Strategy, i: Inputs)
    requires Invested(s.state)
    ensures OpensNothing(s, SubmitExit(s, i))
  {
    hide ReadAll, JournalOrderError, Continues, SameIds, SameOutbox, SameVerdicts, EntryPriceIn, LastFill, AllInPlace;
    if s.activeIntent.Some? {
      ErrorOpensNothing(s, s.activeIntent.value);
    }
  }

  lemma ExitOpensNothing(s: Strategy, reason: Reason, i: Inputs)
    requires Invested(s.state)
    ensures OpensNothing(s, BeginExit(s, reason, i))
  {
    hide ReadAll, Transition, SubmitExit, Continues, SameIds, SameOutbox, SameVerdicts, EntryPriceIn, LastFill,
      AllInPlace;
    TransitionOpens(s, Exiting, reason);
    SubmitExitOpensNothing(Transition(s, Exiting, reason), i);
  }

  lemma FlattenOpensNothing(s: Strategy, reason: Reason, i: Inputs)
    ensures OpensNothing(s, FlattenPositions(s, reason, i))
  {
    hide ReadAll, Record, BeginExit, Continues, SameIds, SameOutbox, SameVerdicts, EntryPriceIn, LastFill, AllInPlace;
    if s.state.InPosition? {
      ExitOpensNothing(s.(calls := s.calls + [CancelAllOrders]), reason, i);
    } else if !s.state.PendingEntry? {
      RecordOpensNothing(s, LIFECYCLE, None, FlattenSkipped(s.state, reason));
    }
  }

  lemma TickOpensNothing(s: Strategy, ts: int, id: string, quote: Costs.Quote, i: Inputs)
    ensures OpensNothing(s, OnQuoteTick(s, ts, id, quote, i))
  {
    hide ReadAll, BeginEvaluation, BeginExit, FlattenPositions, ContextFromTick, ProfitPct, Continues, SameIds,
      SameOutbox, SameVerdicts, EntryPriceIn, AllInPlace;
    var t := s.(lastQuoteTs := Some(ts));
    if t.state.InPosition? {
      FlattenOpensNothing(t, SessionClosed, i);
      ExitOpensNothing(t.(exitSubmitted := true), TakeProfitStopLoss, i);
    } else if t.state.Flat? && ContextFromTick(t, id, quote).Some? {
      EvaluationOpensNothing(t, ContextFromTick(t, id, quote).value, i);
    }
  }

  lemma ChainOpensNothing(s: Strategy, chain: Structures.Chain, i: Inputs)
    ensures OpensNothing(s, OnOptionChain(s, chain, i))
  {
    hide ReadAll, BeginEvaluation, ContextFromChain, Continues, SameIds, SameOutbox, SameVerdicts, EntryPriceIn,
      AllInPlace;
    var t := s.(lastChainTs := Some(chain.ts));
    if t.state.Flat? && ContextFromChain(t, chain).Some? {
      EvaluationOpensNothing(t, ContextFromChain(t, chain).value, i);
    }
  }

  lemma GreeksOpenNothing(s: Strategy, i: Inputs)
    ensures OpensNothing(s, OnOptionGreeks(s, i))
  {
    hide ReadAll, Record, Continues, SameIds, SameOutbox, SameVerdicts, EntryPriceIn, LastFill, AllInPlace;
    RecordOpensNothing(s.(hedgeSubmitted := true), LIFECYCLE, s.activeIntentId,
                       DeltaHedge(GreeksOrZero(i.current).delta));
  }

  lemma RejectedOpensNothing(s: Strategy)
    ensures OpensNothing(s, OnOrderRejected(s))
  {
    hide ReadAll, Record, Transition, Continues, SameIds, SameOutbox, SameVerdicts, EntryPriceIn, LastFill, AllInPlace;
    RecordOpensNothing(s, LIFECYCLE, s.activeIntentId, OrderRejected);
    var j := Record(s, LIFECYCLE, s.activeIntentId, OrderRejected);
    TransitionOpens(j.(activeIntentId := None, activeIntent := None), Flat, OrderRejectedByVenue);
  }

  lemma DeniedOpensNothing(s: Strategy)
    ensures OpensNothing(s, OnOrderDenied(s))
  {
    hide ReadAll, Record, Transition, Continues, SameIds, SameOutbox, SameVerdicts, EntryPriceIn, LastFill, AllInPlace;
    RecordOpensNothing(s, RISK_ENGINE, s.activeIntentId, OrderDenied);
    var d := Record(s, RISK_ENGINE, s.activeIntentId, OrderDenied);
    TransitionOpens(d.(activeIntentId := None, activeIntent := None), Flat, OrderDeniedByEngine);
  }

  lemma VerdictOpensNothing(s: Strategy, e: Event)
    requires e.IntentApproved? || e.IntentRejected?
    ensures OpensNothing(s, Step(s, e))
  {
    hide ReadAll, SubmitApprovedIntent, FromSnapshot, Record, Transition, Continues, SameIds, SameOutbox, SameVerdicts,
      EntryPriceIn, LastFill, AllInPlace;
    match e
    case IntentApproved(m, i) =>
      if FromSnapshot(m.snapshot).Some? {
        SubmitOpensNothing(s.(pendingIntent := None), FromSnapshot(m.snapshot).value, i);
      }
    case IntentRejected(m) =>
      RecordOpensNothing(s, LIFECYCLE, Some(m.intentId), SelectorRejected(m.intentId));
      var j := Record(s, LIFECYCLE, Some(m.intentId), SelectorRejected(m.intentId));
      TransitionOpens(j.(pendingIntent := None), Flat, SelectorReject);
  }

  lemma SessionOpensNothing(s: Strategy, allows: bool, flatten: bool, i: Inputs)
    ensures OpensNothing(s, OnSessionPhase(s, allows, flatten, i))
  {
    hide ReadAll, FlattenPositions, Continues, SameIds, SameOutbox, SameVerdicts, EntryPriceIn, AllInPlace;
    FlattenOpensNothing(s.(sessionAllowsEntry := allows, sessionReceived := true, flattenSignal := flatten),
                        SessionClosed, i);
  }

  lemma LifecycleOpensNothing(s: Strategy)
    ensures OpensNothing(s, OnStart(s)) && OpensNothing(s, OnStop(s))
  {
    hide ReadAll, Record, Continues, SameIds, SameOutbox, SameVerdicts, EntryPriceIn, LastFill, AllInPlace;
    RecordOpensNothing(s, LIFECYCLE, None, StrategyStart);
    RecordOpensNothing(s, LIFECYCLE, None, StrategyStop(s.state));
  }

  /** Records in place are added that are neither fills nor transitions, and nothing else changes. */
  ghost predicate NotesOnly(s: Strategy, t: Strategy) {
    && t == s.(journal := t.journal)
    && LastFill(t.journal) == LastFill(s.journal) && EntryPriceIn(t.journal) == EntryPriceIn(s.journal)
    && (AllInPlace(s.journal) ==> AllInPlace(t.journal))
  }

  lemma RecordIs(s: Strategy, stage: GateStage, refId: Option<IntentId>, p: Payload)
    requires !Foreign(p)
    ensures Record(s, stage, refId, p) ==
            s.(journal := s.journal + [Audit.Entry(stage, refId, s.cfg.strategyId, p)])
  {
    hide ReadAll, Continues, SameOutbox;
  }

  lemma TransitionIs(s: Strategy, to: StrategyState, reason: Reason)
    ensures Transition(s, to, reason) ==
            s.(state := to,
               journal := s.journal + [Audit.Entry(LIFECYCLE, s.activeIntentId, s.cfg.strategyId,
                                                   FsmTransition(s.state, to, reason))])
  {
    hide ReadAll, Continues, SameOutbox, SameIds, SameVerdicts, Record;
    RecordIs(s.(state := to), LIFECYCLE, s.activeIntentId, FsmTransition(s.state, to, reason));
  }

  lemma NoteIsRecorded(s: Strategy, stage: GateStage, refId: Option<IntentId>, p: Payload)
    requires !Foreign(p) && !Enters(p) && !p.Fill? && InPlace(Audit.Entry(stage, refId, s.cfg.strategyId, p))
    ensures NotesOnly(s, Record(s, stage, refId, p))
  {
    hide ReadAll, Record, Continues, SameOutbox, InPlace, AllInPlace, EntryPriceIn, LastFill;
    RecordIs(s, stage, refId, p);
    RecordOpensNothing(s, stage, refId, p);
  }

  lemma LearningIsRecorded(s: Strategy)
    ensures NotesOnly(s, JournalLearning(s))
  {
    hide ReadAll, Record, Continues, SameIds, SameOutbox, SameVerdicts, NotesOnly;
    if s.activeIntentId.Some? {
      NoteIsRecorded(s, LEARNING, s.activeIntentId, LearningRecord(s.activeIntentId.value));
    } else if s.activeIntent.Some? {
      var id := s.activeIntent.value.intentId;
      NoteIsRecorded(s, LEARNING, Some(id), LearningRecord(id));
    } else {
      NothingNoted(s);
    }
  }

  lemma NothingNoted(s: Strategy)
    ensures NotesOnly(s, s)
  {
  }

  /** The fill is recorded before everything else its callback records. */
  lemma FillIsRecorded(s: Strategy, price: real, quantity: real)
    ensures var j := JournalFill(s, price, quantity);
            && j == s.(journal := j.journal)
            && LastFill(j.journal) == Some(price) && EntryPriceIn(j.journal) == EntryPriceIn(s.journal)
            && (AllInPlace(s.journal) ==> AllInPlace(j.journal))
  {
    hide ReadAll, Record, JournalLearning, Continues, SameIds, SameOutbox, SameVerdicts, EntryPriceIn, LastFill,
      AllInPlace;
    var f := Record(s, FILL, s.activeIntentId, Fill(price, quantity));
    RecordIs(s, FILL, s.activeIntentId, Fill(price, quantity));
    RecordOpensNothing(s, FILL, s.activeIntentId, Fill(price, quantity));
    var l := JournalLearning(f);
    LearningIsRecorded(f);
    NoteIsRecorded(l, PNL, l.activeIntentId, Pnl);
  }

  /**
   * A fill opens the position a strategy is waiting for, at the price of the fill; it closes one it is
   * leaving, with nothing active any more; and it changes neither state nor entry price otherwise.
   */
  lemma FillSetsPrice(s: Strategy, price: real, quantity: real)
    ensures var t := OnOrderFilled(s, price, quantity);
            match s.state
            case PendingEntry => t.state.InPosition? && t.entryPrice == Some(price) == EntryPriceIn(t.journal)
            case Exiting => t.state.Flat? && t.entryPrice.None? && t.activeIntentId.None? && t.activeIntent.None?
            case _ => t.state == s.state && OpensNothing(s, t)
    ensures AllInPlace(s.journal) ==> AllInPlace(OnOrderFilled(s, price, quantity).journal)
  {
    hide ReadAll, JournalFill, Transition, Continues, SameIds, SameOutbox, SameVerdicts, EntryPriceIn, LastFill,
      AllInPlace;
    FillIsRecorded(s, price, quantity);
    var j := JournalFill(s, price, quantity);
    TransitionOpens(j.(entryPrice := Some(price)), InPosition, EntryFill);
    TransitionOpens(j.(activeIntentId := None, activeIntent := None, entryPrice := None), Flat, ExitFill);
  }

  /** The entry price of an open position is in the journal, and every record is in place. */
  ghost predicate IsJournalled(s: Strategy) {
    && (Invested(s.state) ==> s.entryPrice.Some? && s.entryPrice == EntryPriceIn(s.journal))
    && AllInPlace(s.journal)
  }

  lemma StepKeepsPrice(s: Strategy, e: Event)
    requires IsJournalled(s)
    ensures IsJournalled(Step(s, e))
  {
    hide ReadAll, EntryPriceIn, OnOptionChain, OnQuoteTick, OnOptionGreeks, OnSessionPhase, OnOrderFilled,
      OnOrderRejected, OnOrderDenied, OnIntentApproved, OnIntentRejected, OnStart, OnStop;
    match e
    case ChainArrived(chain, i) => ChainOpensNothing(s, chain, i);
    case QuoteTick(ts, id, quote, i) => TickOpensNothing(s, ts, id, quote, i);
    case OptionGreeksArrived(i) => GreeksOpenNothing(s, i);
    case SessionPhase(allows, flatten, i) => SessionOpensNothing(s, allows, flatten, i);
    case RegimeMessage(tag) =>
    case OrderFilledEvent(price, quantity) => FillSetsPrice(s, price, quantity);
    case OrderRejectedEvent => RejectedOpensNothing(s);
    case OrderDeniedEvent => DeniedOpensNothing(s);
    case Started => LifecycleOpensNothing(s);
    case Stopped => LifecycleOpensNothing(s);
    case _ => VerdictOpensNothing(s, e);
  }

  lemma {:induction false} RunIsJournalled(cfg: Config, events: seq<Event>)
    ensures IsJournalled(Run(Initial(cfg), events))
  {
    if |events| > 0 {
      hide Step, IsJournalled;
      RunIsJournalled(cfg, events[..|events| - 1]);
      StepKeepsPrice(Run(Initial(cfg), events[..|events| - 1]), events[|events| - 1]);
    }
  }

  /**
   * Over any run the entry price of an open position, also of one that is being left, is the price of the
   * FILL record journalled last before the strategy last went into position.
   */
  lemma EntryPriceIsTheFill(cfg: Config, events: seq<Event>)
    ensures var s := Run(Initial(cfg), events);
            Invested(s.state) ==> s.entryPrice.Some? && s.entryPrice == EntryPriceIn(s.journal)
  {
    hide Run, EntryPriceIn, AllInPlace;
    RunIsJournalled(cfg, events);
  }

  /**
   * Over any run every record stands at the stage of its event and names the intent it is about, and a
   * refusal names rules of the stage that refused.
   */
  lemma RecordsAreInPlace(cfg: Config, events: seq<Event>, k: nat)
    requires k < |Run(Initial(cfg), events).journal|
    ensures InPlace(Run(Initial(cfg), events).journal[k])
  {
    hide Run, EntryPriceIn, InPlace;
    RunIsJournalled(cfg, events);
  }

  /* ---- Entries that are not filled ----------------------------------------------------------------- */

  /** t is s, back in Flat with nothing active, after a record of the refusal and one of the transition. */
  predicate GivesUp(s: Strategy, t: Strategy, stage: GateStage, p: Payload, why: Reason) {
    && t == s.(state := Flat, activeIntentId := None, activeIntent := None, journal := t.journal)
    && t.journal == s.journal + [Audit.Entry(stage, s.activeIntentId, s.cfg.strategyId, p),
                                 Audit.Entry(LIFECYCLE, None, s.cfg.strategyId, FsmTransition(s.state, Flat, why))]
  }

  /** A rejected entry order is recorded and given up; in any other state the message changes nothing. */
  lemma RejectedEntryIsGivenUp(s: Strategy)
    ensures if s.state.PendingEntry? then GivesUp(s, OnOrderRejected(s), LIFECYCLE, OrderRejected, OrderRejectedByVenue)
            else OnOrderRejected(s) == s
  {
    hide ReadAll, Record, Transition, Continues, SameIds, SameOutbox, SameVerdicts;
    RecordIs(s, LIFECYCLE, s.activeIntentId, OrderRejected);
    var j := Record(s, LIFECYCLE, s.activeIntentId, OrderRejected);
    TransitionIs(j.(activeIntentId := None, activeIntent := None), Flat, OrderRejectedByVenue);
  }

  /** The same for a denial by the risk engine. */
  lemma DeniedEntryIsGivenUp(s: Strategy)
    ensures if s.state.PendingEntry? then GivesUp(s, OnOrderDenied(s), RISK_ENGINE, OrderDenied, OrderDeniedByEngine)
            else OnOrderDenied(s) == s
  {
    hide ReadAll, Record, Transition, Continues, SameIds, SameOutbox, SameVerdicts;
    RecordIs(s, RISK_ENGINE, s.activeIntentId, OrderDenied);
    var j := Record(s, RISK_ENGINE, s.activeIntentId, OrderDenied);
    TransitionIs(j.(activeIntentId := None, activeIntent := None), Flat, OrderDeniedByEngine);
  }

  /**
   * A strategy waiting for its entry is told to flatten by a closing message only. It asks to cancel, unless
   * that raises, and waits on; nothing is sold and nothing journalled.
   */
  lemma FlattenWaitsForEntry(s: Strategy, e: Event)
    requires s.state.PendingEntry? && (e.SessionPhase? || e.QuoteTick?)
    ensures Step(s, e).state.PendingEntry? && Step(s, e).journal == s.journal
    ensures Step(s, e).calls ==
            s.calls + if e.SessionPhase? && e.flattenSignal && !e.inputs.cancelRaises then [CancelAllOrders] else []
  {
    hide ReadAll, BeginExit, Continues, SameIds, SameOutbox, SameVerdicts;
  }

  /**
   * A hedge is sent exactly for an open spread whose delta is outside the band, if none was tried before and
   * the hedge instrument is known, and not in a dry run; it is an order of that instrument against the delta.
   */
  lemma HedgeSentIff(s: Strategy, i: Inputs)
    ensures var delta, t := GreeksOrZero(i.current).delta, OnOptionGreeks(s, i);
            && (t.calls != s.calls <==>
                  && s.state.InPosition? && !s.cfg.plumbing && !s.cfg.dryRun && !s.hedgeSubmitted
                  && s.cfg.hedgePerp.Some? && s.cfg.hedgePerp.value in i.instruments
                  && (delta > s.cfg.hedgeDeltaBand || delta < -s.cfg.hedgeDeltaBand))
            && (t.calls != s.calls ==>
                  t.calls == s.calls + [MarketOrder(Hedge, s.cfg.hedgePerp.value, if delta > 0.0 then SELL else BUY,
                                                    Min(Abs(delta), s.cfg.orderQty))])
            && (t.hedgeSubmitted <==>
                  || s.hedgeSubmitted
                  || (s.state.InPosition? && !s.cfg.plumbing && s.cfg.hedgePerp.Some? &&
                      (delta > s.cfg.hedgeDeltaBand || delta < -s.cfg.hedgeDeltaBand)))
  {
    hide ReadAll, Record, Continues, SameIds, SameOutbox, SameVerdicts;
    RecordIs(s.(hedgeSubmitted := true), LIFECYCLE, s.activeIntentId, DeltaHedge(GreeksOrZero(i.current).delta));
  }
}
