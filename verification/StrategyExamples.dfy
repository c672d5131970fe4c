/** Runs of one strategy that reach what other theorems speak of, or that a reader may not expect. */
module StrategyExamples {
  import opened Models
  import opened Gates
  import opened Audit
  import opened StrategyFsm
  import opened StrategyRuns
  import opened StrategyTheorems
  import opened Orders

  /** An engine that knows these instruments, at time 0. */
  function Knowing(instruments: set<string>, freshId: IntentId): Inputs {
    Inputs(0, freshId, true, None, None, instruments, map[], false)
  }

  /** Both actors report; entry is allowed. */
  function Opening(): seq<Event> {
    [SessionPhase(true, false, Knowing({}, 0)), RegimeMessage("CHOP")]
  }

  function Opened(cfg: Config): Strategy {
    Initial(cfg).(sessionAllowsEntry := true, sessionReceived := true, regimeTag := CHOP, regimeReceived := true)
  }

  lemma OneMoreEvent(s: Strategy, events: seq<Event>, e: Event)
    ensures Run(s, events + [e]) == Step(Run(s, events), e)
    ensures FreshRun(s, events + [e]) <==> FreshRun(s, events) && Fresh(Run(s, events), e)
  {
    hide Step, Fresh;
    assert (events + [e])[..|events|] == events;
  }

  lemma OpeningRun(cfg: Config)
    ensures Run(Initial(cfg), Opening()) == Opened(cfg) && FreshRun(Initial(cfg), Opening())
  {
    hide ReadAll, Continues, SameIds, SameOutbox, SameVerdicts;
    var s := Initial(cfg);
    var e, f := SessionPhase(true, false, Knowing({}, 0)), RegimeMessage("CHOP");
    OneMoreEvent(s, [], e);
    OneMoreEvent(s, [e], f);
    assert [] + [e] == [e] && [e] + [f] == Opening();
  }

  /* ---- Refused for its edge -------------------------------------------------------------------- */

  lemma LowEdgeIsRefused(s: Strategy, c: Context, i: Inputs)
    requires ActorsReady(s) && i.builds && c.edge < s.cfg.minEdge
    ensures EDGE in ReadAll(BeginEvaluation(s, c, i).journal).refusedAt
  {
    hide ReadAll, QuoteFresh, ChainFresh, Continues, SameOutbox, RiskBreaches, AfterGates;
    var e := Transition(s, Evaluating, Signal);
    var intent := BuildIntent(e, c, i.freshId);
    assert PreGreek(intent, GateContextOf(e, c, i.now)) == Failed(EDGE, [MinEdge]);
    var r := Record(e, EDGE, Some(intent.intentId), GateReject([MinEdge], intent.intentId));
    assert EDGE in ReadAll(r.journal).refusedAt;
  }

  ghost predicate RefusedAtEdge(cfg: Config, events: seq<Event>) {
    FreshRun(Initial(cfg), events) && EDGE in ReadAll(Run(Initial(cfg), events).journal).refusedAt
  }

  /** The edge of the spread bought at a loss, less what trading it costs. */
  function LossEdge(fees: Costs.FeeSchedule): real {
    -10000.0 - fees.expectedSlippageBps - Costs.DeribitCommissionBps(1.0, fees)
  }

  /** A strategy that trades spreads without the portfolio selector and accepts any edge above a total loss. */
  function SpreadConfig(sel: Structures.Selector): Config {
    Config("S", "U", false, false, LossEdge(sel.fees), 1.0, {}, false, 1.0, 1.0, 0,
           RiskPolicy(0.0, 0.0, 0.0, 0.0, 0.0, ""), false, Some(sel), 5, 1.0, 0.5, 0.5, None, 0.0)
  }

  function LossEvents(cfg: Config): seq<Event> {
    Opening() + [ChainArrived(Structures.PairChain(cfg.strikeWidth), Knowing({}, 0))]
  }

  /** Any configuration of the Deribit selector whose minimum is above a total loss is refused for its edge in a run. */
  lemma DeribitIsRefused(cfg: Config)
    requires !cfg.plumbing && cfg.structureSelector.Some? && cfg.structureSelector.value.venue.Deribit?
    requires cfg.strikeWidth > 0 && cfg.minLiquidity <= 1.0 && cfg.minEdge > LossEdge(cfg.structureSelector.value.fees)
    ensures RefusedAtEdge(cfg, LossEvents(cfg))
  {
    hide BeginEvaluation, ReadAll, Run, FreshRun, Continues, SameVerdicts;
    var sel := cfg.structureSelector.value;
    var chain := Structures.PairChain(cfg.strikeWidth);
    OpeningRun(cfg);
    OneMoreEvent(Initial(cfg), Opening(), ChainArrived(chain, Knowing({}, 0)));
    NothingDecided(cfg);
    Structures.PairIsSelected(sel, cfg.strikeWidth, cfg.minEdge, cfg.minLiquidity);
    var t := Opened(cfg).(lastChainTs := Some(chain.ts));
    LowEdgeIsRefused(t, ContextFromChain(t, chain).value, Knowing({}, 0));
  }

  lemma NothingDecided(cfg: Config)
    ensures Auditing(Opened(cfg)).decided == {}
  {
  }

  /**
   * A structure selector can be used by a strategy that is refused for its edge if and only if it is the
   * Deribit one.
   */
  lemma OnlyDeribitIsRefused(sel: Structures.Selector)
    ensures (exists cfg: Config, events ::
               !cfg.plumbing && cfg.structureSelector == Some(sel) && RefusedAtEdge(cfg, events)) <==>
            sel.venue.Deribit?
  {
    hide ReadAll, Run, FreshRun, LossEdge;
    if sel.venue.Deribit? {
      var cfg := SpreadConfig(sel).(minEdge := LossEdge(sel.fees) + 1.0);
      DeribitIsRefused(cfg);
    } else {
      forall cfg: Config, events | !cfg.plumbing && cfg.structureSelector == Some(sel) && FreshRun(Initial(cfg), events)
        ensures !RefusedAtEdge(cfg, events)
      {
        SelectedSpreadsPassTheirStages(cfg, events);
      }
    }
  }

  /* ---- Entering and leaving -------------------------------------------------------------------- */

  /** The instrument an entry of this intent trades. */
  function EntryInstrument(cfg: Config, intent: TradeIntent): string {
    if cfg.plumbing then cfg.underlying else intent.instrumentId
  }

  /** t is s with one entry order more, for this instrument. */
  predicate EntrySent(s: Strategy, t: Strategy, id: string) {
    && t.exitSubmitted == s.exitSubmitted
    && |t.calls| == |s.calls| + 1 && t.calls[..|s.calls|] == s.calls
    && IsEntry(t.calls[|s.calls|]) && t.calls[|s.calls|].instrumentId == id
    && ExitInstrument(t) == if id != "" then id else s.cfg.underlying
  }

  lemma EntryIsSent(s: Strategy, intent: TradeIntent, i: Inputs)
    requires EntryInstrument(s.cfg, intent) in i.instruments
    ensures var t := SubmitEntry(s, intent, i);
            && EntrySent(s, t, EntryInstrument(s.cfg, intent))
            && t.state == s.state && t.activeIntentId == s.activeIntentId
  {
    hide ReadAll, Continues, SameIds, SameOutbox, SameVerdicts, EntryPriceEstimate, JournalOrderError;
  }

  lemma SubmitEnters(s: Strategy, intent: TradeIntent, i: Inputs)
    requires EntryInstrument(s.cfg, intent) in i.instruments
    ensures var t := SubmitApprovedIntent(s, intent, i);
            EntrySent(s, t, EntryInstrument(s.cfg, intent)) && t.state.PendingEntry? && t.activeIntentId.Some?
  {
    hide ReadAll, Continues, SameIds, SameOutbox, SameVerdicts, SubmitEntry, EntrySent, Extends, Quiet;
    var p := Engage(s, intent);
    var j := Record(p, LIFECYCLE, Some(intent.intentId), OrderSubmit(intent.intentId, intent.instrumentId));
    EntryIsSent(j, intent, i);
    SentSince(s, j, SubmitEntry(j, intent, i), EntryInstrument(s.cfg, intent));
  }

  lemma SentSince(s: Strategy, j: Strategy, t: Strategy, id: string)
    requires EntrySent(j, t, id) && j.calls == s.calls && j.exitSubmitted == s.exitSubmitted && j.cfg == s.cfg
    ensures EntrySent(s, t, id)
  {
  }

  lemma EvaluationEnters(s: Strategy, c: Context, i: Inputs)
    requires ActorsReady(s) && i.builds && GatesOpen(s, c, i) && !s.cfg.dryRun && !s.cfg.selectorEnabled
    requires EntryInstrument(s.cfg, BuildIntent(s, c, i.freshId)) in i.instruments
    ensures var t, id := BeginEvaluation(s, c, i), EntryInstrument(s.cfg, BuildIntent(s, c, i.freshId));
            && EntrySent(s, t, id) && t.state.PendingEntry? && t.activeIntentId.Some?
            && Auditing(t).decided == Auditing(s).decided + {i.freshId}
  {
    hide ReadAll, ChainFresh, QuoteFresh, Recent, SubmitApprovedIntent, PreGreek, EntrySent;
    var e := Transition(s, Evaluating, Signal);
    var intent := BuildIntent(e, c, i.freshId);
    PreGreekPassesIff(intent, GateContextOf(e, c, i.now));
    FreshMeansRecent(e, c, i.now);
    SameGates(s, e, c, i);
    var g := Record(e, GREEK, Some(intent.intentId), GreekPassed(intent.intentId));
    SubmitEnters(g, intent, i);
    SentSince(s, g, SubmitApprovedIntent(g, intent, i), EntryInstrument(s.cfg, intent));
  }

  /** What the examples follow from one callback to the next. */
  ghost predicate Stands(s: Strategy, cfg: Config, state: StrategyState, triggered: bool, decided: set<IntentId>) {
    && s.cfg == cfg && s.state == state && s.exitSubmitted == triggered && Auditing(s).decided == decided
    && s.sessionReceived && s.sessionAllowsEntry && !s.flattenSignal && s.regimeReceived && s.regimeTag == CHOP
    && (Holding(s) ==> s.activeIntentId.Some?)
    && (s.state.InPosition? ==> s.entryPrice == Some(1.0))
  }

  lemma OpenedStands(cfg: Config)
    ensures Stands(Opened(cfg), cfg, Flat, false, {})
  {
  }

  const FILLED: Event := OrderFilledEvent(1.0, 1.0)

  lemma FillStands(s: Strategy, cfg: Config, state: StrategyState, triggered: bool, decided: set<IntentId>)
    requires Stands(s, cfg, state, triggered, decided) && (state.PendingEntry? || state.Exiting?)
    ensures var t := Step(s, FILLED);
            && Stands(t, cfg, if state.PendingEntry? then InPosition else Flat, triggered, decided)
            && t.calls == s.calls && ExitInstrument(t) == ExitInstrument(s)
  {
    hide ReadAll, SameOutbox, SameVerdicts, JournalFill, Extends;
    var j := JournalFill(s, 1.0, 1.0);
    JournalFillOrders(s, 1.0, 1.0);
    FillFlags(s, 1.0, 1.0);
  }

  lemma RecordFlags(s: Strategy, stage: GateStage, refId: Option<IntentId>, p: Payload)
    requires !Foreign(p)
    ensures var t := Record(s, stage, refId, p);
            && t.exitSubmitted == s.exitSubmitted && t.entryPrice == s.entryPrice
            && t.activeIntentId == s.activeIntentId && t.activeIntent == s.activeIntent
  {
    hide ReadAll, Continues, SameOutbox;
  }

  lemma FillFlags(s: Strategy, price: real, quantity: real)
    ensures var j := JournalFill(s, price, quantity);
            j.exitSubmitted == s.exitSubmitted && j.activeIntentId == s.activeIntentId && j.entryPrice == s.entryPrice
  {
    hide ReadAll, Record, Continues, SameIds, SameOutbox, SameVerdicts;
    var f := Record(s, FILL, s.activeIntentId, Fill(price, quantity));
    RecordFlags(s, FILL, s.activeIntentId, Fill(price, quantity));
    if f.activeIntentId.Some? {
      RecordFlags(f, LEARNING, f.activeIntentId, LearningRecord(f.activeIntentId.value));
    } else if f.activeIntent.Some? {
      RecordFlags(f, LEARNING, Some(f.activeIntent.value.intentId), LearningRecord(f.activeIntent.value.intentId));
    }
    var l := JournalLearning(f);
    RecordFlags(l, PNL, l.activeIntentId, Pnl);
  }

  /** A tick of any instrument at a bid of b, the entry instrument being known. */
  function TickAt(instrument: string, b: real, known: set<string>, freshId: IntentId): Event {
    QuoteTick(0, instrument, Costs.Quote(b, b), Knowing(known, freshId))
  }

  lemma TickTriggers(s: Strategy, cfg: Config, decided: set<IntentId>, e: Event)
    requires Stands(s, cfg, InPosition, false, decided) && e.QuoteTick? && ExitInstrument(s) in e.inputs.instruments
    requires e.quote.bid >= 1.0 + cfg.takeProfitPct
    ensures Stands(Step(s, e), cfg, Exiting, true, decided)
  {
    hide ReadAll, SameOutbox, SameVerdicts, Extends, Record, Transition;
    var t := s.(lastQuoteTs := Some(e.ts), exitSubmitted := true);
    assert ProfitPct(1.0, e.quote.bid) == e.quote.bid - 1.0;
    TransitionFlags(t, Exiting, TakeProfitStopLoss);
  }

  lemma TransitionFlags(s: Strategy, to: StrategyState, reason: Reason)
    ensures var t := Transition(s, to, reason);
            && t.state == to && t.cfg == s.cfg && t.exitSubmitted == s.exitSubmitted && t.entryPrice == s.entryPrice
            && t.activeIntentId == s.activeIntentId && t.positionInstrument == s.positionInstrument
            && t.calls == s.calls
  {
    hide ReadAll, Continues, SameIds, SameOutbox, SameVerdicts;
  }

  /* ---- A later position no price closes ---------------------------------------------------------- */

  /** A plumbing configuration that opens positions. */
  predicate Trades(cfg: Config) {
    && cfg.plumbing && !cfg.dryRun && !cfg.selectorEnabled && CHOP !in cfg.blockedRegimes && cfg.maxQuoteAgeSecs >= 0.0
    && WithinLimits(cfg.risk, GreeksOrZero(None))
  }

  lemma TickEnters(s: Strategy, cfg: Config, triggered: bool, decided: set<IntentId>, freshId: IntentId)
    requires Trades(cfg) && Stands(s, cfg, Flat, triggered, decided)
    ensures Stands(Step(s, TickAt(cfg.underlying, 1.0, {cfg.underlying}, freshId)), cfg, PendingEntry, triggered,
                   decided + {freshId})
  {
    hide ReadAll, BeginEvaluation, EntrySent, Extends;
    var i, quote := Knowing({cfg.underlying}, freshId), Costs.Quote(1.0, 1.0);
    var t := s.(lastQuoteTs := Some(0));
    var c := ContextFromTick(t, cfg.underlying, quote).value;
    assert GatesOpen(t, c, i);
    EvaluationEnters(t, c, i);
    SentFlags(t, BeginEvaluation(t, c, i), cfg.underlying);
  }

  lemma SentFlags(s: Strategy, t: Strategy, id: string)
    requires EntrySent(s, t, id)
    ensures t.exitSubmitted == s.exitSubmitted
  {
  }

  /** A position opened, closed by its take-profit, and another one opened. */
  function TwoPositions(cfg: Config): seq<Event> {
    var u := cfg.underlying;
    Opening() + [TickAt(u, 1.0, {u}, 0)] + [FILLED] + [TickAt(u, 1.0 + cfg.takeProfitPct, {u}, 1)] + [FILLED] +
    [TickAt(u, 1.0, {u}, 1)] + [FILLED]
  }

  /** Any such configuration gets to a position that no later price closes. */
  lemma LaterPositionIsReached(cfg: Config)
    requires Trades(cfg)
    ensures FreshRun(Initial(cfg), TwoPositions(cfg))
    ensures var s := Run(Initial(cfg), TwoPositions(cfg));
            HasTriggered(s.journal) && s.state.InPosition? && !s.flattenSignal
  {
    hide ReadAll, Run, FreshRun, Step, Stands, HasTriggered, Inv;
    var s, u := Initial(cfg), cfg.underlying;
    var e1, e3, e5 := TickAt(u, 1.0, {u}, 0), TickAt(u, 1.0 + cfg.takeProfitPct, {u}, 1), TickAt(u, 1.0, {u}, 1);
    var r0 := Opening();
    OpeningRun(cfg);
    OpenedStands(cfg);
    var r1 := r0 + [e1];
    NextEvent(s, r0, e1, cfg, Flat, false, {});
    TickEnters(Run(s, r0), cfg, false, {}, 0);
    assert {} + {0} == {0};
    var r2 := r1 + [FILLED];
    NextEvent(s, r1, FILLED, cfg, PendingEntry, false, {0});
    FillStands(Run(s, r1), cfg, PendingEntry, false, {0});
    var r3 := r2 + [e3];
    NextEvent(s, r2, e3, cfg, InPosition, false, {0});
    SellsUnderlying(Run(s, r2), cfg, InPosition, false, {0});
    TickTriggers(Run(s, r2), cfg, {0}, e3);
    var r4 := r3 + [FILLED];
    NextEvent(s, r3, FILLED, cfg, Exiting, true, {0});
    FillStands(Run(s, r3), cfg, Exiting, true, {0});
    var r5 := r4 + [e5];
    NextEvent(s, r4, e5, cfg, Flat, true, {0});
    TickEnters(Run(s, r4), cfg, true, {0}, 1);
    var r6 := r5 + [FILLED];
    NextEvent(s, r5, FILLED, cfg, PendingEntry, true, {0} + {1});
    FillStands(Run(s, r5), cfg, PendingEntry, true, {0} + {1});
    assert r6 == TwoPositions(cfg);
    AcceptedRun(cfg, r6);
    TriggersAreCounted(Run(s, r6).journal);
    StandsTriggered(Run(s, r6), cfg, {0} + {1});
  }

  /** One event more, whose id is new to a strategy that stands so. */
  lemma NextEvent(s: Strategy, events: seq<Event>, e: Event, cfg: Config, state: StrategyState, triggered: bool,
                  decided: set<IntentId>)
    requires FreshRun(s, events) && Stands(Run(s, events), cfg, state, triggered, decided)
    requires e.ChainArrived? || e.QuoteTick? ==> e.inputs.freshId !in decided
    ensures Run(s, events + [e]) == Step(Run(s, events), e) && FreshRun(s, events + [e])
  {
    hide ReadAll, Run, FreshRun, Step;
    OneMoreEvent(s, events, e);
  }

  lemma SellsUnderlying(s: Strategy, cfg: Config, state: StrategyState, triggered: bool, decided: set<IntentId>)
    requires Stands(s, cfg, state, triggered, decided) && cfg.plumbing
    ensures ExitInstrument(s) == cfg.underlying
  {
  }

  lemma StandsTriggered(s: Strategy, cfg: Config, decided: set<IntentId>)
    requires Stands(s, cfg, InPosition, true, decided) && Inv(s)
    ensures ReadAll(s.journal).triggeredExits > 0 && s.state.InPosition? && !s.flattenSignal
  {
    hide ReadAll;
  }

  /* ---- A position the blackout does not close --------------------------------------------------------- */

  /** A position opened, and then the closing message of the session while cancelling raises. */
  function Stranding(cfg: Config): seq<Event> {
    var u := cfg.underlying;
    Opening() + [TickAt(u, 1.0, {u}, 0)] + [FILLED] +
    [SessionPhase(false, true, Knowing({u}, 1).(cancelRaises := true))]
  }

  lemma {:induction false} RunOfConcat(s: Strategy, a: seq<Event>, b: seq<Event>)
    ensures Run(s, a + b) == Run(Run(s, a), b)
  {
    hide Step;
    if |b| == 0 {
      assert a + b == a;
    } else {
      assert (a + b)[..|a + b| - 1] == a + b[..|b| - 1];
      RunOfConcat(s, a, b[..|b| - 1]);
    }
  }

  lemma RaisingCancelKeeps(s: Strategy, cfg: Config, decided: set<IntentId>, i: Inputs)
    requires Stands(s, cfg, InPosition, false, decided) && i.cancelRaises
    ensures var t := Step(s, SessionPhase(false, true, i)); t.state.InPosition? && t.flattenSignal
  {
    hide ReadAll;
    RaisingCancel(s, SessionPhase(false, true, i));
  }

  /**
   * Such a position is open for good while cancelling raises and the signal stays: whatever happens later,
   * no order that closes it is sent.
   */
  lemma BlackoutStrands(cfg: Config, later: seq<Event>)
    requires Trades(cfg) && forall k :: 0 <= k < |later| ==> CannotFlatten(later[k])
    ensures FreshRun(Initial(cfg), Stranding(cfg))
    ensures StuckSince(Run(Initial(cfg), Stranding(cfg)), Run(Initial(cfg), Stranding(cfg) + later))
  {
    hide ReadAll, Run, FreshRun, Step, Stands, StuckSince, CannotFlatten;
    var s, u := Initial(cfg), cfg.underlying;
    var e1, e3 := TickAt(u, 1.0, {u}, 0), SessionPhase(false, true, Knowing({u}, 1).(cancelRaises := true));
    var r0 := Opening();
    OpeningRun(cfg);
    OpenedStands(cfg);
    var r1 := r0 + [e1];
    NextEvent(s, r0, e1, cfg, Flat, false, {});
    TickEnters(Run(s, r0), cfg, false, {}, 0);
    assert {} + {0} == {0};
    var r2 := r1 + [FILLED];
    NextEvent(s, r1, FILLED, cfg, PendingEntry, false, {0});
    FillStands(Run(s, r1), cfg, PendingEntry, false, {0});
    NextEvent(s, r2, e3, cfg, InPosition, false, {0});
    RaisingCancelKeeps(Run(s, r2), cfg, {0}, e3.inputs);
    assert r2 + [e3] == Stranding(cfg);
    StuckInPosition(Run(s, Stranding(cfg)), later);
    RunOfConcat(s, Stranding(cfg), later);
  }

  /* ---- A spread sold at the price of its underlying ------------------------------------------------ */

  /** The spread the Deribit selector picks from the two calls. */
  function PairSpread(sel: Structures.Selector): Option<Structures.Spread> {
    Structures.SelectFromChain(sel, Structures.PairChain(5), 5, LossEdge(sel.fees), 1.0)
  }

  /** The events up to the fill of the spread at 1.0, and then a quote of the underlying. */
  function UnderlyingQuoted(id: string): seq<Event> {
    Opening() + [TickAt("U", 100.0, {}, 0)] + [ChainArrived(Structures.PairChain(5), Knowing({id}, 0))] + [FILLED] +
    [TickAt("U", 100.0, {id}, 1)]
  }

  lemma ChainEnters(s: Strategy, sel: Structures.Selector)
    requires sel.venue.Deribit? && PairSpread(sel).Some?
    requires Stands(s, SpreadConfig(sel), Flat, false, {}) && s.calls == [] && s.lastQuoteTs == Some(0)
    ensures var id := PairSpread(sel).value.instrumentId;
            var t := Step(s, ChainArrived(Structures.PairChain(5), Knowing({id}, 0)));
            && Stands(t, SpreadConfig(sel), PendingEntry, false, {0})
            && |t.calls| == 1 && IsEntry(t.calls[0]) && t.calls[0].instrumentId == id && ExitInstrument(t) == id
  {
    hide ReadAll, BeginEvaluation, Extends, Structures.PairChain, Structures.SelectFromChain;
    var cfg, chain := SpreadConfig(sel), Structures.PairChain(5);
    Structures.PairIsSelected(sel, 5, cfg.minEdge, 1.0);
    var i := Knowing({PairSpread(sel).value.instrumentId}, 0);
    var t := s.(lastChainTs := Some(chain.ts));
    var c := ContextFromChain(t, chain).value;
    assert GatesOpen(t, c, i);
    EvaluationEnters(t, c, i);
  }

  lemma PairIsPicked(sel: Structures.Selector)
    requires sel.venue.Deribit?
    ensures PairSpread(sel).Some? && |PairSpread(sel).value.instrumentId| >= 4
  {
    hide Structures.SelectFromChain, Structures.PairChain, LossEdge;
    Structures.PairIsSelected(sel, 5, LossEdge(sel.fees), 1.0);
  }

  lemma FlatTickWaits(s: Strategy, cfg: Config, decided: set<IntentId>)
    requires Stands(s, cfg, Flat, false, decided) && !cfg.plumbing
    ensures var t := Step(s, TickAt("U", 100.0, {}, 0));
            Stands(t, cfg, Flat, false, decided) && t.calls == s.calls && t.lastQuoteTs == Some(0)
  {
    hide ReadAll, BeginEvaluation;
  }

  /** The run up to the fill of the spread. */
  lemma SpreadIsHeld(sel: Structures.Selector, held: seq<Event>)
    requires sel.venue.Deribit? && PairSpread(sel).Some?
    requires var id := PairSpread(sel).value.instrumentId;
             held == Opening() + [TickAt("U", 100.0, {}, 0)] +
                     [ChainArrived(Structures.PairChain(5), Knowing({id}, 0))] + [FILLED]
    ensures var s, id := Run(Initial(SpreadConfig(sel)), held), PairSpread(sel).value.instrumentId;
            && FreshRun(Initial(SpreadConfig(sel)), held) && Stands(s, SpreadConfig(sel), InPosition, false, {0})
            && |s.calls| == 1 && IsEntry(s.calls[0]) && s.calls[0].instrumentId == id && ExitInstrument(s) == id
  {
    hide ReadAll, Run, FreshRun, Step, Stands, PairSpread, Structures.PairChain, SpreadConfig, ExitInstrument;
    var cfg, id := SpreadConfig(sel), PairSpread(sel).value.instrumentId;
    var s, e1, e2 := Initial(cfg), TickAt("U", 100.0, {}, 0), ChainArrived(Structures.PairChain(5), Knowing({id}, 0));
    var r0 := Opening();
    OpeningRun(cfg);
    OpenedStands(cfg);
    var r1 := r0 + [e1];
    NextEvent(s, r0, e1, cfg, Flat, false, {});
    NotPlumbing(sel);
    FlatTickWaits(Run(s, r0), cfg, {});
    var r2 := r1 + [e2];
    NextEvent(s, r1, e2, cfg, Flat, false, {});
    ChainEnters(Run(s, r1), sel);
    NextEvent(s, r2, FILLED, cfg, PendingEntry, false, {0});
    FillStands(Run(s, r2), cfg, PendingEntry, false, {0});
  }

  lemma NotPlumbing(sel: Structures.Selector)
    ensures !SpreadConfig(sel).plumbing
  {
  }

  /**
   * With any Deribit selector, a spread bought at 1.0 is sold as a take-profit by the first quote of the
   * underlying, at 100.0; no quote of the spread itself occurs.
   */
  lemma UnderlyingQuoteSellsSpread(sel: Structures.Selector)
    requires sel.venue.Deribit?
    ensures PairSpread(sel).Some? && PairSpread(sel).value.instrumentId != "U"
    ensures var id, cfg := PairSpread(sel).value.instrumentId, SpreadConfig(sel);
            var s := Run(Initial(cfg), UnderlyingQuoted(id));
            && FreshRun(Initial(cfg), UnderlyingQuoted(id)) && s.state.Exiting?
            && |s.calls| == 2 && IsEntry(s.calls[0]) && s.calls[0].instrumentId == id
            && s.calls[1] == MarketOrder(Exit, id, SELL, cfg.orderQty)
  {
    hide ReadAll, Run, FreshRun, Step, Stands, PairSpread, Structures.PairChain, SpreadConfig, ExitInstrument, Inv;
    PairIsPicked(sel);
    var cfg, id := SpreadConfig(sel), PairSpread(sel).value.instrumentId;
    var held := Opening() + [TickAt("U", 100.0, {}, 0)] +
      [ChainArrived(Structures.PairChain(5), Knowing({id}, 0))] + [FILLED];
    var s, e := Run(Initial(cfg), held), TickAt("U", 100.0, {id}, 1);
    SpreadIsHeld(sel, held);
    NextEvent(Initial(cfg), held, e, cfg, InPosition, false, {0});
    assert held + [e] == UnderlyingQuoted(id);
    AcceptedRun(cfg, held);
    StandsInPosition(s, sel, {0});
    AnyInstrumentTriggers(s, 0, "U", e.quote, e.inputs);
  }

  lemma StandsInPosition(s: Strategy, sel: Structures.Selector, decided: set<IntentId>)
    requires Stands(s, SpreadConfig(sel), InPosition, false, decided)
    ensures s.state.InPosition? && !s.flattenSignal && !s.exitSubmitted && s.entryPrice == Some(1.0)
    ensures s.cfg == SpreadConfig(sel) && BracketFor(s.cfg, ExitInstrument(s), 1.0).takeProfit == Some(1.5)
  {
  }
}
