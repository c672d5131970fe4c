/** Safety of one strategy over every run, stated on its journal and on what it was sent. */
module StrategyTheorems {
  import opened Models
  import opened Messages
  import opened Gates
  import opened Audit
  import opened StrategyFsm
  import opened StrategyRuns

  /* ---- Journal, state and submissions ------------------------------------------------------- */

  lemma AcceptedRun(cfg: Config, events: seq<Event>)
    requires FreshRun(Initial(cfg), events)
    ensures Inv(Run(Initial(cfg), events)) && Run(Initial(cfg), events).cfg == cfg
  {
    InitialInv(cfg);
    RunKeeps(Initial(cfg), events);
  }

  /**
   * Replaying the FSM_TRANSITION records from Flat gives the live state after every callback.
   * All transitions are among the ten legal ones, Evaluating never outlives a callback, and
   * the strategy is engaged exactly when it has entered once more often than it has returned.
   */
  lemma JournalReplaysToState(cfg: Config, events: seq<Event>)
    requires FreshRun(Initial(cfg), events)
    ensures var s := Run(Initial(cfg), events);
            && Replay(s.journal) == Some(s.state) && !s.state.Evaluating?
            && (forall k :: 0 <= k < |s.journal| && s.journal[k].payload.FsmTransition? ==>
                              LegalEdge(s.journal[k].payload.from, s.journal[k].payload.to))
            && ReadAll(s.journal).entryCount - ReadAll(s.journal).returnCount == One(Engaged(s.state))
  {
    AcceptedRun(cfg, events);
    AcceptedReplays(Run(Initial(cfg), events).journal);
  }

  /**
   * Whatever verdicts arrive, each id is submitted at most once, always after this strategy
   * journalled GREEK_PASSED for it, and never after the selector declined it. An engaged
   * strategy holds the intent it submitted.
   */
  lemma SubmissionsAreGatedAndUnique(cfg: Config, events: seq<Event>, k: nat)
    requires FreshRun(Initial(cfg), events)
    ensures var s := Run(Initial(cfg), events);
            && (k < |s.journal| && s.journal[k].payload.OrderSubmit? ==>
                  var id := s.journal[k].payload.intentId;
                  && HasPassed(s.journal[..k], id) && !HasDeclined(s.journal, id)
                  && (forall j :: 0 <= j < |s.journal| && IsSubmit(s.journal[j].payload, id) ==> j == k))
            && (Engaged(s.state) ==>
                  && s.activeIntent.Some? && s.activeIntentId == Some(s.activeIntent.value.intentId)
                  && HasSubmitted(s.journal, s.activeIntentId.value))
  {
    AcceptedRun(cfg, events);
    var s := Run(Initial(cfg), events);
    hide Run;
    if k < |s.journal| && s.journal[k].payload.OrderSubmit? {
      SubmitsAreGatedOnce(s.journal, k);
    }
    if Engaged(s.state) {
      IdSetsAreRecords(s.journal, s.activeIntentId.value);
    }
  }

  /** Queued = submitted + declined + parked, and every journalled entry is one submission. */
  lemma VerdictsAddUp(cfg: Config, events: seq<Event>)
    requires FreshRun(Initial(cfg), events)
    ensures var s := Run(Initial(cfg), events);
            var m := ReadAll(s.journal);
            && |s.published| == m.queuedCount && m.entryCount == m.submitCount
            && (cfg.selectorEnabled ==>
                  m.queuedCount == m.submitCount + m.declinedCount + One(s.state.PendingApproval?))
            && (!cfg.selectorEnabled ==> m.queuedCount == 0)
  {
    AcceptedRun(cfg, events);
  }

  /**
   * _exit_submitted and _hedge_submitted are never cleared: over a whole run at most one
   * position is closed by take-profit or stop-loss, and at most one hedge is journalled.
   */
  lemma OneTriggeredExitPerRun(cfg: Config, events: seq<Event>)
    requires FreshRun(Initial(cfg), events)
    ensures var m := ReadAll(Run(Initial(cfg), events).journal);
            m.triggeredExits <= 1 && m.hedges <= 1
  {
    AcceptedRun(cfg, events);
  }

  /**
   * A strategy whose contexts come from the IB selector, or from plumbing, is never refused at
   * the edge stage; one that selects structures is never refused at the liquidity stage.
   */
  lemma SelectedSpreadsPassTheirStages(cfg: Config, events: seq<Event>)
    requires FreshRun(Initial(cfg), events)
    ensures var m := ReadAll(Run(Initial(cfg), events).journal);
            && (cfg.plumbing || (cfg.structureSelector.Some? && cfg.structureSelector.value.venue.Ib?) ==>
                  EDGE !in m.refusedAt)
            && (!cfg.plumbing ==> LIQUIDITY !in m.refusedAt)
            && m.refusedAt <= REPORT_STAGES
  {
    AcceptedRun(cfg, events);
  }

  /* ---- Dry run ------------------------------------------------------------------------------ */

  /** At rest: flat, and nothing has reached the bus or the engine. */
  ghost predicate AtRest(s: Strategy) {
    s.state.Flat? && s.calls == [] && s.published == []
  }

  lemma TransitionSendsNothing(s: Strategy, to: StrategyState, reason: Reason)
    ensures var t := Transition(s, to, reason);
            t.state == to && t.cfg == s.cfg && t.calls == s.calls && t.published == s.published
  {
  }

  lemma RecordSendsNothing(s: Strategy, stage: GateStage, refId: Option<IntentId>, p: Payload)
    requires !Foreign(p)
    ensures var t := Record(s, stage, refId, p);
            t.state == s.state && t.cfg == s.cfg && t.calls == s.calls && t.published == s.published
  {
  }

  lemma DryPipelineRests(s: Strategy, intent: TradeIntent, c: Context, i: Inputs)
    requires s.cfg.dryRun && s.calls == [] && s.published == []
    ensures AtRest(RunGatePipeline(s, intent, c, i))
  {
    hide PreGreek, RiskBreaches, ReadAll, Record, Transition, Quiet, Continues;
    var pre := PreGreek(intent, GateContextOf(s, c, i.now));
    var breaches := RiskBreaches(s.cfg.risk, GreeksOrZero(i.shocked));
    var id := Some(intent.intentId);
    if pre.Failed? {
      RecordSendsNothing(s, pre.stage, id, GateReject(pre.rules, intent.intentId));
      TransitionSendsNothing(Record(s, pre.stage, id, GateReject(pre.rules, intent.intentId)), Flat, GateRejected);
    } else if |breaches| > 0 {
      RecordSendsNothing(s, GREEK, id, GateReject(breaches, intent.intentId));
      TransitionSendsNothing(Record(s, GREEK, id, GateReject(breaches, intent.intentId)), Flat, GreekRejected);
    } else {
      var g := Record(s, GREEK, id, GreekPassed(intent.intentId));
      RecordSendsNothing(s, GREEK, id, GreekPassed(intent.intentId));
      var d := DryRunIntent(intent.intentId, intent.instrumentId, intent.edge);
      RecordSendsNothing(g, LIFECYCLE, id, d);
      TransitionSendsNothing(Record(g, LIFECYCLE, id, d), Flat, DryRun);
    }
  }

  lemma DryEvaluationRests(s: Strategy, c: Context, i: Inputs)
    requires AtRest(s) && s.cfg.dryRun
    ensures AtRest(BeginEvaluation(s, c, i))
  {
    hide RunGatePipeline, BuildIntent, ReadAll, Transition, Quiet, Continues;
    TransitionSendsNothing(s, Evaluating, Signal);
    var e := Transition(s, Evaluating, Signal);
    TransitionSendsNothing(e, Flat, NoIntent);
    DryPipelineRests(e, BuildIntent(e, c, i.freshId), c, i);
  }

  lemma DryFillRests(s: Strategy, price: real, quantity: real)
    requires AtRest(s)
    ensures AtRest(OnOrderFilled(s, price, quantity))
  {
    hide Record, ReadAll, Quiet, Continues;
    var f := Record(s, FILL, s.activeIntentId, Fill(price, quantity));
    RecordSendsNothing(s, FILL, s.activeIntentId, Fill(price, quantity));
    if f.activeIntentId.Some? {
      RecordSendsNothing(f, LEARNING, f.activeIntentId, LearningRecord(f.activeIntentId.value));
    } else if f.activeIntent.Some? {
      var id := f.activeIntent.value.intentId;
      RecordSendsNothing(f, LEARNING, Some(id), LearningRecord(id));
    }
    var l := JournalLearning(f);
    RecordSendsNothing(l, PNL, l.activeIntentId, Pnl);
  }

  lemma DryChainRests(s: Strategy, chain: Structures.Chain, i: Inputs)
    requires AtRest(s) && s.cfg.dryRun
    ensures AtRest(OnOptionChain(s, chain, i))
  {
    hide BeginEvaluation, ReadAll, ContextFromChain, Quiet, Continues;
    var t := s.(lastChainTs := Some(chain.ts));
    if ContextFromChain(t, chain).Some? {
      DryEvaluationRests(t, ContextFromChain(t, chain).value, i);
    }
  }

  lemma DryTickRests(s: Strategy, ts: int, id: string, quote: Costs.Quote, i: Inputs)
    requires AtRest(s) && s.cfg.dryRun
    ensures AtRest(OnQuoteTick(s, ts, id, quote, i))
  {
    hide BeginEvaluation, ReadAll, ContextFromTick, Quiet, Continues, FlattenPositions, CheckExitTriggers;
    var t := s.(lastQuoteTs := Some(ts));
    if ContextFromTick(t, id, quote).Some? {
      DryEvaluationRests(t, ContextFromTick(t, id, quote).value, i);
    }
  }

  lemma DryStepRests(s: Strategy, e: Event)
    requires AtRest(s) && s.cfg.dryRun
    ensures AtRest(Step(s, e))
  {
    hide OnOptionChain, OnQuoteTick, OnOrderFilled, FlattenPositions, SubmitDeltaHedge, SubmitApprovedIntent,
      Record, Transition, ReadAll, Quiet, Continues;
    match e
    case ChainArrived(chain, i) => DryChainRests(s, chain, i);
    case QuoteTick(ts, id, quote, i) => DryTickRests(s, ts, id, quote, i);
    case OrderFilledEvent(price, quantity) => DryFillRests(s, price, quantity);
    case Started => RecordSendsNothing(s, LIFECYCLE, None, StrategyStart);
    case Stopped => RecordSendsNothing(s, LIFECYCLE, None, StrategyStop(s.state));
    case _ =>
  }

  /**
   * With dry_run set the strategy is flat after every callback and no call has ever reached
   * the engine, for any ticks, chains, messages and order events, fresh ids or not.
   */
  lemma {:induction false} DryRunSendsNothing(cfg: Config, events: seq<Event>)
    requires cfg.dryRun
    ensures var s := Run(Initial(cfg), events);
            s.cfg == cfg && s.state.Flat? && s.calls == [] && s.published == []
  {
    if |events| > 0 {
      hide Step;
      DryRunSendsNothing(cfg, events[..|events| - 1]);
      DryStepRests(Run(Initial(cfg), events[..|events| - 1]), events[|events| - 1]);
    }
  }

  /* ---- What the strategy remembers of its inputs ---------------------------------------------- */

  /** The last session message of the history, as (allows entry, flatten signal). */
  function LastSession(events: seq<Event>): Option<(bool, bool)> {
    if |events| == 0 then None
    else
      match events[|events| - 1]
      case SessionPhase(allows, flatten, _) => Some((allows, flatten))
      case _ => LastSession(events[..|events| - 1])
  }

  /** The tag of the last well-formed regime message. */
  function LastRegime(events: seq<Event>): Option<RegimeTag> {
    if |events| == 0 then None
    else
      match events[|events| - 1]
      case RegimeMessage(text) =>
        if ParseTag(text).Some? then ParseTag(text) else LastRegime(events[..|events| - 1])
      case _ => LastRegime(events[..|events| - 1])
  }

  function LastTick(events: seq<Event>): Option<int> {
    if |events| == 0 then None
    else if events[|events| - 1].QuoteTick? then Some(events[|events| - 1].ts)
    else LastTick(events[..|events| - 1])
  }

  function LastChain(events: seq<Event>): Option<int> {
    if |events| == 0 then None
    else if events[|events| - 1].ChainArrived? then Some(events[|events| - 1].chain.ts)
    else LastChain(events[..|events| - 1])
  }

  /** The feed fields are exactly the last messages of the history. */
  ghost predicate Remembers(s: Strategy, events: seq<Event>) {
    && s.sessionReceived == LastSession(events).Some?
    && (LastSession(events).Some? ==> (s.sessionAllowsEntry, s.flattenSignal) == LastSession(events).value)
    && s.regimeReceived == LastRegime(events).Some?
    && (LastRegime(events).Some? ==> s.regimeTag == LastRegime(events).value)
    && s.lastQuoteTs == LastTick(events) && s.lastChainTs == LastChain(events)
  }

  /** One callback changes only the feed fields its own message is about. */
  lemma StepFeeds(s: Strategy, e: Event)
    ensures var t := Step(s, e);
            match e
            case ChainArrived(chain, _) => Continues(s.(lastChainTs := Some(chain.ts)), t)
            case QuoteTick(ts, _, _, _) => Continues(s.(lastQuoteTs := Some(ts)), t)
            case SessionPhase(allows, flatten, _) =>
              Continues(s.(sessionAllowsEntry := allows, sessionReceived := true, flattenSignal := flatten), t)
            case RegimeMessage(tag) =>
              if ParseTag(tag).Some? then Continues(s.(regimeTag := ParseTag(tag).value, regimeReceived := true), t)
              else Continues(s, t)
            case _ => Continues(s, t)
  {
    hide OnOptionChain, OnQuoteTick, OnOptionGreeks, OnSessionPhase, OnOrderFilled, OnOrderRejected,
      OnOrderDenied, OnIntentApproved, OnIntentRejected, ReadAll, ParseTag, Continues;
    ContinuesIsReflexive(s);
    match e
    case RegimeMessage(tag) =>
      ContinuesIsReflexive(Step(s, e));
    case _ =>
  }

  lemma ContinuesIsReflexive(s: Strategy)
    ensures Continues(s, s)
  {
  }

  lemma StepRemembers(s: Strategy, events: seq<Event>, e: Event)
    requires Remembers(s, events)
    ensures Remembers(Step(s, e), events + [e])
  {
    hide Step, ParseTag;
    StepFeeds(s, e);
    assert (events + [e])[..|events|] == events;
  }

  lemma {:induction false} RunRemembers(cfg: Config, events: seq<Event>)
    ensures Remembers(Run(Initial(cfg), events), events) && Run(Initial(cfg), events).cfg == cfg
  {
    if |events| > 0 {
      hide Step, Remembers;
      var before, e := events[..|events| - 1], events[|events| - 1];
      RunRemembers(cfg, before);
      StepRemembers(Run(Initial(cfg), before), before, e);
      assert before + [e] == events;
    } else {
      StartRemembers(cfg);
    }
  }

  lemma StartRemembers(cfg: Config)
    ensures Remembers(Initial(cfg), [])
  {
  }

  /* ---- Gate soundness and completeness ---------------------------------------------------------- */

  /** There was a reading, and the clock has moved on from it by at most this many nanoseconds. */
  predicate Recent(now: int, reading: Option<int>, nanoseconds: real) {
    reading.Some? && (now - reading.value) as real <= nanoseconds
  }

  /** Ages are counted in nanoseconds, their limits in seconds and milliseconds. */
  lemma FreshMeansRecent(s: Strategy, c: Context, now: int)
    ensures QuoteFresh(s, now) <==> Recent(now, s.lastQuoteTs, s.cfg.maxQuoteAgeSecs * 1000000000.0)
    ensures ChainFresh(s, c, now) <==>
            (s.cfg.requireChainSnapshot && c.rationale.source != PLUMBING ==>
               Recent(now, s.lastChainTs,
                      s.cfg.maxChainAgeSecs * 1000000000.0 + s.cfg.chainIntervalMs as real * 1000000.0))
  {
  }

  /** Every condition under which a context admits an intent. */
  predicate GatesOpen(s: Strategy, c: Context, i: Inputs) {
    && c.edge >= s.cfg.minEdge && c.liquidity >= s.cfg.minLiquidity
    && s.regimeTag !in s.cfg.blockedRegimes
    && s.sessionAllowsEntry
    && Recent(i.now, s.lastQuoteTs, s.cfg.maxQuoteAgeSecs * 1000000000.0)
    && (s.cfg.requireChainSnapshot && c.rationale.source != PLUMBING ==>
          Recent(i.now, s.lastChainTs,
                 s.cfg.maxChainAgeSecs * 1000000000.0 + s.cfg.chainIntervalMs as real * 1000000.0))
    && WithinLimits(s.cfg.risk, GreeksOrZero(i.shocked))
  }

  lemma PipelinePasses(s: Strategy, intent: TradeIntent, c: Context, i: Inputs)
    requires intent.edge == c.edge && intent.liquidity == c.liquidity && intent.regimeTag == s.regimeTag
    ensures ReadAll(RunGatePipeline(s, intent, c, i).journal).passes ==
            ReadAll(s.journal).passes + if GatesOpen(s, c, i) then [intent.intentId] else []
  {
    hide PreGreek, QuoteFresh, ChainFresh, Recent, ReadAll, Record, Transition, AfterGates, RefuseIntent;
    PreGreekPassesIff(intent, GateContextOf(s, c, i.now));
    FreshMeansRecent(s, c, i.now);
    var g := Record(s, GREEK, Some(intent.intentId), GreekPassed(intent.intentId));
    assert SameIds(g, AfterGates(g, intent, i));
  }

  lemma EvaluationPasses(s: Strategy, c: Context, i: Inputs)
    ensures ReadAll(BeginEvaluation(s, c, i).journal).passes ==
            ReadAll(s.journal).passes +
            if ActorsReady(s) && i.builds && GatesOpen(s, c, i) then [i.freshId] else []
  {
    hide RunGatePipeline, ReadAll, GatesOpen;
    if ActorsReady(s) && i.builds {
      var e := Transition(s, Evaluating, Signal);
      PipelinePasses(e, BuildIntent(e, c, i.freshId), c, i);
      SameGates(s, e, c, i);
    }
  }

  lemma SameGates(s: Strategy, t: Strategy, c: Context, i: Inputs)
    requires Continues(s, t)
    ensures GatesOpen(s, c, i) == GatesOpen(t, c, i)
  {
  }

  /** The strategy as it evaluates e, and the context e offers it, if any. */
  function Offered(s: Strategy, e: Event): (o: Option<(Strategy, Context)>) {
    match e
    case ChainArrived(chain, i) =>
      var t := s.(lastChainTs := Some(chain.ts));
      if t.state.Flat? && ContextFromChain(t, chain).Some? then Some((t, ContextFromChain(t, chain).value)) else None
    case QuoteTick(ts, id, quote, i) =>
      var t := s.(lastQuoteTs := Some(ts));
      if t.state.Flat? && ContextFromTick(t, id, quote).Some? then Some((t, ContextFromTick(t, id, quote).value))
      else None
    case _ => None
  }

  /** The callback journals GREEK_PASSED. */
  predicate Admits(s: Strategy, e: Event) {
    && Offered(s, e).Some? && e.inputs.builds
    && ActorsReady(s) && GatesOpen(Offered(s, e).value.0, Offered(s, e).value.1, e.inputs)
  }

  /** The callback appends a GREEK_PASSED record. */
  ghost predicate JournalsPass(s: Strategy, e: Event) {
    PassedFrom(Step(s, e).journal, |s.journal|)
  }

  lemma StepExtends(s: Strategy, e: Event)
    ensures Extends(s, Step(s, e))
  {
    hide OnOptionChain, OnQuoteTick, OnOptionGreeks, OnSessionPhase, OnOrderFilled, OnOrderRejected,
      OnOrderDenied, OnIntentApproved, OnIntentRejected, OnStart, OnStop, ReadAll, SameIds, SameOutbox, SameVerdicts;
  }

  /**
   * One callback appends a GREEK_PASSED record exactly when all gates are open to what it offers, and
   * then one only, for its own fresh id.
   */
  lemma PassedIffGatesOpen(s: Strategy, e: Event)
    ensures s.journal <= Step(s, e).journal
    ensures PassesOf(Step(s, e).journal) == PassesOf(s.journal) + if Admits(s, e) then [e.inputs.freshId] else []
    ensures JournalsPass(s, e) <==> Admits(s, e)
    ensures forall k :: |s.journal| <= k < |Step(s, e).journal| && Step(s, e).journal[k].payload.GreekPassed? ==>
                          Admits(s, e) && Step(s, e).journal[k].payload.intentId == e.inputs.freshId
  {
    hide Step, ReadAll, Admits;
    var t := Step(s, e);
    StepExtends(s, e);
    assert t.journal[..|s.journal|] == s.journal;
    PassesAfterStep(s, e);
    PassesAreRecords(s.journal);
    PassesAreRecords(t.journal);
    PassesGrow(t.journal, |s.journal|);
  }

  lemma PassesAfterChain(s: Strategy, chain: Structures.Chain, i: Inputs)
    ensures ReadAll(OnOptionChain(s, chain, i).journal).passes ==
            ReadAll(s.journal).passes + if Admits(s, ChainArrived(chain, i)) then [i.freshId] else []
  {
    hide BeginEvaluation, ReadAll, ContextFromChain, GatesOpen;
    var t := s.(lastChainTs := Some(chain.ts));
    if t.state.Flat? && ContextFromChain(t, chain).Some? {
      EvaluationPasses(t, ContextFromChain(t, chain).value, i);
    }
  }

  lemma PassesAfterTick(s: Strategy, ts: int, id: string, quote: Costs.Quote, i: Inputs)
    ensures ReadAll(OnQuoteTick(s, ts, id, quote, i).journal).passes ==
            ReadAll(s.journal).passes + if Admits(s, QuoteTick(ts, id, quote, i)) then [i.freshId] else []
  {
    hide BeginEvaluation, ReadAll, ContextFromTick, GatesOpen, FlattenPositions, CheckExitTriggers, Continues;
    var t := s.(lastQuoteTs := Some(ts));
    if t.state.Flat? && ContextFromTick(t, id, quote).Some? {
      EvaluationPasses(t, ContextFromTick(t, id, quote).value, i);
    }
  }

  lemma PassesAfterStep(s: Strategy, e: Event)
    ensures ReadAll(Step(s, e).journal).passes ==
            ReadAll(s.journal).passes + if Admits(s, e) then [e.inputs.freshId] else []
  {
    hide OnOptionChain, OnQuoteTick, OnOptionGreeks, OnSessionPhase, OnOrderFilled, OnOrderRejected, OnOrderDenied,
      OnIntentApproved, OnIntentRejected, OnStart, OnStop, ReadAll, GatesOpen, Continues, ContextFromChain,
      ContextFromTick;
    match e
    case ChainArrived(chain, i) => PassesAfterChain(s, chain, i);
    case QuoteTick(ts, id, quote, i) => PassesAfterTick(s, ts, id, quote, i);
    case _ =>
  }

  /**
   * Gate soundness over whole runs: when a callback journals GREEK_PASSED, both actors have
   * reported, the last session message allowed entry, the last regime tag is not blocked, the
   * last tick is recent, the last chain is recent where one is required, and the shocked
   * greeks are within the policy.
   */
  lemma GateSoundness(cfg: Config, history: seq<Event>, e: Event)
    requires JournalsPass(Run(Initial(cfg), history), e)
    ensures e.ChainArrived? || e.QuoteTick?
    ensures LastSession(history).Some? && LastSession(history).value.0
    ensures LastRegime(history).Some? && LastRegime(history).value !in cfg.blockedRegimes
    ensures LastTick(history + [e]).Some?
         && (e.inputs.now - LastTick(history + [e]).value) as real <= cfg.maxQuoteAgeSecs * 1000000000.0
    ensures cfg.requireChainSnapshot && !(cfg.plumbing && e.QuoteTick?) ==>
              && LastChain(history + [e]).Some?
              && (e.inputs.now - LastChain(history + [e]).value) as real <=
                 cfg.maxChainAgeSecs * 1000000000.0 + cfg.chainIntervalMs as real * 1000000.0
    ensures WithinLimits(cfg.risk, GreeksOrZero(e.inputs.shocked))
    ensures var s := Run(Initial(cfg), history);
            Offered(s, e).Some? && Offered(s, e).value.1.edge >= cfg.minEdge
            && Offered(s, e).value.1.liquidity >= cfg.minLiquidity
  {
    var s := Run(Initial(cfg), history);
    PassedIffGatesOpen(s, e);
    assert Admits(s, e);
    RunRemembers(cfg, history);
    OfferedSource(s, e);
    hide Run, Step, ReadAll, ContextFromChain, ContextFromTick, WithinLimits;
  }

  /** Only the tick contexts of plumbing mode are exempt from the chain age. */
  lemma OfferedSource(s: Strategy, e: Event)
    requires Offered(s, e).Some?
    ensures Offered(s, e).value.1.rationale.source == PLUMBING ==> s.cfg.plumbing && e.QuoteTick?
    ensures e.QuoteTick? ==> s.cfg.plumbing
  {
    assert "option_chain_slice"[0] == 'o' && "ib_option_chain"[0] == 'i' && "deribit_option_chain"[0] == 'd';
    assert PLUMBING[0] == 'b';
  }
}
