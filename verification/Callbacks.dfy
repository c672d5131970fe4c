/** What the callbacks outside evaluation do, in full: fills, exits, verdicts, hedges, and life-cycle records. */
module Callbacks {
  import opened Models
  import opened Messages
  import opened Audit
  import opened StrategyFsm
  import opened Orders
  import opened RunRecords
  import opened Evaluations

  /* ---- Leaving a position ------------------------------------------------------------------------ */

  /**
   * Leaving a position is recorded and sells what is held. Where the instrument is not known nothing is
   * sold; in plumbing mode that is an error that ends in Flat.
   */
  lemma ExitIs(s: Strategy, reason: Reason, i: Inputs)
    requires s.state.InPosition? && s.activeIntent.Some?
    ensures var left := s.(state := Exiting, journal := s.journal + [Move(s, InPosition, Exiting, reason)]);
            BeginExit(s, reason, i) ==
            if ExitInstrument(s) in i.instruments then
              left.(calls := s.calls + [MarketOrder(Exit, ExitInstrument(s), SELL, s.cfg.orderQty)])
            else if s.cfg.plumbing then JournalOrderError(left, s.activeIntent.value)
            else left
  {
    hide ReadAll, Transition, JournalOrderError, Continues, SameIds, SameOutbox, SameVerdicts;
    TransitionIs(s, Exiting, reason);
  }

  /**
   * A position entered at e is left for its price exactly when none was before and the bid is at or over
   * e + e * take_profit, or at or under e - e * stop_loss. Then the flag is set and the position left.
   */
  lemma PriceCheckIs(s: Strategy, bid: real, i: Inputs, e: real)
    requires s.state.InPosition? && s.activeIntentId.Some? && s.entryPrice == Some(e) && e > 0.0
    ensures CheckExitTriggers(s, bid, i) ==
            if !s.exitSubmitted && (bid >= e + e * s.cfg.takeProfitPct || bid <= e - e * s.cfg.stopLossPct) then
              BeginExit(s.(exitSubmitted := true), TakeProfitStopLoss, i)
            else s
  {
    hide ReadAll, BeginExit, ProfitPct, Continues, SameIds, SameOutbox, SameVerdicts;
    var tp, sl := s.cfg.takeProfitPct, s.cfg.stopLossPct;
    ProfitScales(e, bid, tp);
    ProfitScales(e, bid, -sl);
    assert e * (1.0 + tp) == e + e * tp;
    assert e * (1.0 + -sl) == e - e * sl;
  }

  /** At an entry price that is not positive the profit counts as zero. */
  lemma WorthlessEntryIs(s: Strategy, bid: real, i: Inputs, e: real)
    requires s.state.InPosition? && s.activeIntentId.Some? && s.entryPrice == Some(e) && e <= 0.0
    ensures CheckExitTriggers(s, bid, i) ==
            if !s.exitSubmitted && (s.cfg.takeProfitPct <= 0.0 || s.cfg.stopLossPct <= 0.0) then
              BeginExit(s.(exitSubmitted := true), TakeProfitStopLoss, i)
            else s
  {
    hide ReadAll, BeginExit, Continues, SameIds, SameOutbox, SameVerdicts;
  }

  /** Flattening a strategy that holds nothing is recorded as skipped, and does nothing else. */
  lemma SkippedFlattenIs(s: Strategy, reason: Reason, i: Inputs)
    requires !Holding(s)
    ensures FlattenPositions(s, reason, i) ==
            s.(journal := s.journal + [Note(s, LIFECYCLE, None, FlattenSkipped(s.state, reason))])
  {
    hide ReadAll, Record, BeginExit, Continues, SameIds, SameOutbox, SameVerdicts;
    RecordIs(s, LIFECYCLE, None, FlattenSkipped(s.state, reason));
  }

  /** A session message that does not tell a holding strategy to flatten changes the session fields alone. */
  lemma SessionMessageIs(s: Strategy, allows: bool, flatten: bool, i: Inputs)
    ensures var t := s.(sessionAllowsEntry := allows, sessionReceived := true, flattenSignal := flatten);
            && (!(flatten && Holding(s)) ==> OnSessionPhase(s, allows, flatten, i) == t)
            && (flatten && Holding(s) ==>
                  OnSessionPhase(s, allows, flatten, i) == FlattenPositions(t, SessionClosed, i))
  {
    hide ReadAll, FlattenPositions, Continues, SameIds, SameOutbox, SameVerdicts;
  }

  /* ---- Fills ------------------------------------------------------------------------------------------ */

  /** The intent a fill is learned for: the active one, by its id or by itself. */
  function LearnedFor(s: Strategy): Option<IntentId> {
    if s.activeIntentId.Some? then s.activeIntentId
    else if s.activeIntent.Some? then Some(s.activeIntent.value.intentId)
    else None
  }

  function LearningNotes(s: Strategy): seq<Audit.Entry> {
    match LearnedFor(s)
    case Some(id) => [Note(s, LEARNING, Some(id), LearningRecord(id))]
    case None => []
  }

  /** The records of one fill, before what it does to the state. */
  function FillNotes(s: Strategy, price: real, quantity: real): seq<Audit.Entry> {
    [Note(s, FILL, s.activeIntentId, Fill(price, quantity))] + LearningNotes(s) + [Note(s, PNL, s.activeIntentId, Pnl)]
  }

  lemma LearningIs(s: Strategy)
    ensures JournalLearning(s) == s.(journal := s.journal + LearningNotes(s))
  {
    hide ReadAll, Record, Continues, SameIds, SameOutbox, SameVerdicts;
    if LearnedFor(s).Some? {
      RecordIs(s, LEARNING, LearnedFor(s), LearningRecord(LearnedFor(s).value));
    } else {
      assert s.journal + [] == s.journal;
    }
  }

  lemma FillJournalIs(s: Strategy, price: real, quantity: real)
    ensures JournalFill(s, price, quantity) == s.(journal := s.journal + FillNotes(s, price, quantity))
  {
    hide ReadAll, Record, JournalLearning, LearningNotes, Continues, SameIds, SameOutbox, SameVerdicts;
    var f := Record(s, FILL, s.activeIntentId, Fill(price, quantity));
    RecordIs(s, FILL, s.activeIntentId, Fill(price, quantity));
    LearningIs(f);
    SameLearning(s, f);
    var l := JournalLearning(f);
    RecordIs(l, PNL, l.activeIntentId, Pnl);
    Regrouped(s.journal, [Note(s, FILL, s.activeIntentId, Fill(price, quantity))], LearningNotes(s),
              [Note(s, PNL, s.activeIntentId, Pnl)]);
  }

  lemma SameLearning(s: Strategy, f: Strategy)
    requires f == s.(journal := f.journal)
    ensures LearningNotes(f) == LearningNotes(s)
  {
  }

  lemma Regrouped(log: seq<Audit.Entry>, a: seq<Audit.Entry>, b: seq<Audit.Entry>, c: seq<Audit.Entry>)
    ensures log + a + b + c == log + (a + b + c)
  {
  }

  /** A fill is recorded, learned from and valued; then it opens the pending entry or closes what is being left. */
  lemma FillIs(s: Strategy, price: real, quantity: real)
    ensures var notes := FillNotes(s, price, quantity);
            OnOrderFilled(s, price, quantity) ==
            match s.state
            case PendingEntry =>
              s.(state := InPosition, entryPrice := Some(price),
                 journal := s.journal + notes + [Move(s, PendingEntry, InPosition, EntryFill)])
            case Exiting =>
              s.(state := Flat, entryPrice := None, activeIntentId := None, activeIntent := None,
                 journal := s.journal + notes + [Note(s, LIFECYCLE, None, FsmTransition(Exiting, Flat, ExitFill))])
            case _ => s.(journal := s.journal + notes)
  {
    hide ReadAll, JournalFill, Transition, Continues, SameIds, SameOutbox, SameVerdicts, FillNotes;
    FillJournalIs(s, price, quantity);
    var j := JournalFill(s, price, quantity);
    TransitionIs(j.(entryPrice := Some(price)), InPosition, EntryFill);
    TransitionIs(j.(activeIntentId := None, activeIntent := None, entryPrice := None), Flat, ExitFill);
  }

  /* ---- Verdicts ------------------------------------------------------------------------------------------ */

  /** The message is for this strategy, about the intent it has parked. */
  predicate About(s: Strategy, strategyId: string, id: IntentId) {
    && s.cfg.selectorEnabled && strategyId == s.cfg.strategyId && s.state.PendingApproval?
    && s.pendingIntent.Some? && s.pendingIntent.value.intentId == id
  }

  /** An approval of the parked intent submits what the message says; any other changes nothing. */
  lemma ApprovalIs(s: Strategy, m: ApprovedSnapshot, i: Inputs)
    ensures Step(s, IntentApproved(m, i)) ==
            if About(s, m.snapshot.strategyId, m.snapshot.intentId) && FromSnapshot(m.snapshot).Some? then
              var x := FromSnapshot(m.snapshot).value;
              SubmitEntry(Submitting(s.(pendingIntent := None), x), x, i)
            else s
  {
    hide ReadAll, SubmitApprovedIntent, FromSnapshot, Continues, SameIds, SameOutbox, SameVerdicts, SubmitEntry,
      Submitting;
    if FromSnapshot(m.snapshot).Some? {
      SubmissionIs(s.(pendingIntent := None), FromSnapshot(m.snapshot).value, i);
    }
  }

  /** A rejection of the parked intent is recorded and the intent dropped; any other changes nothing. */
  lemma RejectionIs(s: Strategy, m: RejectedSnapshot)
    ensures Step(s, IntentRejected(m)) ==
            if About(s, m.strategyId, m.intentId) then
              s.(state := Flat, pendingIntent := None,
                 journal := s.journal + [Note(s, LIFECYCLE, Some(m.intentId), SelectorRejected(m.intentId)),
                                         Move(s, PendingApproval, Flat, SelectorReject)])
            else s
  {
    hide ReadAll, Record, Transition, Continues, SameIds, SameOutbox, SameVerdicts;
    RecordIs(s, LIFECYCLE, Some(m.intentId), SelectorRejected(m.intentId));
    var j := Record(s, LIFECYCLE, Some(m.intentId), SelectorRejected(m.intentId));
    TransitionIs(j.(pendingIntent := None), Flat, SelectorReject);
  }

  /* ---- Hedges and life cycle --------------------------------------------------------------------------------- */

  /** A hedge that is tried on a known instrument is recorded with the delta, sent or not. */
  lemma HedgeIsRecorded(s: Strategy, i: Inputs)
    ensures OnOptionGreeks(s, i).journal ==
            s.journal +
            if OnOptionGreeks(s, i).hedgeSubmitted && !s.hedgeSubmitted && s.cfg.hedgePerp.Some? &&
               s.cfg.hedgePerp.value in i.instruments
            then [Note(s, LIFECYCLE, s.activeIntentId, DeltaHedge(GreeksOrZero(i.current).delta))]
            else []
  {
    hide ReadAll, Record, Continues, SameIds, SameOutbox, SameVerdicts;
    RecordIs(s.(hedgeSubmitted := true), LIFECYCLE, s.activeIntentId, DeltaHedge(GreeksOrZero(i.current).delta));
  }

  lemma LifecycleIs(s: Strategy)
    ensures OnStart(s) == s.(journal := s.journal + [Note(s, LIFECYCLE, None, StrategyStart)])
    ensures OnStop(s) == s.(journal := s.journal + [Note(s, LIFECYCLE, None, StrategyStop(s.state))])
  {
    hide ReadAll, Record, Continues, SameIds, SameOutbox, SameVerdicts;
    RecordIs(s, LIFECYCLE, None, StrategyStart);
    RecordIs(s, LIFECYCLE, None, StrategyStop(s.state));
  }
}
