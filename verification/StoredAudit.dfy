/** Journal records as stored entries, and the state replayed from what was stored. */
module StoredAudit {
  import opened Models
  import opened Messages
  import opened Gates
  import opened Audit
  import opened Json
  import opened JournalFile

  /** StrategyState.value. */
  function StateText(s: StrategyState): string {
    match s
    case Flat => "Flat"
    case Evaluating => "Evaluating"
    case PendingApproval => "PendingApproval"
    case PendingEntry => "PendingEntry"
    case InPosition => "InPosition"
    case Exiting => "Exiting"
  }

  lemma StateNames()
    ensures StateText(Flat) == "Flat" && StateText(Evaluating) == "Evaluating" && StateText(Exiting) == "Exiting"
    ensures StateText(PendingApproval) == "PendingApproval" && StateText(PendingEntry) == "PendingEntry"
    ensures StateText(InPosition) == "InPosition"
  {
  }

  function ParseState(text: string): Option<StrategyState> {
    if text == "Flat" then Some(Flat)
    else if text == "Evaluating" then Some(Evaluating)
    else if text == "PendingApproval" then Some(PendingApproval)
    else if text == "PendingEntry" then Some(PendingEntry)
    else if text == "InPosition" then Some(InPosition)
    else if text == "Exiting" then Some(Exiting)
    else None
  }

  function EventText(p: Payload): string {
    match p
    case StrategyStart => "STRATEGY_START"
    case StrategyStop(_) => "STRATEGY_STOP"
    case FsmTransition(_, _, _) => "FSM_TRANSITION"
    case GateReject(_, _) => "GATE_REJECT"
    case GreekPassed(_) => "GREEK_PASSED"
    case DryRunIntent(_, _, _) => "DRY_RUN_INTENT"
    case OrderSubmit(_, _) => "ORDER_SUBMIT"
    case SelectorRejected(_) => "SELECTOR_REJECTED"
    case SelectorApproved(_, _) => "SELECTOR_APPROVED"
    case HumanApprovalStub(_) => "HUMAN_APPROVAL_STUB"
    case AutomationApproved(_) => "AUTOMATION_APPROVED"
    case OrderRejected => "ORDER_REJECTED"
    case OrderDenied => "ORDER_DENIED"
    case OrderError(_) => "ORDER_ERROR"
    case Fill(_, _) => "FILL"
    case LearningRecord(_) => "LEARNING_RECORD"
    case Pnl => "PNL"
    case DeltaHedge(_) => "DELTA_HEDGE"
    case FlattenSkipped(_, _) => "FLATTEN_SKIPPED"
    case RejectedByCap(_, _, _) => "SELECTOR_REJECTED"
    case NodeLifecycle(NodeStart) => "NODE_START"
    case NodeLifecycle(NodeStop) => "NODE_STOP"
    case NodeLifecycle(FlattenRequest) => "FLATTEN_REQUEST"
  }

  /** The events of an evaluation, by name. */
  lemma EvaluationEventNames(id: IntentId, instrumentId: string, edge: real)
    ensures EventText(FsmTransition(Flat, Evaluating, Signal)) == "FSM_TRANSITION"
    ensures EventText(GateReject([], id)) == "GATE_REJECT" && EventText(GreekPassed(id)) == "GREEK_PASSED"
    ensures EventText(DryRunIntent(id, instrumentId, edge)) == "DRY_RUN_INTENT"
  {
  }

  lemma OrderEventNames(id: IntentId, instrumentId: string)
    ensures EventText(OrderSubmit(id, instrumentId)) == "ORDER_SUBMIT" && EventText(OrderRejected) == "ORDER_REJECTED"
    ensures EventText(OrderDenied) == "ORDER_DENIED" && EventText(OrderError(InstrumentNotFound)) == "ORDER_ERROR"
  {
  }

  lemma FillEventNames(id: IntentId, x: real)
    ensures EventText(Fill(x, x)) == "FILL" && EventText(LearningRecord(id)) == "LEARNING_RECORD"
    ensures EventText(Pnl) == "PNL" && EventText(DeltaHedge(x)) == "DELTA_HEDGE"
    ensures EventText(FlattenSkipped(Flat, SessionClosed)) == "FLATTEN_SKIPPED"
  {
  }

  lemma LifecycleEventNames()
    ensures EventText(StrategyStart) == "STRATEGY_START" && EventText(StrategyStop(Flat)) == "STRATEGY_STOP"
    ensures EventText(NodeLifecycle(NodeStart)) == "NODE_START" && EventText(NodeLifecycle(NodeStop)) == "NODE_STOP"
    ensures EventText(NodeLifecycle(FlattenRequest)) == "FLATTEN_REQUEST"
  {
  }

  /** The events of an approval; the selector and the strategy use one name for a rejection. */
  lemma ApprovalEventNames(id: IntentId, instrumentId: string, edge: real, kind: ActorKind)
    ensures EventText(SelectorApproved(id, kind)) == "SELECTOR_APPROVED"
    ensures EventText(SelectorRejected(id)) == "SELECTOR_REJECTED"
    ensures EventText(RejectedByCap(id, instrumentId, edge)) == "SELECTOR_REJECTED"
    ensures EventText(HumanApprovalStub(id)) == "HUMAN_APPROVAL_STUB"
    ensures EventText(Payload.AutomationApproved(id)) == "AUTOMATION_APPROVED"
  {
  }

  /** The name of a breached rule. */
  function RuleText(rule: Rule): string {
    match rule
    case MinEdge => "min_edge_after_cost_bps"
    case MinLiquidity => "min_liquidity_score"
    case BlockedRegime(tag) => "blocked_regime:" + TagText(tag)
    case IntentRegime(tag) => "intent_regime:" + TagText(tag)
    case SessionBlackout => "session_blackout"
    case TradingStateInactive => "trading_state_inactive"
    case UnderlyingQuoteStale => "underlying_quote_stale"
    case ChainSnapshotStale => "chain_snapshot_stale"
    case DailyLossBudget => "daily_loss_budget"
    case FeedUnhealthy => "feed_unhealthy"
    case MaxNetDelta => "max_net_delta"
    case MaxNetGamma => "max_net_gamma"
    case MaxNetVega => "max_net_vega"
  }

  lemma RuleNames(tag: RegimeTag)
    ensures RuleText(MinEdge) == "min_edge_after_cost_bps" && RuleText(MinLiquidity) == "min_liquidity_score"
    ensures RuleText(BlockedRegime(tag)) == "blocked_regime:" + TagText(tag)
    ensures RuleText(IntentRegime(tag)) == "intent_regime:" + TagText(tag)
    ensures RuleText(SessionBlackout) == "session_blackout"
    ensures RuleText(TradingStateInactive) == "trading_state_inactive"
    ensures RuleText(UnderlyingQuoteStale) == "underlying_quote_stale"
    ensures RuleText(ChainSnapshotStale) == "chain_snapshot_stale"
    ensures RuleText(DailyLossBudget) == "daily_loss_budget" && RuleText(FeedUnhealthy) == "feed_unhealthy"
    ensures RuleText(MaxNetDelta) == "max_net_delta" && RuleText(MaxNetGamma) == "max_net_gamma"
    ensures RuleText(MaxNetVega) == "max_net_vega"
  {
    hide TagText;
  }

  function RuleItems(rules: seq<Rule>): (xs: Items)
    ensures WellFormedItems(xs)
  {
    if |rules| == 0 then NoItems else Item(Text(RuleText(rules[0])), RuleItems(rules[1..]))
  }

  /** What a stored entry carries beside the audited record: its own id and time, and other payload members. */
  datatype Details = Details(entryId: string, ts: string, others: Members)

  /** How records become text: the reader's formats, the texts of intent ids, and the details of the n-th entry. */
  datatype Writing = Writing(formats: Formats, idText: IntentId -> string, details: nat -> Details)

  /** The details fit the formats, and the other members leave the keys of the record alone. */
  predicate Fits(f: Formats, d: Details) {
    && f.isUuid(d.entryId) && f.isTime(Text(d.ts)) && WellFormedMembers(d.others)
    && Lookup(d.others, "event").None? && Lookup(d.others, "from").None? && Lookup(d.others, "to").None?
    && Lookup(d.others, "breached_rules").None?
  }

  ghost predicate Sound(w: Writing) {
    && (forall id :: w.formats.isUuid(w.idText(id)))
    && (forall n :: Fits(w.formats, w.details(n)))
  }

  function PayloadOf(p: Payload, others: Members): Members {
    match p
    case FsmTransition(from, to, _) =>
      Member("event", Text("FSM_TRANSITION"),
        Member("from", Text(StateText(from)), Member("to", Text(StateText(to)), others)))
    case GateReject(rules, _) =>
      Member("event", Text("GATE_REJECT"), Member("breached_rules", Array(RuleItems(rules)), others))
    case _ => Member("event", Text(EventText(p)), others)
  }

  /** The n-th entry of a file. */
  function Stored(w: Writing, n: nat, e: Audit.Entry): Record {
    Record(Some(w.details(n).entryId), Some(Text(w.details(n).ts)), e.stage,
           if e.refId.Some? then Some(w.idText(e.refId.value)) else None,
           if e.payload.NodeLifecycle? then None else Some(e.strategyId),
           "INFO", PayloadOf(e.payload, w.details(n).others))
  }

  /** The fields of a stored record: only the node's carry no strategy id, and only an intent's an id. */
  lemma StoredFields(w: Writing, n: nat, e: Audit.Entry)
    ensures var r := Stored(w, n, e);
            && r.stage == e.stage && r.level == "INFO" && r.payload.Member?
            && (r.refId.None? <==> e.refId.None?) && (r.refId.Some? ==> r.refId.value == w.idText(e.refId.value))
            && (r.strategyId.None? <==> e.payload.NodeLifecycle?)
            && (r.strategyId.Some? ==> r.strategyId.value == e.strategyId)
            && r.payload.key == "event" && r.payload.value == Text(EventText(e.payload))
  {
    hide StateText, RuleItems;
  }

  function StoredAll(w: Writing, log: seq<Audit.Entry>): (rs: seq<Record>)
    ensures |rs| == |log| && forall k :: 0 <= k < |log| ==> rs[k] == Stored(w, k, log[k])
  {
    seq(|log|, k requires 0 <= k < |log| => Stored(w, k, log[k]))
  }

  function StateAt(ms: Members, key: string): Option<StrategyState> {
    match Lookup(ms, key)
    case Some(Text(s)) => ParseState(s)
    case _ => None
  }

  /** The transition a payload records, read from its members. */
  function TransitionIn(ms: Members): Option<(StrategyState, StrategyState)> {
    if Lookup(ms, "event") != Some(Text("FSM_TRANSITION")) then None
    else
      var from, to := StateAt(ms, "from"), StateAt(ms, "to");
      if from.None? || to.None? then None else Some((from.value, to.value))
  }

  /** The stored entry carries this strategy id. */
  predicate Carries(r: Record, id: string) {
    r.strategyId == Some(id)
  }

  /**
   * The state to which the entries of one strategy id lead from Flat; None when a transition does not
   * continue the one before it.
   */
  function ReplayFor(rs: seq<Record>, id: string): Option<StrategyState> {
    if |rs| == 0 then Some(Flat)
    else
      var before := ReplayFor(rs[..|rs| - 1], id);
      var last := rs[|rs| - 1];
      if Carries(last, id) then Follow(before, TransitionIn(last.payload)) else before
  }

  lemma ReplayForOneMore(rs: seq<Record>, r: Record, id: string)
    ensures ReplayFor(rs + [r], id) ==
            if Carries(r, id) then Follow(ReplayFor(rs, id), TransitionIn(r.payload)) else ReplayFor(rs, id)
  {
    assert (rs + [r])[..|rs|] == rs;
  }

  lemma StateRoundTrip(s: StrategyState)
    ensures ParseState(StateText(s)) == Some(s)
  {
    assert |"Flat"| == 4 && |"Evaluating"| == |"InPosition"| == 10 && "Evaluating"[0] == 'E' && "InPosition"[0] == 'I';
    assert |"PendingApproval"| == 15 && |"PendingEntry"| == 12 && |"Exiting"| == 7;
  }

  /** Only transitions are recorded under that name. */
  lemma EventNames(p: Payload)
    ensures EventText(p) == "FSM_TRANSITION" <==> p.FsmTransition?
  {
    if !p.FsmTransition? {
      assert EventText(p)[0] != 'F' || EventText(p)[1] != 'S';
    }
  }

  lemma TransitionOfStored(w: Writing, n: nat, e: Audit.Entry)
    requires Fits(w.formats, w.details(n))
    ensures TransitionIn(Stored(w, n, e).payload) == TransitionOf(e.payload)
  {
    EventNames(e.payload);
    match e.payload
    case FsmTransition(from, to, _) =>
      StateRoundTrip(from);
      StateRoundTrip(to);
      hide StateText, ParseState;
      assert "event"[0] == 'e' && "from"[0] == 'f' && "to"[0] == 't';
      var ms := Stored(w, n, e).payload;
      var tos := ms.rest.rest;
      assert Lookup(tos, "to") == Some(Text(StateText(to)));
      assert Lookup(tos, "from").None? && Lookup(tos, "event").None?;
      assert Lookup(ms.rest, "to") == Some(Text(StateText(to))) && Lookup(ms.rest, "event").None?;
      assert Lookup(ms.rest, "from") == Some(Text(StateText(from)));
    case GateReject(rules, _) =>
      hide RuleItems;
      assert "event"[0] == 'e' && "breached_rules"[0] == 'b';
      assert Lookup(Stored(w, n, e).payload, "event") == Some(Text("GATE_REJECT"));
    case _ =>
      hide StateText, ParseState, EventText;
      assert Lookup(Stored(w, n, e).payload, "event") == Some(Text(EventText(e.payload)));
  }

  lemma StoredIsComplete(w: Writing, n: nat, e: Audit.Entry)
    requires Sound(w)
    ensures Complete(w.formats, Stored(w, n, e))
  {
    assert Fits(w.formats, w.details(n));
    hide EventText, StateText, Lookup;
    var ms := Stored(w, n, e).payload;
    match e.payload
    case FsmTransition(from, to, _) =>
      assert WellFormed(ms.value) && WellFormed(ms.rest.value) && WellFormed(ms.rest.rest.value);
      assert WellFormedMembers(ms.rest.rest);
      assert WellFormedMembers(ms.rest);
      assert WellFormedMembers(ms);
    case GateReject(rules, _) =>
      assert WellFormed(ms.rest.value) && WellFormed(ms.value) && WellFormedMembers(ms.rest.rest);
      assert WellFormedMembers(ms.rest);
      assert WellFormedMembers(ms);
    case _ =>
      assert ms == Member("event", Text(EventText(e.payload)), w.details(n).others);
      assert WellFormed(ms.value) && WellFormedMembers(ms);
  }

  lemma StoredOneMore(w: Writing, log: seq<Audit.Entry>, e: Audit.Entry)
    ensures StoredAll(w, log + [e]) == StoredAll(w, log) + [Stored(w, |log|, e)]
  {
    hide Stored;
  }

  /** Of the entries under a strategy's id, those it did not write itself record no transition. */
  lemma StoredCarries(w: Writing, n: nat, e: Audit.Entry, id: string)
    ensures OwnEntry(e, id) ==> Carries(Stored(w, n, e), id)
    ensures Carries(Stored(w, n, e), id) && !OwnEntry(e, id) ==> TransitionOf(e.payload).None?
  {
    hide PayloadOf;
  }

  /** Replaying the stored entries of one strategy is replaying the records it wrote. */
  lemma {:induction false} StoredReplay(w: Writing, log: seq<Audit.Entry>, id: string)
    requires Sound(w)
    ensures ReplayFor(StoredAll(w, log), id) == Replay(OwnPart(log, id))
  {
    if |log| > 0 {
      var init, e := log[..|log| - 1], log[|log| - 1];
      assert log == init + [e];
      StoredReplay(w, init, id);
      assert Fits(w.formats, w.details(|init|));
      TransitionOfStored(w, |init|, e);
      hide *;
      StoredOneMore(w, init, e);
      StoredCarries(w, |init|, e, id);
      ReplayForOneMore(StoredAll(w, init), Stored(w, |init|, e), id);
      OwnPartOneMore(init, e, id);
      ReplayOneMore(OwnPart(init, id), e);
      FollowNothing(Replay(OwnPart(init, id)), TransitionOf(e.payload));
    }
  }

  lemma FollowNothing(before: Option<StrategyState>, t: Option<(StrategyState, StrategyState)>)
    ensures t.None? ==> Follow(before, t) == before
  {
  }

  /* ---- Replay across a restart --------------------------------------------------------------- */

  /** The entry records a transition of this strategy. */
  predicate Moves(r: Record, id: string) {
    Carries(r, id) && TransitionIn(r.payload).Some?
  }

  ghost predicate NeverMoves(rs: seq<Record>, id: string) {
    forall k :: 0 <= k < |rs| ==> !Moves(rs[k], id)
  }

  lemma {:induction false} ReplayOfNothing(rs: seq<Record>, id: string)
    requires NeverMoves(rs, id)
    ensures ReplayFor(rs, id) == Some(Flat)
  {
    hide TransitionIn;
    if |rs| > 0 {
      ReplayOfNothing(rs[..|rs| - 1], id);
      assert !Moves(rs[|rs| - 1], id);
    }
  }

  lemma NeverMovesOneMore(rs: seq<Record>, r: Record, id: string)
    ensures NeverMoves(rs + [r], id) <==> NeverMoves(rs, id) && !Moves(r, id)
  {
    hide Moves;
    var all := rs + [r];
    if NeverMoves(all, id) {
      assert all[|rs|] == r;
      forall k | 0 <= k < |rs| ensures !Moves(rs[k], id) {
        assert all[k] == rs[k];
      }
    }
  }

  /**
   * Entries of two runs in one file. A run starts every strategy in Flat whatever the file says of it, so
   * replaying both goes through exactly if the earlier entries lead to Flat or the later ones hold no
   * transition of the strategy.
   */
  lemma {:induction false} ReplayAcross(prior: seq<Record>, later: seq<Record>, id: string)
    requires ReplayFor(later, id).Some?
    ensures ReplayFor(prior + later, id) ==
            if NeverMoves(later, id) then ReplayFor(prior, id)
            else if ReplayFor(prior, id) == Some(Flat) then ReplayFor(later, id)
            else None
  {
    hide TransitionIn, Carries, NeverMoves;
    if |later| == 0 {
      assert prior + later == prior;
      NothingMoves(id);
    } else {
      var init, last := later[..|later| - 1], later[|later| - 1];
      assert later == init + [last] && prior + later == prior + init + [last];
      ReplayForOneMore(init, last, id);
      ReplayForOneMore(prior + init, last, id);
      ReplayAcross(prior, init, id);
      NeverMovesOneMore(init, last, id);
      if NeverMoves(init, id) {
        ReplayOfNothing(init, id);
      }
    }
  }

  lemma NothingMoves(id: string)
    ensures NeverMoves([], id)
  {
  }
}
