/** Journal records, and an auditor that reads a strategy's journal without seeing the strategy. */
module Audit {
  import opened Models
  import opened Gates

  datatype Reason =
    | Signal | NoIntent | GateRejected | GreekRejected | DryRun | SelectorQueue | SelectorReject
    | Submit | EntryFill | ExitFill | OrderRejectedByVenue | OrderDeniedByEngine | InstrumentNotFound
    | TakeProfitStopLoss | SessionClosed

  /** What the node itself records around a run. */
  datatype NodeEvent = NodeStart | NodeStop | FlattenRequest

  datatype Payload =
    | StrategyStart
    | StrategyStop(stopState: StrategyState)
    | FsmTransition(from: StrategyState, to: StrategyState, reason: Reason)
    | GateReject(rules: seq<Rule>, intentId: IntentId)
    | GreekPassed(intentId: IntentId)
    | DryRunIntent(intentId: IntentId, instrumentId: string, edge: real)
    | OrderSubmit(intentId: IntentId, instrumentId: string)
    | SelectorRejected(intentId: IntentId)
    | SelectorApproved(intentId: IntentId, actorKind: ActorKind)
    | HumanApprovalStub(intentId: IntentId)
    | AutomationApproved(intentId: IntentId)
    | OrderRejected
    | OrderDenied
    | OrderError(reason: Reason)
    | Fill(price: real, quantity: real)
    | LearningRecord(intentId: IntentId)
    | Pnl
    | DeltaHedge(delta: real)
    | FlattenSkipped(skippedIn: StrategyState, reason: Reason)
    | RejectedByCap(intentId: IntentId, instrumentId: string, edge: real)
    | NodeLifecycle(nodeEvent: NodeEvent)

  datatype Entry = Entry(stage: GateStage, refId: Option<IntentId>, strategyId: string, payload: Payload)

  /**
   * A record no strategy writes: the selector records its verdicts, and the approval handlers theirs,
   * under the strategy id of the intent; the node records its own events.
   */
  predicate Foreign(p: Payload) {
    p.RejectedByCap? || p.SelectorApproved? || p.HumanApprovalStub? || p.AutomationApproved? || p.NodeLifecycle?
  }

  /** A record written by the strategy with this id. */
  predicate OwnEntry(e: Entry, id: string) {
    e.strategyId == id && !Foreign(e.payload)
  }

  /** The transitions the program contains. */
  predicate LegalEdge(from: StrategyState, to: StrategyState) {
    match from
    case Flat => to.Evaluating?
    case Evaluating => to.Flat? || to.PendingApproval? || to.PendingEntry?
    case PendingApproval => to.PendingEntry? || to.Flat?
    case PendingEntry => to.InPosition? || to.Flat?
    case InPosition => to.Exiting?
    case Exiting => to.Flat?
  }

  /** An order has been submitted for the active intent and not been closed. */
  predicate Engaged(s: StrategyState) {
    s.PendingEntry? || s.InPosition? || s.Exiting?
  }

  /**
   * What the auditor remembers: whether every record so far was in order, the state the
   * transitions lead to, the ids whose evaluation was decided, passed, was submitted or was
   * declined by the selector, the passed ids in the order of their records, how often the counted
   * transitions and records occurred, and
   * the stages at which something was refused.
   */
  datatype Auditor = Auditor(
    ok: bool,
    state: StrategyState,
    decided: set<IntentId>,
    passed: set<IntentId>,
    submitted: set<IntentId>,
    declined: set<IntentId>,
    passes: seq<IntentId>,
    queuedCount: nat,
    declinedCount: nat,
    submitCount: nat,
    entryCount: nat,
    returnCount: nat,
    rejectionRecords: nat,
    rejectionReturns: nat,
    triggeredExits: nat,
    hedges: nat,
    refusedAt: set<GateStage>)

  const FRESH_AUDITOR: Auditor := Auditor(true, Flat, {}, {}, {}, {}, [], 0, 0, 0, 0, 0, 0, 0, 0, 0, {})

  function One(b: bool): nat {
    if b then 1 else 0
  }

  /** The stages the rejection report counts. */
  const REPORT_STAGES: set<GateStage> := {EDGE, LIQUIDITY, REGIME, SESSION, GREEK, OPERATIONAL, RISK_ENGINE}

  predicate IsRejectionReturn(r: Reason) {
    r.GateRejected? || r.GreekRejected? || r.OrderDeniedByEngine?
  }

  function ReadTransition(m: Auditor, from: StrategyState, to: StrategyState, reason: Reason): Auditor {
    m.(ok := m.ok && from == m.state && LegalEdge(from, to),
       state := to,
       queuedCount := m.queuedCount + One(to.PendingApproval?),
       entryCount := m.entryCount + One(to.PendingEntry?),
       returnCount := m.returnCount + One((from.PendingEntry? || from.Exiting?) && to.Flat?),
       rejectionReturns := m.rejectionReturns + One(IsRejectionReturn(reason)),
       triggeredExits := m.triggeredExits + One(reason.TakeProfitStopLoss?))
  }

  function Read(m: Auditor, e: Entry): Auditor {
    match e.payload
    case FsmTransition(from, to, reason) => ReadTransition(m, from, to, reason)
    case GateReject(_, id) =>
      m.(ok := m.ok && m.state.Evaluating? && id !in m.decided,
         decided := m.decided + {id},
         rejectionRecords := m.rejectionRecords + 1,
         refusedAt := m.refusedAt + {e.stage})
    case GreekPassed(id) =>
      m.(ok := m.ok && m.state.Evaluating? && id !in m.decided,
         decided := m.decided + {id},
         passed := m.passed + {id},
         passes := m.passes + [id])
    case OrderSubmit(id, _) =>
      m.(ok := m.ok && m.state.PendingEntry? && id in m.passed && id !in m.submitted && id !in m.declined,
         submitted := m.submitted + {id},
         submitCount := m.submitCount + 1)
    case SelectorRejected(id) =>
      m.(ok := m.ok && m.state.PendingApproval? && id in m.passed && id !in m.submitted && id !in m.declined,
         declined := m.declined + {id},
         declinedCount := m.declinedCount + 1)
    case OrderDenied => m.(rejectionRecords := m.rejectionRecords + 1, refusedAt := m.refusedAt + {e.stage})
    case DeltaHedge(_) => m.(hedges := m.hedges + 1)
    case _ => m
  }

  /** The auditor after reading a whole journal. */
  function ReadAll(log: seq<Entry>): Auditor {
    if |log| == 0 then FRESH_AUDITOR else Read(ReadAll(log[..|log| - 1]), log[|log| - 1])
  }

  lemma ReadOneMore(log: seq<Entry>, e: Entry)
    ensures ReadAll(log + [e]) == Read(ReadAll(log), e)
  {
    assert (log + [e])[..|log|] == log;
  }

  /** The id sets nest, no id has two verdicts, and the counters count ids. */
  ghost predicate IdsInOrder(m: Auditor) {
    && m.submitted <= m.passed <= m.decided && m.declined <= m.passed
    && m.submitted !! m.declined
    && |m.submitted| == m.submitCount && |m.declined| == m.declinedCount
  }

  lemma AddId(ids: set<IntentId>, id: IntentId)
    requires id !in ids
    ensures |ids + {id}| == |ids| + 1
  {
  }

  lemma ReadKeepsIds(m: Auditor, e: Entry)
    requires m.ok ==> IdsInOrder(m)
    ensures Read(m, e).ok ==> IdsInOrder(Read(m, e))
  {
    hide LegalEdge;
    if Read(m, e).ok {
      match e.payload
      case OrderSubmit(id, _) => AddId(m.submitted, id);
      case SelectorRejected(id) => AddId(m.declined, id);
      case _ =>
    }
  }

  /** In every journal the auditor accepts, no id is submitted twice, or both submitted and declined. */
  lemma {:induction false} AcceptedIds(log: seq<Entry>)
    ensures ReadAll(log).ok ==> IdsInOrder(ReadAll(log))
  {
    if |log| > 0 {
      hide Read, IdsInOrder;
      AcceptedIds(log[..|log| - 1]);
      ReadKeepsIds(ReadAll(log[..|log| - 1]), log[|log| - 1]);
    }
  }

  /* ---- Acceptance, read off the records -------------------------------------------------- */

  lemma {:induction false} AcceptedPrefix(log: seq<Entry>, k: nat)
    requires k <= |log| && ReadAll(log).ok
    ensures ReadAll(log[..k]).ok
  {
    if k == |log| {
      assert log[..k] == log;
    } else {
      var init := log[..|log| - 1];
      assert init[..k] == log[..k];
      AcceptedPrefix(init, k);
    }
  }

  ghost predicate HasPassed(log: seq<Entry>, id: IntentId) {
    exists k :: 0 <= k < |log| && log[k].payload == GreekPassed(id)
  }

  ghost predicate HasSubmitted(log: seq<Entry>, id: IntentId) {
    exists k :: 0 <= k < |log| && IsSubmit(log[k].payload, id)
  }

  ghost predicate HasDeclined(log: seq<Entry>, id: IntentId) {
    exists k :: 0 <= k < |log| && log[k].payload == SelectorRejected(id)
  }

  predicate IsSubmit(p: Payload, id: IntentId) {
    p.OrderSubmit? && p.intentId == id
  }

  /** The auditor's id sets are the ids of the records. */
  lemma {:induction false} IdSetsAreRecords(log: seq<Entry>, id: IntentId)
    ensures id in ReadAll(log).passed <==> HasPassed(log, id)
    ensures id in ReadAll(log).submitted <==> HasSubmitted(log, id)
    ensures id in ReadAll(log).declined <==> HasDeclined(log, id)
  {
    if |log| > 0 {
      var init, e := log[..|log| - 1], log[|log| - 1];
      IdSetsAreRecords(init, id);
      PassedSplit(log, id);
      SubmittedSplit(log, id);
      DeclinedSplit(log, id);
      hide ReadTransition, HasPassed, HasSubmitted, HasDeclined;
    }
  }

  lemma PassedSplit(log: seq<Entry>, id: IntentId)
    requires |log| > 0
    ensures HasPassed(log, id) <==> HasPassed(log[..|log| - 1], id) || log[|log| - 1].payload == GreekPassed(id)
  {
    var init := log[..|log| - 1];
    if HasPassed(init, id) {
      var k :| 0 <= k < |init| && init[k].payload == GreekPassed(id);
      assert log[k].payload == GreekPassed(id);
    }
    if HasPassed(log, id) && !(log[|log| - 1].payload == GreekPassed(id)) {
      var k :| 0 <= k < |log| && log[k].payload == GreekPassed(id);
      assert init[k].payload == GreekPassed(id);
    }
  }

  lemma SubmittedSplit(log: seq<Entry>, id: IntentId)
    requires |log| > 0
    ensures HasSubmitted(log, id) <==> HasSubmitted(log[..|log| - 1], id) || IsSubmit(log[|log| - 1].payload, id)
  {
    var init := log[..|log| - 1];
    if HasSubmitted(init, id) {
      var k :| 0 <= k < |init| && IsSubmit(init[k].payload, id);
      assert IsSubmit(log[k].payload, id);
    }
    if HasSubmitted(log, id) && !(IsSubmit(log[|log| - 1].payload, id)) {
      var k :| 0 <= k < |log| && IsSubmit(log[k].payload, id);
      assert IsSubmit(init[k].payload, id);
    }
  }

  lemma DeclinedSplit(log: seq<Entry>, id: IntentId)
    requires |log| > 0
    ensures HasDeclined(log, id) <==>
            HasDeclined(log[..|log| - 1], id) || log[|log| - 1].payload == SelectorRejected(id)
  {
    var init := log[..|log| - 1];
    if HasDeclined(init, id) {
      var k :| 0 <= k < |init| && init[k].payload == SelectorRejected(id);
      assert log[k].payload == SelectorRejected(id);
    }
    if HasDeclined(log, id) && !(log[|log| - 1].payload == SelectorRejected(id)) {
      var k :| 0 <= k < |log| && log[k].payload == SelectorRejected(id);
      assert init[k].payload == SelectorRejected(id);
    }
  }

  /** The ids of the GREEK_PASSED records, in order. */
  function PassesOf(log: seq<Entry>): seq<IntentId> {
    if |log| == 0 then []
    else
      PassesOf(log[..|log| - 1]) +
      match log[|log| - 1].payload
      case GreekPassed(id) => [id]
      case _ => []
  }

  lemma {:induction false} PassesAreRecords(log: seq<Entry>)
    ensures ReadAll(log).passes == PassesOf(log)
  {
    if |log| > 0 {
      PassesAreRecords(log[..|log| - 1]);
      hide ReadTransition;
    }
  }

  /** A record of log at n or later is a GREEK_PASSED. */
  ghost predicate PassedFrom(log: seq<Entry>, n: nat) {
    exists k :: n <= k < |log| && log[k].payload.GreekPassed?
  }

  /** The list of passes grows exactly when such a record is appended. */
  lemma {:induction false} PassesGrow(log: seq<Entry>, n: nat)
    requires n <= |log|
    ensures PassesOf(log[..n]) <= PassesOf(log)
    ensures PassedFrom(log, n) <==> PassesOf(log) != PassesOf(log[..n])
    ensures |PassesOf(log)| == |PassesOf(log[..n])| + 1 ==>
              forall k :: n <= k < |log| && log[k].payload.GreekPassed? ==>
                            log[k].payload.intentId == PassesOf(log)[|PassesOf(log)| - 1]
  {
    if n == |log| {
      assert log[..n] == log;
    } else {
      var init := log[..|log| - 1];
      assert init[..n] == log[..n];
      PassesGrow(init, n);
      if PassedFrom(init, n) {
        var k :| n <= k < |init| && init[k].payload.GreekPassed?;
        assert log[k].payload.GreekPassed?;
      }
      assert forall k :: n <= k < |init| ==> log[k] == init[k];
    }
  }

  /** The fold of the transition records from Flat; None when one does not start where the last ended. */
  function Replay(log: seq<Entry>): Option<StrategyState> {
    if |log| == 0 then Some(Flat) else Follow(Replay(log[..|log| - 1]), TransitionOf(log[|log| - 1].payload))
  }

  /** The transition a record tells of, if it does. */
  function TransitionOf(p: Payload): Option<(StrategyState, StrategyState)> {
    match p
    case FsmTransition(from, to, _) => Some((from, to))
    case _ => None
  }

  /** The state after one more record; None if its transition does not start where the last ended. */
  function Follow(before: Option<StrategyState>, t: Option<(StrategyState, StrategyState)>): Option<StrategyState> {
    match t
    case None => before
    case Some((from, to)) => if before == Some(from) then Some(to) else None
  }

  lemma ReplayOneMore(log: seq<Entry>, e: Entry)
    ensures Replay(log + [e]) == Follow(Replay(log), TransitionOf(e.payload))
  {
    assert (log + [e])[..|log|] == log;
  }

  /** An accepted journal replays to the audited state, and all its transitions are legal. */
  lemma {:induction false} AcceptedReplays(log: seq<Entry>)
    requires ReadAll(log).ok
    ensures Replay(log) == Some(ReadAll(log).state)
    ensures forall k :: 0 <= k < |log| && log[k].payload.FsmTransition? ==>
                          LegalEdge(log[k].payload.from, log[k].payload.to)
  {
    if |log| > 0 {
      AcceptedReplays(log[..|log| - 1]);
      hide LegalEdge;
    }
  }

  lemma NoEarlierSubmit(log: seq<Entry>, k: nat, j: nat)
    requires ReadAll(log).ok && j < k < |log| && log[k].payload.OrderSubmit?
    ensures !IsSubmit(log[j].payload, log[k].payload.intentId)
  {
    var id := log[k].payload.intentId;
    AcceptedAt(log, k);
    IdSetsAreRecords(log[..k], id);
    assert !HasSubmitted(log[..k], id);
    assert log[..k][j] == log[j];
  }

  /**
   * In an accepted journal every ORDER_SUBMIT is the only one for its id, comes after a
   * GREEK_PASSED for that id, and its id is never declined by the selector.
   */
  lemma SubmitsAreGatedOnce(log: seq<Entry>, k: nat)
    requires ReadAll(log).ok && k < |log| && log[k].payload.OrderSubmit?
    ensures var id := log[k].payload.intentId;
            && HasPassed(log[..k], id)
            && !HasDeclined(log, id)
            && (forall j :: 0 <= j < |log| && IsSubmit(log[j].payload, id) ==> j == k)
  {
    var id := log[k].payload.intentId;
    AcceptedAt(log, k);
    IdSetsAreRecords(log[..k], id);
    IdSetsAreRecords(log, id);
    AcceptedIds(log);
    assert HasSubmitted(log, id) by {
      assert IsSubmit(log[k].payload, id);
    }
    forall j | 0 <= j < |log| && IsSubmit(log[j].payload, id) ensures j == k {
      if j < k {
        NoEarlierSubmit(log, k, j);
      } else if j > k {
        NoEarlierSubmit(log, j, k);
      }
    }
  }

  lemma AcceptedAt(log: seq<Entry>, k: nat)
    requires ReadAll(log).ok && k < |log|
    ensures Read(ReadAll(log[..k]), log[k]).ok
  {
    AcceptedPrefix(log, k + 1);
    assert log[..k + 1][..k] == log[..k];
  }

  /* ---- One log shared by several writers --------------------------------------------------- */

  /** What the strategy with this id wrote into a shared log. */
  function OwnPart(log: seq<Entry>, id: string): seq<Entry> {
    if |log| == 0 then []
    else
      OwnPart(log[..|log| - 1], id) + if OwnEntry(log[|log| - 1], id) then [log[|log| - 1]] else []
  }

  /** The lines of a shared log that carry this strategy id; the node's own lines carry none. */
  function LinesOf(log: seq<Entry>, id: string): seq<Entry> {
    if |log| == 0 then []
    else
      var e := log[|log| - 1];
      LinesOf(log[..|log| - 1], id) + if e.strategyId == id && !e.payload.NodeLifecycle? then [e] else []
  }

  lemma OwnPartOneMore(log: seq<Entry>, e: Entry, id: string)
    ensures OwnPart(log + [e], id) == if OwnEntry(e, id) then OwnPart(log, id) + [e] else OwnPart(log, id)
  {
    assert (log + [e])[..|log|] == log;
  }

  lemma {:induction false} OwnPartOfConcat(a: seq<Entry>, b: seq<Entry>, id: string)
    ensures OwnPart(a + b, id) == OwnPart(a, id) + OwnPart(b, id)
  {
    hide OwnEntry;
    if |b| == 0 {
      assert a + b == a;
    } else {
      assert (a + b)[..|a + b| - 1] == a + b[..|b| - 1];
      OwnPartOfConcat(a, b[..|b| - 1], id);
    }
  }

  lemma {:induction false} OwnPartOfOwn(log: seq<Entry>, id: string)
    requires forall k :: 0 <= k < |log| ==> OwnEntry(log[k], id)
    ensures OwnPart(log, id) == log
  {
    hide OwnEntry;
    if |log| > 0 {
      OwnPartOfOwn(log[..|log| - 1], id);
    }
  }

  lemma {:induction false} OwnPartOfOthers(log: seq<Entry>, id: string)
    requires forall k :: 0 <= k < |log| ==> !OwnEntry(log[k], id)
    ensures OwnPart(log, id) == []
  {
    hide OwnEntry;
    if |log| > 0 {
      OwnPartOfOthers(log[..|log| - 1], id);
    }
  }

  /** What a strategy had written at an earlier time is a beginning of what it has written now. */
  lemma OwnPartOfPrefix(log: seq<Entry>, n: nat, id: string)
    requires n <= |log|
    ensures OwnPart(log[..n], id) <= OwnPart(log, id)
  {
    assert log == log[..n] + log[n..];
    OwnPartOfConcat(log[..n], log[n..], id);
  }

  /** A record of somebody else means nothing to the auditor. */
  lemma ForeignIsIgnored(m: Auditor, e: Entry)
    requires Foreign(e.payload)
    ensures Read(m, e) == m
  {
    hide ReadTransition;
  }

  lemma LinesOneMore(log: seq<Entry>, e: Entry, id: string)
    ensures LinesOf(log + [e], id) ==
            if e.strategyId == id && !e.payload.NodeLifecycle? then LinesOf(log, id) + [e] else LinesOf(log, id)
  {
    assert (log + [e])[..|log|] == log;
  }

  lemma OneMoreLine(log: seq<Entry>, e: Entry, id: string)
    requires ReadAll(LinesOf(log, id)) == ReadAll(OwnPart(log, id))
    ensures ReadAll(LinesOf(log + [e], id)) == ReadAll(OwnPart(log + [e], id))
  {
    hide Read, ReadAll, LinesOf, OwnPart;
    LinesOneMore(log, e, id);
    OwnPartOneMore(log, e, id);
    ReadOneMore(LinesOf(log, id), e);
    ReadOneMore(OwnPart(log, id), e);
    if Foreign(e.payload) {
      ForeignIsIgnored(ReadAll(LinesOf(log, id)), e);
    }
  }

  /** The records others wrote under a strategy's id mean nothing to the auditor. */
  lemma {:induction false} ForeignLinesAreIgnored(log: seq<Entry>, id: string)
    ensures ReadAll(LinesOf(log, id)) == ReadAll(OwnPart(log, id))
  {
    hide ReadAll;
    if |log| > 0 {
      var init, e := log[..|log| - 1], log[|log| - 1];
      ForeignLinesAreIgnored(init, id);
      OneMoreLine(init, e, id);
      assert init + [e] == log;
    }
  }
}
