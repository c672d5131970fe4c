/** The selector actor as a value: a buffer of intents, one alert, and its verdicts. */
module Selector {
  import opened Models
  import opened Messages
  import opened Diversification
  import opened Audit

  datatype SelectorConfig = SelectorConfig(
    policy: Policy,
    humanEdgeThreshold: real,
    humanNotionalThreshold: real,
    batchInterval: nat)                 // in nanoseconds

  datatype SelectorState = SelectorState(
    cfg: SelectorConfig,
    buffer: seq<TradeIntent>,
    alert: Option<int>,                 // due time of the finalize alert
    journal: seq<Entry>)

  datatype Verdict = Approve(approved: ApprovedSnapshot) | Reject(rejected: RejectedSnapshot)

  function VerdictId(v: Verdict): IntentId {
    match v
    case Approve(m) => m.snapshot.intentId
    case Reject(m) => m.intentId
  }

  /** classify_intent: a zero notional counts as absent. */
  function Classify(intent: TradeIntent, cfg: SelectorConfig): ActorKind {
    var r := intent.rationale;
    var notional := if r.notional.Some? && r.notional.value != 0.0 then r.notional else r.netDebit;
    if intent.edge >= cfg.humanEdgeThreshold then HUMAN
    else if notional.Some? && notional.value >= cfg.humanNotionalThreshold then HUMAN
    else AUTOMATION
  }

  /** A human decides on a large edge or a large notional; the net debit stands in for an absent or zero notional. */
  lemma HumanDecidesIff(intent: TradeIntent, cfg: SelectorConfig)
    ensures Classify(intent, cfg) == HUMAN <==>
            || intent.edge >= cfg.humanEdgeThreshold
            || (exists x :: intent.rationale.notional == Some(x) && x != 0.0 && x >= cfg.humanNotionalThreshold)
            || (intent.rationale.notional in {None, Some(0.0)} &&
                exists x :: intent.rationale.netDebit == Some(x) && x >= cfg.humanNotionalThreshold)
  {
  }

  /** collect: buffer the intent and re-arm the one alert, replacing an earlier due time. */
  function Collect(sel: SelectorState, intent: TradeIntent, now: int): SelectorState {
    sel.(buffer := sel.buffer + [intent], alert := Some(now + sel.cfg.batchInterval))
  }

  function RejectionOf(x: TradeIntent): Verdict {
    Reject(RejectedSnapshot(x.intentId, x.strategyId))
  }

  function ApprovalOf(x: TradeIntent, cfg: SelectorConfig): Verdict {
    Approve(ApprovedSnapshot(ToSnapshot(x), Classify(x, cfg)))
  }

  function Rejections(xs: seq<TradeIntent>): (vs: seq<Verdict>)
    ensures |vs| == |xs| && forall k :: 0 <= k < |xs| ==> vs[k] == RejectionOf(xs[k])
  {
    seq(|xs|, k requires 0 <= k < |xs| => RejectionOf(xs[k]))
  }

  function Approvals(xs: seq<TradeIntent>, cfg: SelectorConfig): (vs: seq<Verdict>)
    ensures |vs| == |xs| && forall k :: 0 <= k < |xs| ==> vs[k] == ApprovalOf(xs[k], cfg)
  {
    seq(|xs|, k requires 0 <= k < |xs| => ApprovalOf(xs[k], cfg))
  }

  /** The verdicts of finalize in the order they are published: rejections first. */
  function Verdicts(sel: SelectorState): seq<Verdict> {
    Rejections(Rejected(sel.buffer, sel.cfg.policy)) + Approvals(Approved(sel.buffer, sel.cfg.policy), sel.cfg)
  }

  function RejectionRecord(x: TradeIntent): Entry {
    Entry(LIFECYCLE, Some(x.intentId), x.strategyId, RejectedByCap(x.intentId, x.instrumentId, x.edge))
  }

  /** The approval record and the record of the handler it is routed to; both handlers approve. */
  function ApprovalRecords(x: TradeIntent, cfg: SelectorConfig): seq<Entry> {
    var kind := Classify(x, cfg);
    [Entry(LIFECYCLE, Some(x.intentId), x.strategyId, SelectorApproved(x.intentId, kind)),
     Entry(LIFECYCLE, Some(x.intentId), x.strategyId,
           if kind.HUMAN? then HumanApprovalStub(x.intentId) else Payload.AutomationApproved(x.intentId))]
  }

  /** What is recorded and published about one intent, in the order of finalize: its own ids, edge and snapshot. */
  lemma VerdictsOf(x: TradeIntent, cfg: SelectorConfig)
    ensures RejectionOf(x) == Reject(RejectedSnapshot(x.intentId, x.strategyId))
    ensures RejectionRecord(x) ==
            Entry(LIFECYCLE, Some(x.intentId), x.strategyId, RejectedByCap(x.intentId, x.instrumentId, x.edge))
    ensures ApprovalOf(x, cfg).Approve? && FromSnapshot(ApprovalOf(x, cfg).approved.snapshot) == Some(x)
    ensures ApprovalOf(x, cfg).approved.actorKind == Classify(x, cfg)
    ensures |ApprovalRecords(x, cfg)| == 2
    ensures forall e :: e in ApprovalRecords(x, cfg) ==>
              e.stage.LIFECYCLE? && e.refId == Some(x.intentId) && e.strategyId == x.strategyId
    ensures ApprovalRecords(x, cfg)[0].payload == SelectorApproved(x.intentId, Classify(x, cfg))
    ensures ApprovalRecords(x, cfg)[1].payload == if Classify(x, cfg) == HUMAN then HumanApprovalStub(x.intentId)
                                                  else Payload.AutomationApproved(x.intentId)
  {
    hide Classify;
    SnapshotRoundTrip(x, ToSnapshot(x));
  }

  /** The verdicts of a batch: first the rejected intents as they arrived, then the approved ones as ranked. */
  lemma VerdictsInOrder(sel: SelectorState)
    ensures var vs, no := Verdicts(sel), Rejected(sel.buffer, sel.cfg.policy);
            var yes := Approved(sel.buffer, sel.cfg.policy);
            && |vs| == |no| + |yes|
            && (forall k :: 0 <= k < |no| ==> vs[k] == Reject(RejectedSnapshot(no[k].intentId, no[k].strategyId)))
            && forall k :: |no| <= k < |vs| ==>
                 && vs[k].Approve? && FromSnapshot(vs[k].approved.snapshot) == Some(yes[k - |no|])
                 && vs[k].approved.actorKind == Classify(yes[k - |no|], sel.cfg)
  {
    hide Classify, Approved, Rejected, FromSnapshot, ToSnapshot;
    forall x: TradeIntent ensures FromSnapshot(ToSnapshot(x)) == Some(x) {
      SnapshotRoundTrip(x, ToSnapshot(x));
    }
  }

  function RejectionJournal(xs: seq<TradeIntent>): seq<Entry> {
    if |xs| == 0 then [] else RejectionJournal(xs[..|xs| - 1]) + [RejectionRecord(xs[|xs| - 1])]
  }

  function ApprovalJournal(xs: seq<TradeIntent>, cfg: SelectorConfig): seq<Entry> {
    if |xs| == 0 then [] else ApprovalJournal(xs[..|xs| - 1], cfg) + ApprovalRecords(xs[|xs| - 1], cfg)
  }

  /** What the selector and the handler record before each verdict of finalize, in the same order. */
  function Announcements(sel: SelectorState): (rs: seq<seq<Entry>>)
    ensures |rs| == |Verdicts(sel)|
  {
    hide Approved, Rejected;
    RejectionRecords(Rejected(sel.buffer, sel.cfg.policy)) +
    ApprovalRecordLists(Approved(sel.buffer, sel.cfg.policy), sel.cfg)
  }

  function RejectionRecords(xs: seq<TradeIntent>): (rs: seq<seq<Entry>>)
    ensures |rs| == |xs| && forall k :: 0 <= k < |xs| ==> rs[k] == [RejectionRecord(xs[k])]
  {
    seq(|xs|, k requires 0 <= k < |xs| => [RejectionRecord(xs[k])])
  }

  function ApprovalRecordLists(xs: seq<TradeIntent>, cfg: SelectorConfig): (rs: seq<seq<Entry>>)
    ensures |rs| == |xs| && forall k :: 0 <= k < |xs| ==> rs[k] == ApprovalRecords(xs[k], cfg)
  {
    seq(|xs|, k requires 0 <= k < |xs| => ApprovalRecords(xs[k], cfg))
  }

  /** The selector after finalize: empty buffer, one record per rejection, two per approval. */
  function Finalized(sel: SelectorState): SelectorState {
    if |sel.buffer| == 0 then sel
    else
      sel.(buffer := [],
           journal := sel.journal + RejectionJournal(Rejected(sel.buffer, sel.cfg.policy))
                      + ApprovalJournal(Approved(sel.buffer, sel.cfg.policy), sel.cfg))
  }

  /** How many approvals and rejections a selector journal records. */
  function ApprovalCount(log: seq<Entry>): nat {
    if |log| == 0 then 0
    else ApprovalCount(log[..|log| - 1]) + One(log[|log| - 1].payload.SelectorApproved?)
  }

  function RejectionCount(log: seq<Entry>): nat {
    if |log| == 0 then 0
    else RejectionCount(log[..|log| - 1]) + One(log[|log| - 1].payload.RejectedByCap?)
  }

  lemma {:induction false} CountsOfConcat(a: seq<Entry>, b: seq<Entry>)
    ensures ApprovalCount(a + b) == ApprovalCount(a) + ApprovalCount(b)
    ensures RejectionCount(a + b) == RejectionCount(a) + RejectionCount(b)
  {
    if |b| == 0 {
      assert a + b == a;
    } else {
      var init := b[..|b| - 1];
      assert (a + b)[..|a + b| - 1] == a + init;
      CountsOfConcat(a, init);
    }
  }

  lemma {:induction false} RejectionJournalCounts(xs: seq<TradeIntent>)
    ensures ApprovalCount(RejectionJournal(xs)) == 0 && RejectionCount(RejectionJournal(xs)) == |xs|
  {
    if |xs| > 0 {
      var init := xs[..|xs| - 1];
      RejectionJournalCounts(init);
      var j, r := RejectionJournal(init), RejectionRecord(xs[|xs| - 1]);
      assert (j + [r])[..|j|] == j;
    }
  }

  lemma ApprovalRecordsCount(x: TradeIntent, cfg: SelectorConfig)
    ensures ApprovalCount(ApprovalRecords(x, cfg)) == 1 && RejectionCount(ApprovalRecords(x, cfg)) == 0
  {
    var r := ApprovalRecords(x, cfg);
    assert r[..1] == [r[0]] && [r[0]][..0] == [];
    assert ApprovalCount([r[0]]) == 1 && RejectionCount([r[0]]) == 0;
  }

  lemma {:induction false} ApprovalJournalCounts(xs: seq<TradeIntent>, cfg: SelectorConfig)
    ensures ApprovalCount(ApprovalJournal(xs, cfg)) == |xs| && RejectionCount(ApprovalJournal(xs, cfg)) == 0
  {
    if |xs| > 0 {
      var init := xs[..|xs| - 1];
      ApprovalJournalCounts(init, cfg);
      ApprovalRecordsCount(xs[|xs| - 1], cfg);
      CountsOfConcat(ApprovalJournal(init, cfg), ApprovalRecords(xs[|xs| - 1], cfg));
    }
  }

  /** finalize records one approval per approved intent and one rejection per rejected one. */
  lemma FinalizedCounts(sel: SelectorState)
    ensures ApprovalCount(Finalized(sel).journal) ==
            ApprovalCount(sel.journal) + |Approved(sel.buffer, sel.cfg.policy)|
    ensures RejectionCount(Finalized(sel).journal) ==
            RejectionCount(sel.journal) + |Rejected(sel.buffer, sel.cfg.policy)|
  {
    var a, r := Approved(sel.buffer, sel.cfg.policy), Rejected(sel.buffer, sel.cfg.policy);
    RejectionJournalCounts(r);
    ApprovalJournalCounts(a, sel.cfg);
    CountsOfConcat(sel.journal, RejectionJournal(r));
    CountsOfConcat(sel.journal + RejectionJournal(r), ApprovalJournal(a, sel.cfg));
  }
}
