/** The shared journal file over whole runs of the node: every strategy's own records, in their own order. */
module SystemLog {
  import opened Models
  import opened Diversification
  import opened Audit
  import opened StrategyFsm
  import opened StrategyTheorems
  import opened Selector
  import opened TradingSystem
  import opened SystemTheorems

  ghost predicate DistinctStrategies(ss: seq<StrategyFsm.Strategy>) {
    forall j, k :: 0 <= j < k < |ss| ==> ss[j].cfg.strategyId != ss[k].cfg.strategyId
  }

  /** What the file holds of a strategy's own records is that strategy's journal. */
  ghost predicate Filed(sys: System) {
    forall k :: 0 <= k < |sys.strategies| ==>
                  OwnPart(sys.log, sys.strategies[k].cfg.strategyId) == sys.strategies[k].journal
  }

  /* ---- One callback -------------------------------------------------------------------------- */

  /** A callback's records are the strategy's own, and nobody else's. */
  lemma NewRecordsAreOwn(s: StrategyFsm.Strategy, e: Event, id: string)
    ensures OwnPart(NewRecords(s, Step(s, e)), id) ==
            if id == s.cfg.strategyId then NewRecords(s, Step(s, e)) else []
    ensures s.journal + NewRecords(s, Step(s, e)) == Step(s, e).journal
  {
    hide Step, ReadAll;
    StepExtends(s, e);
    var added := NewRecords(s, Step(s, e));
    if id == s.cfg.strategyId {
      OwnPartOfOwn(added, id);
    } else {
      OwnPartOfOthers(added, id);
    }
  }

  lemma StrategyEventFiles(sys: System, n: nat, ev: Event)
    requires n < |sys.strategies| && DistinctStrategies(sys.strategies) && Filed(sys)
    ensures Filed(Stepped(sys, n, ev))
  {
    hide Step, OwnPart, NewRecords;
    var s, after := sys.strategies[n], Stepped(sys, n, ev);
    var added := NewRecords(s, Step(s, ev));
    forall k | 0 <= k < |after.strategies|
      ensures OwnPart(after.log, after.strategies[k].cfg.strategyId) == after.strategies[k].journal
    {
      var id := sys.strategies[k].cfg.strategyId;
      OwnPartOfConcat(sys.log, added, id);
      NewRecordsAreOwn(s, ev, id);
      assert k != n ==> id != s.cfg.strategyId;
      assert OwnPart(sys.log, id) + [] == OwnPart(sys.log, id);
    }
  }

  /* ---- The alert ------------------------------------------------------------------------------- */

  /** Of what is journalled while one verdict goes round, a strategy's own records are its callback's. */
  lemma {:induction false} HeardByOne(ss: seq<StrategyFsm.Strategy>, v: Verdict, ins: Answers, k: nat)
    requires k < |ss| && DistinctStrategies(ss)
    ensures OwnPart(Heard(ss, v, ins), ss[k].cfg.strategyId) == NewRecords(ss[k], Step(ss[k], VerdictEvent(v, ins(k))))
  {
    hide Step, NewRecords, OwnPart;
    var init, last, id := ss[..|ss| - 1], ss[|ss| - 1], ss[k].cfg.strategyId;
    OwnPartOfConcat(Heard(init, v, ins), NewRecords(last, Step(last, VerdictEvent(v, ins(|ss| - 1)))), id);
    NewRecordsAreOwn(last, VerdictEvent(v, ins(|ss| - 1)), id);
    if k == |ss| - 1 {
      HeardByOthers(init, v, ins, id);
      var own := NewRecords(last, Step(last, VerdictEvent(v, ins(|ss| - 1))));
      assert [] + own == own;
    } else {
      HeardByOne(init, v, ins, k);
      var own := NewRecords(ss[k], Step(ss[k], VerdictEvent(v, ins(k))));
      assert own + [] == own;
    }
  }

  lemma {:induction false} HeardByOthers(ss: seq<StrategyFsm.Strategy>, v: Verdict, ins: Answers, id: string)
    requires forall k :: 0 <= k < |ss| ==> ss[k].cfg.strategyId != id
    ensures OwnPart(Heard(ss, v, ins), id) == []
  {
    hide Step, NewRecords;
    if |ss| > 0 {
      hide OwnPart;
      var last := ss[|ss| - 1];
      HeardByOthers(ss[..|ss| - 1], v, ins, id);
      OwnPartOfConcat(Heard(ss[..|ss| - 1], v, ins), NewRecords(last, Step(last, VerdictEvent(v, ins(|ss| - 1)))), id);
      NewRecordsAreOwn(last, VerdictEvent(v, ins(|ss| - 1)), id);
    }
  }

  ghost predicate AllForeign(rs: seq<Entry>) {
    forall k :: 0 <= k < |rs| ==> Foreign(rs[k].payload)
  }

  lemma AnnouncementsAreForeign(sel: SelectorState, k: nat)
    requires k < |Announcements(sel)|
    ensures AllForeign(Announcements(sel)[k])
  {
    hide Approved, Rejected, Classify;
  }

  lemma ForeignIsNobodys(rs: seq<Entry>, id: string)
    requires AllForeign(rs)
    ensures OwnPart(rs, id) == []
  {
    OwnPartOfOthers(rs, id);
  }

  /** Whatever verdicts are delivered, a strategy's journal grows by its own part of what is journalled. */
  lemma {:induction false} DeliveryOfOne(ss: seq<StrategyFsm.Strategy>, vs: seq<Verdict>, rs: seq<seq<Entry>>,
                                         ins: Answers, k: nat)
    requires k < |ss| && DistinctStrategies(ss) && |rs| == |vs|
    requires forall j :: 0 <= j < |rs| ==> AllForeign(rs[j])
    ensures DeliverAll(ss, vs, ins)[k].cfg == ss[k].cfg
    ensures ss[k].journal + OwnPart(DeliveryLog(ss, vs, rs, ins), ss[k].cfg.strategyId) ==
            DeliverAll(ss, vs, ins)[k].journal
  {
    hide Step, NewRecords, OwnPart, AllForeign, Heard;
    var id := ss[k].cfg.strategyId;
    if |vs| == 0 {
      NothingOwned(id);
      assert ss[k].journal + [] == ss[k].journal;
    } else {
      var n := |vs| - 1;
      var mid := DeliverAll(ss, vs[..n], ins);
      DeliveryOfOne(ss, vs[..n], rs[..n], ins, k);
      SameIdsAfter(ss, vs[..n], ins);
      var a, b, c := DeliveryLog(ss, vs[..n], rs[..n], ins), rs[n], Heard(mid, vs[n], ins);
      OwnPartOfConcat(a + b, c, id);
      OwnPartOfConcat(a, b, id);
      ForeignIsNobodys(b, id);
      HeardByOne(mid, vs[n], ins, k);
      NewRecordsAreOwn(mid[k], VerdictEvent(vs[n], ins(k)), id);
      var own := OwnPart(a, id);
      assert own + [] == own;
      assert ss[k].journal + (own + OwnPart(c, id)) == ss[k].journal + own + OwnPart(c, id);
    }
  }

  lemma NothingOwned(id: string)
    ensures OwnPart([], id) == []
  {
  }

  lemma SameIdsAfter(ss: seq<StrategyFsm.Strategy>, vs: seq<Verdict>, ins: Answers)
    requires DistinctStrategies(ss)
    ensures DistinctStrategies(DeliverAll(ss, vs, ins))
  {
    hide Step, DeliverAll, Hear;
    forall k | 0 <= k < |ss| ensures DeliverAll(ss, vs, ins)[k].cfg == ss[k].cfg {
      DeliverIsPointwise(ss, vs, ins, k);
      HearKeepsConfig(ss[k], vs, ins(k));
    }
  }

  lemma AlertFiles(sys: System, ins: Answers)
    requires DistinctStrategies(sys.strategies) && Filed(sys)
    ensures Filed(SystemStep(sys, AlertFires(ins)))
  {
    hide Step, OwnPart, NewRecords, DeliverAll, DeliveryLog, Finalized, Verdicts, Announcements;
    var sel := sys.selector.(alert := None);
    if |sel.buffer| == 0 {
      NothingDelivered(sys.strategies, ins);
      assert sys.log + [] == sys.log;
    } else {
      var vs, rs := Verdicts(sel), Announcements(sel);
      var after := SystemStep(sys, AlertFires(ins));
      forall j | 0 <= j < |rs| ensures AllForeign(rs[j]) {
        AnnouncementsAreForeign(sel, j);
      }
      forall k | 0 <= k < |after.strategies|
        ensures OwnPart(after.log, after.strategies[k].cfg.strategyId) == after.strategies[k].journal
      {
        DeliveryOfOne(sys.strategies, vs, rs, ins, k);
        OwnPartOfConcat(sys.log, DeliveryLog(sys.strategies, vs, rs, ins), sys.strategies[k].cfg.strategyId);
      }
    }
  }

  lemma NothingDelivered(ss: seq<StrategyFsm.Strategy>, ins: Answers)
    ensures DeliverAll(ss, [], ins) == ss
  {
  }

  /* ---- Runs -------------------------------------------------------------------------------------- */

  lemma NodeWriteFiles(sys: System, e: NodeEvent)
    requires Filed(sys)
    ensures Filed(SystemStep(sys, NodeWrites(e)))
  {
    hide OwnPart;
    forall k | 0 <= k < |sys.strategies|
      ensures OwnPart(sys.log + [NodeRecord(e)], sys.strategies[k].cfg.strategyId) == sys.strategies[k].journal
    {
      OwnPartOneMore(sys.log, NodeRecord(e), sys.strategies[k].cfg.strategyId);
    }
  }

  lemma StepFiles(sys: System, e: SystemEvent)
    requires DistinctStrategies(sys.strategies) && Filed(sys)
    ensures Filed(SystemStep(sys, e))
  {
    match e
    case StrategyEvent(n, ev) =>
      if n < |sys.strategies| {
        hide Step, OwnPart, NewRecords, NewlyPublished, Forward;
        StrategyEventFiles(sys, n, ev);
        ForwardKeepsConfigs(Stepped(sys, n, ev), NewlyPublished(sys.strategies[n], Step(sys.strategies[n], ev)));
      }
    case AlertFires(ins) => AlertFiles(sys, ins);
    case TimePasses(_) =>
    case NodeWrites(nodeEvent) => NodeWriteFiles(sys, nodeEvent);
  }

  /**
   * Over any run of the node, with distinct strategy ids: however the writers took turns, what the
   * shared file holds of each strategy's own records is that strategy's journal.
   */
  lemma {:induction false} FileHoldsEveryJournal(cfgs: seq<Config>, sel: SelectorConfig, now: int, es: seq<SystemEvent>)
    requires forall j, k :: 0 <= j < k < |cfgs| ==> cfgs[j].strategyId != cfgs[k].strategyId
    ensures Filed(SystemRun(Start(cfgs, sel, now), es))
  {
    hide SystemStep, Filed;
    if |es| == 0 {
      StartFiles(cfgs, sel, now);
    } else {
      var before := SystemRun(Start(cfgs, sel, now), es[..|es| - 1]);
      FileHoldsEveryJournal(cfgs, sel, now, es[..|es| - 1]);
      RunKeepsConfigs(cfgs, sel, now, es[..|es| - 1]);
      StepFiles(before, es[|es| - 1]);
    }
  }

  lemma StartFiles(cfgs: seq<Config>, sel: SelectorConfig, now: int)
    ensures Filed(Start(cfgs, sel, now))
  {
  }

  /* ---- The records of nobody's journal ---------------------------------------------------------- */

  /** Who writes the records that are no strategy's own. */
  datatype Writer = Desk | TheNode

  /** The selector and the approval handlers write the verdicts; the node writes its own events. */
  predicate Wrote(w: Writer, e: Entry) {
    Foreign(e.payload) && (e.payload.NodeLifecycle? <==> w.TheNode?)
  }

  function PartOf(w: Writer, log: seq<Entry>): seq<Entry> {
    if |log| == 0 then []
    else PartOf(w, log[..|log| - 1]) + if Wrote(w, log[|log| - 1]) then [log[|log| - 1]] else []
  }

  lemma {:induction false} PartOfConcat(w: Writer, a: seq<Entry>, b: seq<Entry>)
    ensures PartOf(w, a + b) == PartOf(w, a) + PartOf(w, b)
  {
    hide Wrote;
    if |b| == 0 {
      assert a + b == a;
    } else {
      assert (a + b)[..|a + b| - 1] == a + b[..|b| - 1];
      PartOfConcat(w, a, b[..|b| - 1]);
    }
  }

  lemma {:induction false} PartOfSame(w: Writer, log: seq<Entry>)
    ensures (forall k :: 0 <= k < |log| ==> Wrote(w, log[k])) ==> PartOf(w, log) == log
    ensures (forall k :: 0 <= k < |log| ==> !Wrote(w, log[k])) ==> PartOf(w, log) == []
  {
    hide Wrote;
    if |log| > 0 {
      PartOfSame(w, log[..|log| - 1]);
    }
  }

  /** A callback writes none of them. */
  lemma CallbackWritesNone(w: Writer, s: StrategyFsm.Strategy, e: Event)
    ensures PartOf(w, NewRecords(s, Step(s, e))) == []
  {
    hide Step, ReadAll, PartOf;
    StepExtends(s, e);
    PartOfSame(w, NewRecords(s, Step(s, e)));
  }

  lemma {:induction false} HearingWritesNone(w: Writer, ss: seq<StrategyFsm.Strategy>, v: Verdict, ins: Answers)
    ensures PartOf(w, Heard(ss, v, ins)) == []
  {
    hide Step, NewRecords;
    if |ss| > 0 {
      hide PartOf;
      var last := ss[|ss| - 1];
      HearingWritesNone(w, ss[..|ss| - 1], v, ins);
      CallbackWritesNone(w, last, VerdictEvent(v, ins(|ss| - 1)));
      PartOfConcat(w, Heard(ss[..|ss| - 1], v, ins), NewRecords(last, Step(last, VerdictEvent(v, ins(|ss| - 1)))));
    }
  }

  function Flattened(rs: seq<seq<Entry>>): seq<Entry> {
    if |rs| == 0 then [] else Flattened(rs[..|rs| - 1]) + rs[|rs| - 1]
  }

  lemma {:induction false} FlatConcat(a: seq<seq<Entry>>, b: seq<seq<Entry>>)
    ensures Flattened(a + b) == Flattened(a) + Flattened(b)
  {
    if |b| == 0 {
      assert a + b == a;
    } else {
      assert (a + b)[..|a + b| - 1] == a + b[..|b| - 1];
      FlatConcat(a, b[..|b| - 1]);
    }
  }

  lemma {:induction false} FlatRejections(xs: seq<TradeIntent>)
    ensures Flattened(RejectionRecords(xs)) == RejectionJournal(xs)
  {
    if |xs| > 0 {
      hide RejectionRecord;
      assert RejectionRecords(xs)[..|xs| - 1] == RejectionRecords(xs[..|xs| - 1]);
      FlatRejections(xs[..|xs| - 1]);
    }
  }

  lemma {:induction false} FlatApprovals(xs: seq<TradeIntent>, cfg: SelectorConfig)
    ensures Flattened(ApprovalRecordLists(xs, cfg)) == ApprovalJournal(xs, cfg)
  {
    if |xs| > 0 {
      hide ApprovalRecords;
      assert ApprovalRecordLists(xs, cfg)[..|xs| - 1] == ApprovalRecordLists(xs[..|xs| - 1], cfg);
      FlatApprovals(xs[..|xs| - 1], cfg);
    }
  }

  /** What is announced is what finalize adds to the selector's journal. */
  lemma AnnouncedIsJournalled(sel: SelectorState)
    requires |sel.buffer| > 0
    ensures Finalized(sel).journal == sel.journal + Flattened(Announcements(sel))
  {
    hide Approved, Rejected, RejectionRecords, ApprovalRecordLists, RejectionJournal, ApprovalJournal, Flattened;
    var no, yes := Rejected(sel.buffer, sel.cfg.policy), Approved(sel.buffer, sel.cfg.policy);
    FlatRejections(no);
    FlatApprovals(yes, sel.cfg);
    FlatConcat(RejectionRecords(no), ApprovalRecordLists(yes, sel.cfg));
    assert sel.journal + RejectionJournal(no) + ApprovalJournal(yes, sel.cfg) ==
           sel.journal + (RejectionJournal(no) + ApprovalJournal(yes, sel.cfg));
  }

  ghost predicate AllOfDesk(rs: seq<Entry>) {
    forall k :: 0 <= k < |rs| ==> Wrote(Desk, rs[k]) && !Wrote(TheNode, rs[k])
  }

  lemma AnnouncementsAreOfDesk(sel: SelectorState, k: nat)
    requires k < |Announcements(sel)|
    ensures AllOfDesk(Announcements(sel)[k])
  {
    hide Approved, Rejected, Classify;
  }

  /** While verdicts are delivered the desk writes what is announced, and the node nothing. */
  lemma {:induction false} DeliveryOfDesk(ss: seq<StrategyFsm.Strategy>, vs: seq<Verdict>, rs: seq<seq<Entry>>,
                                          ins: Answers)
    requires |rs| == |vs| && forall j :: 0 <= j < |rs| ==> AllOfDesk(rs[j])
    ensures PartOf(Desk, DeliveryLog(ss, vs, rs, ins)) == Flattened(rs)
    ensures PartOf(TheNode, DeliveryLog(ss, vs, rs, ins)) == []
  {
    hide Wrote, Heard, DeliverAll;
    if |vs| > 0 {
      hide PartOf;
      var n := |vs| - 1;
      var a, c := DeliveryLog(ss, vs[..n], rs[..n], ins), Heard(DeliverAll(ss, vs[..n], ins), vs[n], ins);
      DeliveryOfDesk(ss, vs[..n], rs[..n], ins);
      forall w: Writer ensures PartOf(w, a + rs[n] + c) == PartOf(w, a) + PartOf(w, rs[n]) {
        PartOfConcat(w, a + rs[n], c);
        PartOfConcat(w, a, rs[n]);
        HearingWritesNone(w, DeliverAll(ss, vs[..n], ins), vs[n], ins);
        assert PartOf(w, a) + PartOf(w, rs[n]) + [] == PartOf(w, a) + PartOf(w, rs[n]);
      }
      PartOfSame(Desk, rs[n]);
      PartOfSame(TheNode, rs[n]);
    }
  }

  /** What the node records on its own, event by event. */
  function NodeLines(es: seq<SystemEvent>): seq<Entry> {
    if |es| == 0 then []
    else
      NodeLines(es[..|es| - 1]) +
      match es[|es| - 1]
      case NodeWrites(e) => [Audit.Entry(LIFECYCLE, None, "", NodeLifecycle(e))]
      case _ => []
  }

  /** The rest of the file: the selector's journal, and the node's lines. */
  ghost predicate RestFiled(sys: System, lines: seq<Entry>) {
    PartOf(Desk, sys.log) == sys.selector.journal && PartOf(TheNode, sys.log) == lines
  }

  lemma StrategyEventFilesRest(sys: System, n: nat, ev: Event, lines: seq<Entry>)
    requires n < |sys.strategies| && RestFiled(sys, lines)
    ensures RestFiled(SystemStep(sys, StrategyEvent(n, ev)), lines)
  {
    hide Step, PartOf, NewRecords, NewlyPublished, Forward;
    var s := sys.strategies[n];
    var after := sys.(strategies := sys.strategies[n := Step(s, ev)], log := sys.log + NewRecords(s, Step(s, ev)));
    forall w: Writer ensures PartOf(w, after.log) == PartOf(w, sys.log) {
      PartOfConcat(w, sys.log, NewRecords(s, Step(s, ev)));
      CallbackWritesNone(w, s, ev);
      assert PartOf(w, sys.log) + [] == PartOf(w, sys.log);
    }
    ForwardKeepsConfigs(after, NewlyPublished(s, Step(s, ev)));
  }

  lemma AlertFilesRest(sys: System, ins: Answers, lines: seq<Entry>)
    requires RestFiled(sys, lines)
    ensures RestFiled(SystemStep(sys, AlertFires(ins)), lines)
  {
    hide Step, PartOf, DeliverAll, DeliveryLog, Verdicts, Announcements, AllOfDesk, Flattened;
    var sel := sys.selector.(alert := None);
    if |sel.buffer| == 0 {
      assert sys.log + [] == sys.log;
    } else {
      AnnouncedIsJournalled(sel);
      hide Finalized;
      var rs := Announcements(sel);
      forall j | 0 <= j < |rs| ensures AllOfDesk(rs[j]) {
        AnnouncementsAreOfDesk(sel, j);
      }
      DeliveryOfDesk(sys.strategies, Verdicts(sel), rs, ins);
      PartOfConcat(Desk, sys.log, DeliveryLog(sys.strategies, Verdicts(sel), rs, ins));
      PartOfConcat(TheNode, sys.log, DeliveryLog(sys.strategies, Verdicts(sel), rs, ins));
      assert lines + [] == lines;
    }
  }

  lemma NodeWriteFilesRest(sys: System, e: NodeEvent, lines: seq<Entry>)
    requires RestFiled(sys, lines)
    ensures RestFiled(SystemStep(sys, NodeWrites(e)), lines + [Audit.Entry(LIFECYCLE, None, "", NodeLifecycle(e))])
  {
    hide PartOf;
    PartOfConcat(Desk, sys.log, [NodeRecord(e)]);
    PartOfConcat(TheNode, sys.log, [NodeRecord(e)]);
    PartOfSame(Desk, [NodeRecord(e)]);
    PartOfSame(TheNode, [NodeRecord(e)]);
    assert sys.selector.journal + [] == sys.selector.journal;
  }

  lemma StepFilesRest(sys: System, e: SystemEvent, lines: seq<Entry>)
    requires RestFiled(sys, lines)
    ensures RestFiled(SystemStep(sys, e),
                      lines + match e
                              case NodeWrites(ne) => [Audit.Entry(LIFECYCLE, None, "", NodeLifecycle(ne))]
                              case _ => [])
  {
    hide RestFiled, Step, Forward, DeliverAll, DeliveryLog, Finalized;
    assert lines + [] == lines;
    match e
    case StrategyEvent(n, ev) =>
      if n < |sys.strategies| {
        StrategyEventFilesRest(sys, n, ev, lines);
      }
    case AlertFires(ins) => AlertFilesRest(sys, ins, lines);
    case TimePasses(until) => TimeFilesRest(sys, until, lines);
    case NodeWrites(ne) => NodeWriteFilesRest(sys, ne, lines);
  }

  lemma TimeFilesRest(sys: System, until: int, lines: seq<Entry>)
    requires RestFiled(sys, lines)
    ensures RestFiled(SystemStep(sys, TimePasses(until)), lines)
  {
    hide PartOf;
  }

  /**
   * Over any run of the node, whatever the strategy ids: what the shared file holds of the verdict records is
   * the selector's journal, and what it holds of the node's is one line for each event the node recorded.
   */
  lemma {:induction false} FileHoldsTheRest(cfgs: seq<Config>, sel: SelectorConfig, now: int, es: seq<SystemEvent>)
    ensures RestFiled(SystemRun(Start(cfgs, sel, now), es), NodeLines(es))
  {
    if |es| > 0 {
      hide SystemStep, RestFiled;
      FileHoldsTheRest(cfgs, sel, now, es[..|es| - 1]);
      StepFilesRest(SystemRun(Start(cfgs, sel, now), es[..|es| - 1]), es[|es| - 1], NodeLines(es[..|es| - 1]));
    }
  }
}
