/** The rejection report of a whole node: its shared file counts exactly the refusals of all strategies. */
module SystemReports {
  import opened Models
  import opened Audit
  import opened StrategyFsm
  import opened StrategyRuns
  import opened Selector
  import opened TradingSystem
  import opened SystemTheorems
  import opened SystemLog
  import opened JournalFile
  import opened JournalLoad
  import opened StoredAudit
  import opened Reports
  import opened StoredReports

  /** The total of the rejection report of one log. */
  function Total(log: seq<Entry>): nat {
    Tally(All(Rejections), log)
  }

  function TotalOfAll(ss: seq<StrategyFsm.Strategy>): nat {
    if |ss| == 0 then 0 else TotalOfAll(ss[..|ss| - 1]) + Total(ss[|ss| - 1].journal)
  }

  function ReturnsOfAll(ss: seq<StrategyFsm.Strategy>): nat {
    if |ss| == 0 then 0 else ReturnsOfAll(ss[..|ss| - 1]) + RejectionReturns(ss[|ss| - 1].journal)
  }

  /** The file's total is the sum of the strategies' own totals. */
  ghost predicate Agrees(sys: System) {
    Total(sys.log) == TotalOfAll(sys.strategies)
  }

  lemma TotalAfterStep(s: StrategyFsm.Strategy, e: Event)
    ensures Total(Step(s, e).journal) == Total(s.journal) + Total(NewRecords(s, Step(s, e)))
  {
    hide Step, Tally;
    NewRecordsAreOwn(s, e, s.cfg.strategyId);
    ReportsAdd(All(Rejections), s.journal, NewRecords(s, Step(s, e)));
  }

  lemma {:induction false} TotalAfterUpdate(ss: seq<StrategyFsm.Strategy>, n: nat, t: StrategyFsm.Strategy)
    requires n < |ss|
    ensures TotalOfAll(ss[n := t]) + Total(ss[n].journal) == TotalOfAll(ss) + Total(t.journal)
  {
    hide Total;
    var last := |ss| - 1;
    if n == last {
      assert ss[n := t][..last] == ss[..last];
    } else {
      assert ss[n := t][..last] == ss[..last][n := t];
      TotalAfterUpdate(ss[..last], n, t);
    }
  }

  lemma {:induction false} TotalHeard(ss: seq<StrategyFsm.Strategy>, v: Verdict, ins: Answers)
    ensures TotalOfAll(Deliver(ss, v, ins)) == TotalOfAll(ss) + Total(Heard(ss, v, ins))
  {
    hide Step, NewRecords, Tally;
    if |ss| > 0 {
      var init, last := ss[..|ss| - 1], ss[|ss| - 1];
      assert Deliver(ss, v, ins)[..|ss| - 1] == Deliver(init, v, ins);
      TotalHeard(init, v, ins);
      TotalAfterStep(last, VerdictEvent(v, ins(|ss| - 1)));
      ReportsAdd(All(Rejections), Heard(init, v, ins), NewRecords(last, Step(last, VerdictEvent(v, ins(|ss| - 1)))));
    } else {
      NothingReportedYet();
    }
  }

  lemma NothingReportedYet()
    ensures Total([]) == 0
  {
  }

  lemma {:induction false} ForeignAddsNothing(rs: seq<Entry>)
    requires AllForeign(rs)
    ensures Total(rs) == 0
  {
    if |rs| > 0 {
      ForeignAddsNothing(rs[..|rs| - 1]);
    }
  }

  lemma {:induction false} TotalDelivered(ss: seq<StrategyFsm.Strategy>, vs: seq<Verdict>, rs: seq<seq<Entry>>,
                                          ins: Answers)
    requires |rs| == |vs| && forall j :: 0 <= j < |rs| ==> AllForeign(rs[j])
    ensures TotalOfAll(DeliverAll(ss, vs, ins)) == TotalOfAll(ss) + Total(DeliveryLog(ss, vs, rs, ins))
  {
    hide Deliver, Heard, Tally, AllForeign;
    if |vs| == 0 {
      NothingReportedYet();
    } else {
      var n := |vs| - 1;
      var mid := DeliverAll(ss, vs[..n], ins);
      var a, b, c := DeliveryLog(ss, vs[..n], rs[..n], ins), rs[n], Heard(mid, vs[n], ins);
      TotalDelivered(ss, vs[..n], rs[..n], ins);
      TotalHeard(mid, vs[n], ins);
      ForeignAddsNothing(b);
      ReportsAdd(All(Rejections), a + b, c);
      ReportsAdd(All(Rejections), a, b);
    }
  }

  lemma AlertAgrees(sys: System, ins: Answers)
    requires Agrees(sys)
    ensures Agrees(SystemStep(sys, AlertFires(ins)))
  {
    hide Step, DeliverAll, DeliveryLog, Finalized, Verdicts, Announcements, Tally, AllForeign;
    var sel := sys.selector.(alert := None);
    if |sel.buffer| == 0 {
      NothingDelivered(sys.strategies, ins);
      assert sys.log + [] == sys.log;
    } else {
      var vs, rs := Verdicts(sel), Announcements(sel);
      forall j | 0 <= j < |rs| ensures AllForeign(rs[j]) {
        AnnouncementsAreForeign(sel, j);
      }
      TotalDelivered(sys.strategies, vs, rs, ins);
      ReportsAdd(All(Rejections), sys.log, DeliveryLog(sys.strategies, vs, rs, ins));
    }
  }

  lemma StepAgrees(sys: System, e: SystemEvent)
    requires Agrees(sys)
    ensures Agrees(SystemStep(sys, e))
  {
    match e
    case StrategyEvent(n, ev) =>
      if n < |sys.strategies| {
        hide Step, NewRecords, NewlyPublished, Forward, Tally;
        var s := sys.strategies[n];
        ForwardKeepsConfigs(Stepped(sys, n, ev), NewlyPublished(s, Step(s, ev)));
        TotalAfterStep(s, ev);
        TotalAfterUpdate(sys.strategies, n, Step(s, ev));
        ReportsAdd(All(Rejections), sys.log, NewRecords(s, Step(s, ev)));
      }
    case AlertFires(ins) => AlertAgrees(sys, ins);
    case TimePasses(_) =>
    case NodeWrites(nodeEvent) =>
      TallyOneMore(All(Rejections), sys.log, NodeRecord(nodeEvent));
  }

  lemma {:induction false} RunAgrees(cfgs: seq<Config>, sel: SelectorConfig, now: int, es: seq<SystemEvent>)
    ensures Agrees(SystemRun(Start(cfgs, sel, now), es))
  {
    if |es| == 0 {
      StartAgrees(Start(cfgs, sel, now).strategies);
    } else {
      hide SystemStep, Agrees;
      RunAgrees(cfgs, sel, now, es[..|es| - 1]);
      StepAgrees(SystemRun(Start(cfgs, sel, now), es[..|es| - 1]), es[|es| - 1]);
    }
  }

  lemma {:induction false} StartAgrees(ss: seq<StrategyFsm.Strategy>)
    requires forall k :: 0 <= k < |ss| ==> ss[k].journal == []
    ensures TotalOfAll(ss) == 0
  {
    if |ss| > 0 {
      StartAgrees(ss[..|ss| - 1]);
    }
  }

  lemma OwnTotal(s: StrategyFsm.Strategy)
    requires Inv(s)
    ensures Total(s.journal) == RejectionReturns(s.journal)
  {
    hide ReadAll, Tally, RejectionReturns;
    TotalIsAudited(s.journal);
    ReturnsAreCounted(s.journal);
  }

  lemma {:induction false} TotalsAreReturns(ss: seq<StrategyFsm.Strategy>)
    requires AllInv(ss)
    ensures TotalOfAll(ss) == ReturnsOfAll(ss)
  {
    hide Inv, Total, RejectionReturns;
    if |ss| > 0 {
      TotalsAreReturns(ss[..|ss| - 1]);
      OwnTotal(ss[|ss| - 1]);
    }
  }

  /**
   * Over any run of the node the rejection report of its shared file has as its total the number of
   * transitions of all strategies with reason gate_reject, greek_reject or order_denied: nothing the
   * selector or the node writes into the file is counted, and nothing is counted twice.
   */
  lemma NodeReportMatchesRun(cfgs: seq<Config>, sel: SelectorConfig, now: int, es: seq<SystemEvent>)
    requires EnabledRun(Start(cfgs, sel, now), es)
    ensures var sys := SystemRun(Start(cfgs, sel, now), es);
            Total(sys.log) == ReturnsOfAll(sys.strategies)
  {
    hide SystemRun, Total, Inv;
    RunAgrees(cfgs, sel, now, es);
    ReachableInv(cfgs, sel, now, es);
    TotalsAreReturns(SystemRun(Start(cfgs, sel, now), es).strategies);
  }

  /**
   * The same for the text of that file: it loads, and the rejection report of the entries loaded has that
   * total; so has every number of both reports the value it has over the records written.
   */
  lemma NodeReportFromFile(cfgs: seq<Config>, sel: SelectorConfig, now: int, es: seq<SystemEvent>, w: Writing,
                           m: Measure)
    requires EnabledRun(Start(cfgs, sel, now), es) && Sound(w)
    ensures var sys := SystemRun(Start(cfgs, sel, now), es);
            var loaded := LoadText(w.formats, Universal(TextOf(StoredAll(w, sys.log))));
            && loaded.Ok?
            && RecordTally(All(Rejections), loaded.value) == ReturnsOfAll(sys.strategies)
            && RecordTally(m, loaded.value) == Tally(m, sys.log)
  {
    hide SystemRun, Tally, RecordTally, Sound, LoadText, Universal, TextOf, Stored, Complete;
    var sys := SystemRun(Start(cfgs, sel, now), es);
    var rs := StoredAll(w, sys.log);
    NodeReportMatchesRun(cfgs, sel, now, es);
    StoredReport(All(Rejections), w, sys.log);
    StoredReport(m, w, sys.log);
    forall r | r in rs ensures Complete(w.formats, r) {
      var j :| 0 <= j < |rs| && rs[j] == r;
      StoredIsComplete(w, j, sys.log[j]);
    }
    WholeFileLoads(w.formats, rs);
  }
}
