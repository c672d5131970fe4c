/** The two reports over a journal: loops over dictionary counters, and what their numbers mean. */
module Reports {
  import opened Models
  import opened Gates
  import opened Audit
  import opened StrategyFsm
  import opened StrategyRuns
  import opened StrategyTheorems

  /** Stages of journal_overview's gate rejections. */
  const SUMMARY_STAGES: set<GateStage> := {EDGE, LIQUIDITY, REGIME, SESSION, GREEK, OPERATIONAL}

  /** Which records a table of one of the reports counts. */
  datatype Kind = Rejections | Entries | GateRejects

  predicate Selected(kind: Kind, e: Entry) {
    match kind
    case Rejections => e.stage in REPORT_STAGES && (e.payload.GateReject? || e.payload.OrderDenied?)
    case Entries => true
    case GateRejects => e.stage in SUMMARY_STAGES && e.payload.GateReject?
  }

  datatype Measure = All(kind: Kind) | At(kind: Kind, stage: GateStage) | By(rule: Rule)

  /** How much one record adds to a number. */
  function Weight(m: Measure, e: Entry): nat {
    match m
    case All(kind) => One(Selected(kind, e))
    case At(kind, stage) => One(Selected(kind, e) && e.stage == stage)
    case By(rule) => if Selected(Rejections, e) && e.payload.GateReject? then multiset(e.payload.rules)[rule] else 0
  }

  function Tally(m: Measure, log: seq<Entry>): nat {
    if |log| == 0 then 0 else Tally(m, log[..|log| - 1]) + Weight(m, log[|log| - 1])
  }

  lemma TallyOneMore(m: Measure, log: seq<Entry>, e: Entry)
    ensures Tally(m, log + [e]) == Tally(m, log) + Weight(m, e)
  {
    hide Weight;
    assert (log + [e])[..|log|] == log;
  }

  /** Every number of both reports is additive: the report of a joined log is the pointwise sum. */
  lemma {:induction false} ReportsAdd(m: Measure, a: seq<Entry>, b: seq<Entry>)
    ensures Tally(m, a + b) == Tally(m, a) + Tally(m, b)
  {
    hide Weight;
    if |b| == 0 {
      assert a + b == a;
    } else {
      assert (a + b)[..|a + b| - 1] == a + b[..|b| - 1];
      ReportsAdd(m, a, b[..|b| - 1]);
    }
  }

  /* ---- Dictionary counters ------------------------------------------------------------------ */

  /** dict.get(key, 0) */
  function Get<K(==)>(counts: map<K, nat>, key: K): nat {
    if key in counts then counts[key] else 0
  }

  /** sum(counts.values()): the keys are stages. */
  function SumValues(counts: map<GateStage, nat>): nat {
    Get(counts, EDGE) + Get(counts, LIQUIDITY) + Get(counts, REGIME) + Get(counts, SESSION) + Get(counts, GREEK) +
    Get(counts, OPERATIONAL) + Get(counts, RISK_ENGINE) + Get(counts, LIFECYCLE) + Get(counts, FILL) +
    Get(counts, PNL) + Get(counts, LEARNING)
  }

  /** The dictionary holds the positive tallies of its kind by stage, and no other key. */
  ghost predicate StageTable(counts: map<GateStage, nat>, kind: Kind, log: seq<Entry>) {
    forall s :: Get(counts, s) == Tally(At(kind, s), log) && (s in counts <==> Tally(At(kind, s), log) > 0)
  }

  ghost predicate RuleTable(counts: map<Rule, nat>, log: seq<Entry>) {
    forall r :: Get(counts, r) == Tally(By(r), log) && (r in counts <==> Tally(By(r), log) > 0)
  }

  lemma NewTables(kind: Kind)
    ensures StageTable(map[], kind, []) && RuleTable(map[], [])
  {
  }

  lemma BumpStage(counts: map<GateStage, nat>, kind: Kind, log: seq<Entry>, e: Entry)
    requires StageTable(counts, kind, log)
    ensures StageTable(if Selected(kind, e) then counts[e.stage := Get(counts, e.stage) + 1] else counts,
                       kind, log + [e])
  {
    hide Tally, Selected;
    forall s ensures Tally(At(kind, s), log + [e]) == Tally(At(kind, s), log) + One(Selected(kind, e) && e.stage == s) {
      TallyOneMore(At(kind, s), log, e);
    }
  }

  /** counts with the rules added. */
  ghost predicate RulesAdded(before: map<Rule, nat>, after: map<Rule, nat>, rules: seq<Rule>) {
    forall r :: Get(after, r) == Get(before, r) + multiset(rules)[r] && (r in after <==> r in before || r in rules)
  }

  method CountRules(byRule: map<Rule, nat>, rules: seq<Rule>) returns (r: map<Rule, nat>)
    ensures RulesAdded(byRule, r, rules)
  {
    r := byRule;
    for i := 0 to |rules|
      invariant RulesAdded(byRule, r, rules[..i])
    {
      assert rules[..i + 1] == rules[..i] + [rules[i]];
      r := r[rules[i] := Get(r, rules[i]) + 1];
    }
    assert rules[..|rules|] == rules;
  }

  lemma RulesOfRejection(before: map<Rule, nat>, after: map<Rule, nat>, log: seq<Entry>, e: Entry)
    requires RuleTable(before, log)
    requires if Selected(Rejections, e) && e.payload.GateReject? then RulesAdded(before, after, e.payload.rules)
             else after == before
    ensures RuleTable(after, log + [e])
  {
    hide Tally, Selected;
    forall r ensures Tally(By(r), log + [e]) == Tally(By(r), log) + Weight(By(r), e) {
      TallyOneMore(By(r), log, e);
    }
  }

  /** The tallies by stage add up to the tally. */
  lemma {:induction false} StagesAddUp(kind: Kind, log: seq<Entry>)
    ensures Tally(All(kind), log) ==
            Tally(At(kind, EDGE), log) + Tally(At(kind, LIQUIDITY), log) + Tally(At(kind, REGIME), log) +
            Tally(At(kind, SESSION), log) + Tally(At(kind, GREEK), log) + Tally(At(kind, OPERATIONAL), log) +
            Tally(At(kind, RISK_ENGINE), log) + Tally(At(kind, LIFECYCLE), log) + Tally(At(kind, FILL), log) +
            Tally(At(kind, PNL), log) + Tally(At(kind, LEARNING), log)
  {
    hide Weight;
    if |log| > 0 {
      StagesAddUp(kind, log[..|log| - 1]);
      WeightsAddUp(kind, log[|log| - 1]);
    }
  }

  lemma WeightsAddUp(kind: Kind, e: Entry)
    ensures Weight(All(kind), e) ==
            Weight(At(kind, EDGE), e) + Weight(At(kind, LIQUIDITY), e) + Weight(At(kind, REGIME), e) +
            Weight(At(kind, SESSION), e) + Weight(At(kind, GREEK), e) + Weight(At(kind, OPERATIONAL), e) +
            Weight(At(kind, RISK_ENGINE), e) + Weight(At(kind, LIFECYCLE), e) + Weight(At(kind, FILL), e) +
            Weight(At(kind, PNL), e) + Weight(At(kind, LEARNING), e)
  {
    hide Selected;
  }

  lemma TableTotal(counts: map<GateStage, nat>, kind: Kind, log: seq<Entry>)
    requires StageTable(counts, kind, log)
    ensures SumValues(counts) == Tally(All(kind), log)
  {
    hide Tally, Get;
    StagesAddUp(kind, log);
  }

  lemma {:induction false} AllEntries(log: seq<Entry>)
    ensures Tally(All(Entries), log) == |log|
  {
    if |log| > 0 {
      AllEntries(log[..|log| - 1]);
    }
  }

  /* ---- The rejection report ------------------------------------------------------------------ */

  datatype GateRejectionReport = GateRejectionReport(byStage: map<GateStage, nat>, byRule: map<Rule, nat>)

  /** gate_rejection_report. */
  method BuildRejectionReport(entries: seq<Entry>) returns (r: GateRejectionReport)
    ensures StageTable(r.byStage, Rejections, entries)
    ensures RuleTable(r.byRule, entries)
    ensures SumValues(r.byStage) == Tally(All(Rejections), entries)
  {
    hide Tally, Weight, StageTable, RuleTable, RulesAdded, SumValues;
    var byStage: map<GateStage, nat>, byRule: map<Rule, nat> := map[], map[];
    NewTables(Rejections);
    for i := 0 to |entries|
      invariant StageTable(byStage, Rejections, entries[..i])
      invariant RuleTable(byRule, entries[..i])
    {
      var e := entries[i];
      assert entries[..i + 1] == entries[..i] + [e];
      BumpStage(byStage, Rejections, entries[..i], e);
      ghost var before := byRule;
      if e.stage !in REPORT_STAGES {
        RulesOfRejection(before, byRule, entries[..i], e);
        continue;
      }
      if !e.payload.GateReject? && !e.payload.OrderDenied? {
        RulesOfRejection(before, byRule, entries[..i], e);
        continue;
      }
      byStage := byStage[e.stage := Get(byStage, e.stage) + 1];
      if e.payload.GateReject? {
        byRule := CountRules(byRule, e.payload.rules);
      }
      RulesOfRejection(before, byRule, entries[..i], e);
    }
    assert entries[..|entries|] == entries;
    TableTotal(byStage, Rejections, entries);
    r := GateRejectionReport(byStage, byRule);
  }

  /* ---- The overview --------------------------------------------------------------------------- */

  datatype JournalOverview = JournalOverview(
    stageCounts: map<GateStage, nat>,
    gateRejections: map<GateStage, nat>,
    strategies: set<string>,
    lastEntries: seq<Entry>)

  /** The non-empty strategy ids of a log. */
  function StrategiesOf(log: seq<Entry>): set<string> {
    set e | e in log && e.strategyId != "" :: e.strategyId
  }

  lemma OneMoreStrategy(log: seq<Entry>, e: Entry)
    ensures StrategiesOf(log + [e]) == StrategiesOf(log) + if e.strategyId != "" then {e.strategyId} else {}
  {
    forall id | id in StrategiesOf(log) ensures id in StrategiesOf(log + [e]) {
      var x :| x in log && x.strategyId != "" && x.strategyId == id;
      assert x in log + [e];
    }
    if e.strategyId != "" {
      assert e in log + [e];
    }
  }

  /** journal_overview. */
  method BuildOverview(entries: seq<Entry>) returns (r: JournalOverview)
    ensures StageTable(r.stageCounts, Entries, entries)
    ensures StageTable(r.gateRejections, GateRejects, entries)
    ensures SumValues(r.stageCounts) == |entries|
    ensures r.strategies == StrategiesOf(entries)
    ensures |r.lastEntries| == (if |entries| < 10 then |entries| else 10)
    ensures exists earlier :: entries == earlier + r.lastEntries
  {
    hide Tally, Weight, StageTable, SumValues, StrategiesOf;
    var stageCounts: map<GateStage, nat>, gateRejections: map<GateStage, nat> := map[], map[];
    var strategies: set<string> := {};
    NewTables(Entries);
    NewTables(GateRejects);
    NoStrategies();
    for i := 0 to |entries|
      invariant StageTable(stageCounts, Entries, entries[..i])
      invariant StageTable(gateRejections, GateRejects, entries[..i])
      invariant strategies == StrategiesOf(entries[..i])
    {
      var e := entries[i];
      assert entries[..i + 1] == entries[..i] + [e];
      BumpStage(stageCounts, Entries, entries[..i], e);
      BumpStage(gateRejections, GateRejects, entries[..i], e);
      OneMoreStrategy(entries[..i], e);
      stageCounts := stageCounts[e.stage := Get(stageCounts, e.stage) + 1];
      if e.strategyId != "" {
        strategies := strategies + {e.strategyId};
      }
      if e.stage in SUMMARY_STAGES && e.payload.GateReject? {
        gateRejections := gateRejections[e.stage := Get(gateRejections, e.stage) + 1];
      }
    }
    assert entries[..|entries|] == entries;
    TableTotal(stageCounts, Entries, entries);
    AllEntries(entries);
    var n := if |entries| < 10 then 0 else |entries| - 10;
    assert entries == entries[..n] + entries[n..];
    r := JournalOverview(stageCounts, gateRejections, strategies, entries[n..]);
  }

  lemma NoStrategies()
    ensures StrategiesOf([]) == {}
  {
  }

  /* ---- What the numbers mean -------------------------------------------------------------------- */

  /** What the two reports count, by the stages they leave out. */
  lemma CountedIff(e: Entry)
    ensures Selected(Rejections, e) <==>
            (e.payload.GateReject? || e.payload.OrderDenied?) && e.stage !in {LIFECYCLE, FILL, PNL, LEARNING}
    ensures Selected(GateRejects, e) <==>
            e.payload.GateReject? && e.stage !in {RISK_ENGINE, LIFECYCLE, FILL, PNL, LEARNING}
  {
    match e.stage {
      case EDGE =>
      case LIQUIDITY =>
      case REGIME =>
      case SESSION =>
      case GREEK =>
      case OPERATIONAL =>
      case RISK_ENGINE =>
      case _ => assert e.stage in {LIFECYCLE, FILL, PNL, LEARNING};
    }
  }

  lemma OtherStagesWeighNothing(stage: GateStage, e: Entry)
    ensures stage in {LIFECYCLE, FILL, PNL, LEARNING} ==> Weight(At(Rejections, stage), e) == 0
    ensures stage in {RISK_ENGINE, LIFECYCLE, FILL, PNL, LEARNING} ==> Weight(At(GateRejects, stage), e) == 0
  {
    CountedIff(e);
    hide Selected;
    if e.stage == stage {
      assert stage in {LIFECYCLE, FILL, PNL, LEARNING} ==> !Selected(Rejections, e);
      assert stage in {RISK_ENGINE, LIFECYCLE, FILL, PNL, LEARNING} ==> !Selected(GateRejects, e);
    }
  }

  /** The stages either report leaves out have no rejections in it, whatever was journalled there. */
  lemma {:induction false} OtherStagesAreEmpty(stage: GateStage, log: seq<Entry>)
    ensures stage in {LIFECYCLE, FILL, PNL, LEARNING} ==> Tally(At(Rejections, stage), log) == 0
    ensures stage in {RISK_ENGINE, LIFECYCLE, FILL, PNL, LEARNING} ==> Tally(At(GateRejects, stage), log) == 0
  {
    hide Weight;
    if |log| > 0 {
      OtherStagesAreEmpty(stage, log[..|log| - 1]);
      OtherStagesWeighNothing(stage, log[|log| - 1]);
    }
  }

  predicate IsDenialAt(e: Entry, stage: GateStage) {
    e.stage == stage && e.payload.OrderDenied?
  }

  /** No denial was recorded at the stage. */
  ghost predicate NoDenialAt(log: seq<Entry>, stage: GateStage) {
    forall k :: 0 <= k < |log| ==> !IsDenialAt(log[k], stage)
  }

  lemma OneMoreWithoutDenial(log: seq<Entry>, stage: GateStage)
    requires |log| > 0
    ensures NoDenialAt(log, stage) <==>
            NoDenialAt(log[..|log| - 1], stage) && !IsDenialAt(log[|log| - 1], stage)
  {
    hide IsDenialAt;
    var init := log[..|log| - 1];
    if NoDenialAt(log, stage) {
      forall k | 0 <= k < |init| ensures !IsDenialAt(init[k], stage) {
        assert init[k] == log[k];
      }
    }
    if NoDenialAt(init, stage) && !IsDenialAt(log[|log| - 1], stage) {
      forall k | 0 <= k < |log| ensures !IsDenialAt(log[k], stage) {
        assert k < |init| ==> log[k] == init[k];
      }
    }
  }

  /**
   * Per stage: no more gate rejections than report rejections, no more of these than entries; and
   * the two reports agree on a stage exactly when no denial was recorded there.
   */
  lemma {:induction false} ReportsNest(stage: GateStage, log: seq<Entry>)
    requires stage in REPORT_STAGES && stage != RISK_ENGINE
    ensures Tally(At(GateRejects, stage), log) <= Tally(At(Rejections, stage), log) <= Tally(At(Entries, stage), log)
    ensures Tally(At(GateRejects, stage), log) == Tally(At(Rejections, stage), log) <==> NoDenialAt(log, stage)
  {
    if |log| > 0 {
      hide NoDenialAt;
      ReportsNest(stage, log[..|log| - 1]);
      OneMoreWithoutDenial(log, stage);
    }
  }

  /** The report's total never exceeds the auditor's count, and equals it when no other stage refused. */
  lemma {:induction false} TotalIsAudited(log: seq<Entry>)
    ensures Tally(All(Rejections), log) <= ReadAll(log).rejectionRecords
    ensures Tally(All(Rejections), log) == ReadAll(log).rejectionRecords <==> ReadAll(log).refusedAt <= REPORT_STAGES
  {
    if |log| > 0 {
      TotalIsAudited(log[..|log| - 1]);
      hide ReadTransition, LegalEdge;
    }
  }

  /** The transitions of a log whose reason is gate_reject, greek_reject or order_denied. */
  function RejectionReturns(log: seq<Entry>): nat {
    if |log| == 0 then 0
    else
      var p := log[|log| - 1].payload;
      RejectionReturns(log[..|log| - 1]) + One(p.FsmTransition? && IsRejectionReturn(p.reason))
  }

  lemma {:induction false} ReturnsAreCounted(log: seq<Entry>)
    ensures ReadAll(log).rejectionReturns == RejectionReturns(log)
  {
    if |log| > 0 {
      ReturnsAreCounted(log[..|log| - 1]);
      hide LegalEdge;
    }
  }

  /**
   * On the journal of any run of a strategy the rejection report's total is the number of
   * transitions with reason gate_reject, greek_reject or order_denied.
   */
  lemma ReportMatchesRun(cfg: Config, events: seq<Event>)
    requires FreshRun(Initial(cfg), events)
    ensures var log := Run(Initial(cfg), events).journal;
            Tally(All(Rejections), log) == RejectionReturns(log)
  {
    hide ReadAll, Run, Tally, RejectionReturns;
    AcceptedRun(cfg, events);
    TotalIsAudited(Run(Initial(cfg), events).journal);
    ReturnsAreCounted(Run(Initial(cfg), events).journal);
  }
}
