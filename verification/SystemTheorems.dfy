/** What holds of the strategies and the selector together, over every run. */
module SystemTheorems {
  import opened Models
  import opened Messages
  import opened Diversification
  import opened GreedyBounds
  import opened Gates
  import opened Audit
  import opened StrategyFsm
  import opened StrategyRuns
  import opened Selector
  import opened TradingSystem
  import StrategyTheorems

  lemma ReachableInv(cfgs: seq<Config>, sel: SelectorConfig, now: int, es: seq<SystemEvent>)
    requires EnabledRun(Start(cfgs, sel, now), es)
    ensures SystemInv(SystemRun(Start(cfgs, sel, now), es))
    ensures SameConfigs(SystemRun(Start(cfgs, sel, now), es), cfgs, sel)
  {
    StartInv(cfgs, sel, now);
    SystemRunKeeps(Start(cfgs, sel, now), es);
    RunKeepsConfigs(cfgs, sel, now, es);
  }

  /** The components still have the configurations they started with. */
  ghost predicate SameConfigs(sys: System, cfgs: seq<Config>, sel: SelectorConfig) {
    && |sys.strategies| == |cfgs| && sys.selector.cfg == sel
    && forall k :: 0 <= k < |cfgs| ==> sys.strategies[k].cfg == cfgs[k]
  }

  lemma {:induction false} ForwardKeepsConfigs(sys: System, ms: seq<TradeIntentSnapshot>)
    ensures Forward(sys, ms).strategies == sys.strategies && Forward(sys, ms).selector.cfg == sys.selector.cfg
    ensures Forward(sys, ms).selector.journal == sys.selector.journal && Forward(sys, ms).log == sys.log
  {
    if |ms| > 0 {
      ForwardKeepsConfigs(sys, ms[..|ms| - 1]);
    }
  }

  lemma {:induction false} HearKeepsConfig(s: StrategyFsm.Strategy, vs: seq<Verdict>, i: Inputs)
    ensures Hear(s, vs, i).cfg == s.cfg
  {
    hide Step;
    if |vs| > 0 {
      HearKeepsConfig(s, vs[..|vs| - 1], i);
    }
  }

  lemma StepKeepsConfigs(sys: System, e: SystemEvent, cfgs: seq<Config>, sel: SelectorConfig)
    requires SameConfigs(sys, cfgs, sel)
    ensures SameConfigs(SystemStep(sys, e), cfgs, sel)
  {
    hide Step, Verdicts, NewlyPublished;
    match e
    case StrategyEvent(n, ev) =>
      if n < |sys.strategies| {
        var t := Step(sys.strategies[n], ev);
        ForwardKeepsConfigs(Stepped(sys, n, ev), NewlyPublished(sys.strategies[n], t));
      }
    case AlertFires(ins) =>
      var s := sys.selector.(alert := None);
      var vs := if |s.buffer| == 0 then [] else Verdicts(s);
      forall k | 0 <= k < |cfgs| ensures DeliverAll(sys.strategies, vs, ins)[k].cfg == cfgs[k] {
        DeliverIsPointwise(sys.strategies, vs, ins, k);
        HearKeepsConfig(sys.strategies[k], vs, ins(k));
      }
    case _ =>
  }

  lemma {:induction false} RunKeepsConfigs(cfgs: seq<Config>, sel: SelectorConfig, now: int, es: seq<SystemEvent>)
    ensures SameConfigs(SystemRun(Start(cfgs, sel, now), es), cfgs, sel)
  {
    hide SystemStep;
    if |es| > 0 {
      RunKeepsConfigs(cfgs, sel, now, es[..|es| - 1]);
      StepKeepsConfigs(SystemRun(Start(cfgs, sel, now), es[..|es| - 1]), es[|es| - 1], cfgs, sel);
    }
  }

  /* ---- Conservation -------------------------------------------------------------------------- */

  /**
   * After every callback the selector's buffer and the strategies in PendingApproval
   * correspond one to one: each such strategy's intent is in the buffer, each buffered intent
   * is pending with exactly one strategy, and no id occurs twice.
   */
  lemma PendingMatchesBuffer(cfgs: seq<Config>, sel: SelectorConfig, now: int, es: seq<SystemEvent>)
    requires EnabledRun(Start(cfgs, sel, now), es)
    ensures var sys := SystemRun(Start(cfgs, sel, now), es);
            && DistinctIds(sys.selector.buffer)
            && (forall k :: 0 <= k < |sys.strategies| && sys.strategies[k].state.PendingApproval? ==>
                  sys.strategies[k].pendingIntent.Some? && sys.strategies[k].pendingIntent.value in sys.selector.buffer)
            && (forall x :: x in sys.selector.buffer ==>
                  exists k :: 0 <= k < |sys.strategies| && PendingIn(sys.strategies[k], x))
            && (forall j, k, x :: 0 <= j < k < |sys.strategies| && PendingIn(sys.strategies[j], x) ==>
                  !PendingIn(sys.strategies[k], x))
  {
    ReachableInv(cfgs, sel, now, es);
    hide SystemRun, Inv, ReadAll, OnTime, Parked;
    var sys := SystemRun(Start(cfgs, sel, now), es);
    BufferDistinct(sys);
    forall k | 0 <= k < |sys.strategies| && sys.strategies[k].state.PendingApproval?
      ensures sys.strategies[k].pendingIntent.Some? && sys.strategies[k].pendingIntent.value in sys.selector.buffer
    {
      PendingStateHasIntent(sys.strategies[k]);
      PendingIsParked(sys.strategies, k);
      MemberOfPermutation(sys.selector.buffer, Parked(sys.strategies), sys.strategies[k].pendingIntent.value);
    }
    forall x | x in sys.selector.buffer
      ensures exists k :: 0 <= k < |sys.strategies| && PendingIn(sys.strategies[k], x)
    {
      MemberOfPermutation(sys.selector.buffer, Parked(sys.strategies), x);
      var k := ParkedOwner(sys.strategies, x);
      PendingStateHasIntent(sys.strategies[k]);
      assert PendingIn(sys.strategies[k], x);
    }
    forall j, k, x | 0 <= j < k < |sys.strategies| && PendingIn(sys.strategies[j], x)
      ensures !PendingIn(sys.strategies[k], x)
    {
      PendingWasDecided(sys.strategies[j]);
      if PendingIn(sys.strategies[k], x) {
        PendingWasDecided(sys.strategies[k]);
      }
    }
  }

  predicate PendingIn(s: StrategyFsm.Strategy, x: TradeIntent) {
    s.state.PendingApproval? && s.pendingIntent == Some(x)
  }

  lemma PendingStateHasIntent(s: StrategyFsm.Strategy)
    requires Inv(s)
    ensures s.state.PendingApproval? <==> s.pendingIntent.Some?
  {
    hide ReadAll;
  }

  /**
   * Whenever the batch is finalised, by the alert or because the selector stops, every pending
   * strategy gets exactly its verdict: an approved intent is
   * submitted as it was gated, field for field, a rejected one sends its strategy back to
   * Flat. Nobody is left pending, and the strategies without a pending intent do not move.
   */
  lemma AlertSettlesTheBatch(cfgs: seq<Config>, sel: SelectorConfig, now: int, es: seq<SystemEvent>, ins: Answers,
                             n: nat)
    requires EnabledRun(Start(cfgs, sel, now), es) && n < |cfgs|
    ensures var sys := SystemRun(Start(cfgs, sel, now), es);
            var after := SystemStep(sys, AlertFires(ins));
            && |after.strategies| == |sys.strategies| == |cfgs|
            && after.selector.buffer == [] && !after.strategies[n].state.PendingApproval?
            && var s, t := sys.strategies[n], after.strategies[n];
            && (s.pendingIntent.None? ==> t == s)
            && (s.pendingIntent.Some? && s.pendingIntent.value in Approved(sys.selector.buffer, sel.policy) ==>
                  && t.activeIntent == s.pendingIntent
                  && HasSubmitted(t.journal, s.pendingIntent.value.intentId)
                  && HasPassed(s.journal, s.pendingIntent.value.intentId))
            && (s.pendingIntent.Some? && s.pendingIntent.value !in Approved(sys.selector.buffer, sel.policy) ==>
                  && t.state.Flat? && HasDeclined(t.journal, s.pendingIntent.value.intentId)
                  && t.calls == s.calls)
  {
    ReachableInv(cfgs, sel, now, es);
    var sys := SystemRun(Start(cfgs, sel, now), es);
    hide SystemRun;
    AlertSettlesOne(sys, ins, n);
  }

  lemma AlertSettlesOne(sys: System, ins: Answers, n: nat)
    requires SystemInv(sys) && n < |sys.strategies|
    ensures var after := SystemStep(sys, AlertFires(ins));
            && |after.strategies| == |sys.strategies|
            && after.selector.buffer == [] && !after.strategies[n].state.PendingApproval?
            && var s, t := sys.strategies[n], after.strategies[n];
            && (s.pendingIntent.None? ==> t == s)
            && (s.pendingIntent.Some? &&
                s.pendingIntent.value in Approved(sys.selector.buffer, sys.selector.cfg.policy) ==>
                  && t.activeIntent == s.pendingIntent
                  && HasSubmitted(t.journal, s.pendingIntent.value.intentId)
                  && HasPassed(s.journal, s.pendingIntent.value.intentId))
            && (s.pendingIntent.Some? &&
                s.pendingIntent.value !in Approved(sys.selector.buffer, sys.selector.cfg.policy) ==>
                  && t.state.Flat? && HasDeclined(t.journal, s.pendingIntent.value.intentId)
                  && t.calls == s.calls)
  {
    hide Inv, ReadAll, SubmitApprovedIntent, OnIntentRejected, Approved, HasSubmitted, HasPassed, HasDeclined, OnTime,
      Parked, SystemStep;
    AlertOutcome(sys, ins, n);
    AlertEmpties(sys, ins);
    var s, t := sys.strategies[n], SystemStep(sys, AlertFires(ins)).strategies[n];
    PendingStateHasIntent(t);
    if s.pendingIntent.Some? {
      PassedRecord(s);
      ApprovalSubmits(s, ins(n));
      RejectionDeclines(s);
    }
  }

  lemma PassedRecord(s: StrategyFsm.Strategy)
    requires Inv(s) && s.pendingIntent.Some?
    ensures HasPassed(s.journal, s.pendingIntent.value.intentId)
  {
    hide ReadAll;
    IdSetsAreRecords(s.journal, s.pendingIntent.value.intentId);
  }

  lemma OrderErrorKeepsSubmitted(s: StrategyFsm.Strategy, x: TradeIntent)
    ensures ReadAll(JournalOrderError(s, x).journal).submitted == ReadAll(s.journal).submitted
    ensures JournalOrderError(s, x).activeIntent == s.activeIntent
  {
    hide ReadAll, Continues, SameIds, SameVerdicts, SameOutbox, LegalEdge;
  }

  /** Submitting never forgets an id it has journalled. */
  lemma EntryKeepsSubmitted(s: StrategyFsm.Strategy, x: TradeIntent, i: Inputs)
    ensures ReadAll(SubmitEntry(s, x, i).journal).submitted == ReadAll(s.journal).submitted
    ensures SubmitEntry(s, x, i).activeIntent == s.activeIntent
  {
    hide ReadAll, Continues, SameIds, SameVerdicts, SameOutbox, EntryPriceEstimate, JournalOrderError, Read,
      BracketFor, Quiet;
    OrderErrorKeepsSubmitted(s, x);
  }

  lemma ApprovalSubmits(s: StrategyFsm.Strategy, i: Inputs)
    requires s.pendingIntent.Some?
    ensures var x := s.pendingIntent.value;
            var t := SubmitApprovedIntent(s.(pendingIntent := None), x, i);
            t.activeIntent == Some(x) && HasSubmitted(t.journal, x.intentId)
  {
    hide ReadAll, SubmitEntry, Continues, SameIds, SameVerdicts, SameOutbox;
    var x := s.pendingIntent.value;
    var c := Committed(s.(pendingIntent := None), x);
    EntryKeepsSubmitted(c, x, i);
    IdSetsAreRecords(SubmitEntry(c, x, i).journal, x.intentId);
  }

  lemma RejectionDeclines(s: StrategyFsm.Strategy)
    requires Inv(s) && s.pendingIntent.Some?
    ensures var x := s.pendingIntent.value;
            var t := OnIntentRejected(s, RejectedSnapshot(x.intentId, x.strategyId));
            t.state.Flat? && HasDeclined(t.journal, x.intentId) && t.calls == s.calls
  {
    PendingWasDecided(s);
    hide Inv, ReadAll, Continues, SameIds, SameVerdicts, SameOutbox;
    var x := s.pendingIntent.value;
    IdSetsAreRecords(OnIntentRejected(s, RejectedSnapshot(x.intentId, x.strategyId)).journal, x.intentId);
  }

  /** What a strategy parks is the intent it built from the context it was offered, unchanged. */
  lemma ParkedIsTheGatedIntent(s: StrategyFsm.Strategy, e: Event)
    requires Inv(s) && s.pendingIntent.None? && Step(s, e).pendingIntent.Some?
    ensures StrategyTheorems.Admits(s, e)
    ensures var (t, c) := StrategyTheorems.Offered(s, e).value;
            Step(s, e).pendingIntent == Some(BuildIntent(t, c, e.inputs.freshId))
  {
    hide BeginEvaluation, ReadAll, ContextFromChain, ContextFromTick, Continues, SameIds, SameVerdicts,
      StrategyTheorems.GatesOpen, FlattenPositions, CheckExitTriggers, SubmitApprovedIntent;
    match e
    case ChainArrived(chain, i) =>
      var t := s.(lastChainTs := Some(chain.ts));
      if t.state.Flat? && ContextFromChain(t, chain).Some? {
        EvaluationParksBuilt(t, ContextFromChain(t, chain).value, i);
      }
    case QuoteTick(ts, id, quote, i) =>
      var t := s.(lastQuoteTs := Some(ts));
      if t.state.Flat? && ContextFromTick(t, id, quote).Some? {
        EvaluationParksBuilt(t, ContextFromTick(t, id, quote).value, i);
      }
    case IntentApproved(m, i) =>
    case _ =>
  }

  lemma EvaluationParksBuilt(s: StrategyFsm.Strategy, c: Context, i: Inputs)
    requires s.pendingIntent.None? && BeginEvaluation(s, c, i).pendingIntent.Some?
    ensures BeginEvaluation(s, c, i).pendingIntent == Some(BuildIntent(s, c, i.freshId))
    ensures ActorsReady(s) && i.builds && StrategyTheorems.GatesOpen(s, c, i)
  {
    hide RunGatePipeline, ReadAll, SameIds, SameVerdicts, StrategyTheorems.GatesOpen;
    var e := Transition(s, Evaluating, Signal);
    assert BuildIntent(e, c, i.freshId) == BuildIntent(s, c, i.freshId);
    PipelineParksBuilt(e, BuildIntent(e, c, i.freshId), c, i);
    StrategyTheorems.SameGates(s, e, c, i);
  }

  lemma PipelineParksBuilt(s: StrategyFsm.Strategy, intent: TradeIntent, c: Context, i: Inputs)
    requires s.pendingIntent.None?
    requires intent.edge == c.edge && intent.liquidity == c.liquidity && intent.regimeTag == s.regimeTag
    ensures RunGatePipeline(s, intent, c, i).pendingIntent.Some? ==>
              && RunGatePipeline(s, intent, c, i).pendingIntent == Some(intent)
              && StrategyTheorems.GatesOpen(s, c, i)
  {
    hide PreGreek, ReadAll, Record, Transition, RefuseIntent, SubmitApprovedIntent, Continues, SameIds, SameVerdicts,
      QuoteFresh, ChainFresh, StrategyTheorems.Recent;
    PreGreekPassesIff(intent, GateContextOf(s, c, i.now));
    StrategyTheorems.FreshMeansRecent(s, c, i.now);
  }

  /* ---- Totals over a run ------------------------------------------------------------------------ */

  /** Sums over all strategies of what their journals count. */
  function Submitted(ss: seq<StrategyFsm.Strategy>): nat {
    if |ss| == 0 then 0 else Submitted(ss[..|ss| - 1]) + ReadAll(ss[|ss| - 1].journal).submitCount
  }

  function Declined(ss: seq<StrategyFsm.Strategy>): nat {
    if |ss| == 0 then 0 else Declined(ss[..|ss| - 1]) + ReadAll(ss[|ss| - 1].journal).declinedCount
  }

  function Queued(ss: seq<StrategyFsm.Strategy>): nat {
    if |ss| == 0 then 0 else Queued(ss[..|ss| - 1]) + ReadAll(ss[|ss| - 1].journal).queuedCount
  }

  /** The selector's approvals are the strategies' submissions, its rejections their declines. */
  ghost predicate Balanced(sys: System) {
    && ApprovalCount(sys.selector.journal) == Submitted(sys.strategies)
    && RejectionCount(sys.selector.journal) == Declined(sys.strategies)
  }

  lemma {:induction false} QueuedAddsUp(ss: seq<StrategyFsm.Strategy>)
    requires AllInv(ss) && forall k :: 0 <= k < |ss| ==> ss[k].cfg.selectorEnabled
    ensures Queued(ss) == Submitted(ss) + Declined(ss) + |Parked(ss)|
  {
    hide ReadAll;
    if |ss| > 0 {
      QueuedAddsUp(ss[..|ss| - 1]);
      assert Inv(ss[|ss| - 1]);
    }
  }

  lemma {:induction false} SumsAfterUpdate(ss: seq<StrategyFsm.Strategy>, n: nat, t: StrategyFsm.Strategy)
    requires n < |ss| && SameVerdicts(ss[n], t)
    ensures Submitted(ss[n := t]) == Submitted(ss) && Declined(ss[n := t]) == Declined(ss)
  {
    hide ReadAll;
    var last := |ss| - 1;
    if n == last {
      assert ss[n := t][..last] == ss[..last];
    } else {
      assert ss[n := t][..last] == ss[..last][n := t] && ss[n := t][last] == ss[last];
      SumsAfterUpdate(ss[..last], n, t);
    }
  }

  lemma StepWithoutVerdict(s: StrategyFsm.Strategy, e: Event)
    requires s.cfg.selectorEnabled && !e.IntentApproved? && !e.IntentRejected?
    ensures SameVerdicts(s, Step(s, e))
  {
    hide OnOptionChain, OnQuoteTick, OnOptionGreeks, OnSessionPhase, OnOrderFilled, OnOrderRejected, OnOrderDenied,
      ReadAll, Continues, SameIds, SameOutbox, ParseTag;
  }

  /** The members of `chosen` among the parked intents of ss. */
  ghost function ParkedAmong(ss: seq<StrategyFsm.Strategy>, F: set<TradeIntent>): nat {
    |Chosen(Parked(ss), F)|
  }

  /** s to t is the alert's effect: submitted if parked in F, declined if parked outside F. */
  ghost predicate Settled(s: StrategyFsm.Strategy, t: StrategyFsm.Strategy, F: set<TradeIntent>) {
    && ReadAll(t.journal).submitCount == ReadAll(s.journal).submitCount +
       One(s.pendingIntent.Some? && s.pendingIntent.value in F)
    && ReadAll(t.journal).declinedCount == ReadAll(s.journal).declinedCount +
       One(s.pendingIntent.Some? && s.pendingIntent.value !in F)
  }

  lemma ChosenConcat(a: seq<TradeIntent>, x: TradeIntent, F: set<TradeIntent>)
    ensures |Chosen(a + [x], F)| == |Chosen(a, F)| + One(x in F)
  {
    assert (a + [x])[..|a|] == a;
  }

  lemma {:induction false} SettledSums(ss: seq<StrategyFsm.Strategy>, ts: seq<StrategyFsm.Strategy>,
                                       F: set<TradeIntent>)
    requires |ss| == |ts| && forall k :: 0 <= k < |ss| ==> Settled(ss[k], ts[k], F)
    ensures Submitted(ts) == Submitted(ss) + ParkedAmong(ss, F)
    ensures Declined(ts) == Declined(ss) + |Parked(ss)| - ParkedAmong(ss, F)
  {
    hide ReadAll;
    if |ss| > 0 {
      var n := |ss| - 1;
      assert Settled(ss[n], ts[n], F);
      SettledSums(ss[..n], ts[..n], F);
      if ss[n].pendingIntent.Some? {
        ChosenConcat(Parked(ss[..n]), ss[n].pendingIntent.value, F);
      } else {
        assert Parked(ss) == Parked(ss[..n]);
      }
    }
  }

  lemma EntryKeepsCounts(s: StrategyFsm.Strategy, x: TradeIntent, i: Inputs)
    ensures SameVerdicts(s, SubmitEntry(s, x, i))
  {
    hide SubmitEntry, ReadAll;
  }

  lemma ApprovalCounts(s: StrategyFsm.Strategy, x: TradeIntent, i: Inputs)
    ensures var t := SubmitApprovedIntent(s.(pendingIntent := None), x, i);
            && ReadAll(t.journal).submitCount == ReadAll(s.journal).submitCount + 1
            && ReadAll(t.journal).declinedCount == ReadAll(s.journal).declinedCount
  {
    hide SubmitEntry, ReadAll, Continues, SameIds, SameOutbox;
    EntryKeepsCounts(Committed(s.(pendingIntent := None), x), x, i);
  }

  lemma RejectionCounts(s: StrategyFsm.Strategy)
    requires Inv(s) && s.pendingIntent.Some?
    ensures var x := s.pendingIntent.value;
            var t := OnIntentRejected(s, RejectedSnapshot(x.intentId, x.strategyId));
            && ReadAll(t.journal).submitCount == ReadAll(s.journal).submitCount
            && ReadAll(t.journal).declinedCount == ReadAll(s.journal).declinedCount + 1
  {
    PendingWasDecided(s);
    hide Inv, ReadAll, Continues, SameIds, SameOutbox;
  }

  lemma OutcomeSettles(s: StrategyFsm.Strategy, t: StrategyFsm.Strategy, F: set<TradeIntent>, i: Inputs)
    requires Inv(s) && Outcome(s, t, F, i)
    ensures Settled(s, t, F)
  {
    hide ReadAll, SubmitApprovedIntent, OnIntentRejected, Inv;
    if s.pendingIntent.Some? {
      ApprovalCounts(s, s.pendingIntent.value, i);
      RejectionCounts(s);
    }
  }

  lemma AlertSettles(sys: System, ins: Answers, n: nat)
    requires SystemInv(sys) && n < |sys.strategies|
    ensures Settled(sys.strategies[n], SystemStep(sys, AlertFires(ins)).strategies[n], ApprovedSet(sys))
  {
    hide Outcome, Inv, ReadAll, SystemStep, OnTime, Settled, ApprovedSet;
    AlertEmpties(sys, ins);
    AlertOutcome(sys, ins, n);
    OutcomeSettles(sys.strategies[n], SystemStep(sys, AlertFires(ins)).strategies[n], ApprovedSet(sys), ins(n));
  }

  lemma ApprovedAmongParked(sys: System)
    requires SystemInv(sys)
    ensures var a := Approved(sys.selector.buffer, sys.selector.cfg.policy);
            && ParkedAmong(sys.strategies, MembersOf(a)) == |a|
            && |Parked(sys.strategies)| == |a| + |Rejected(sys.selector.buffer, sys.selector.cfg.policy)|
  {
    BufferDistinct(sys);
    hide AllInv, IdsApart, OnTime, Parked;
    var b, p := sys.selector.buffer, sys.selector.cfg.policy;
    var r := Ranked(b);
    var F := MembersOf(Approved(b, p));
    RankedSorts(b);
    DistinctIdsOfPermutation(b, r);
    assert r[..|r|] == r;
    GreedyIsChosen(r, |r|, p);
    TransferCaps(r, Parked(sys.strategies), F, p);
    DistinctIdsPartition(b, p);
    assert |multiset(Parked(sys.strategies))| == |multiset(Approved(b, p))| + |multiset(Rejected(b, p))|;
  }

  lemma AlertBalances(sys: System, ins: Answers)
    requires SystemInv(sys) && Balanced(sys)
    ensures Balanced(SystemStep(sys, AlertFires(ins)))
  {
    hide SystemStep, Inv, ReadAll, Finalized, Approved, Rejected, SystemInv, ParkedAmong, Settled, Parked;
    var after := SystemStep(sys, AlertFires(ins));
    AlertEmpties(sys, ins);
    forall n | 0 <= n < |sys.strategies| ensures Settled(sys.strategies[n], after.strategies[n], ApprovedSet(sys)) {
      AlertSettles(sys, ins, n);
    }
    SettledSums(sys.strategies, after.strategies, ApprovedSet(sys));
    FinalizedCounts(sys.selector.(alert := None));
    ApprovedAmongParked(sys);
  }

  lemma StepBalances(sys: System, e: SystemEvent)
    requires SystemInv(sys) && Enabled(sys, e) && Balanced(sys)
    requires forall k :: 0 <= k < |sys.strategies| ==> sys.strategies[k].cfg.selectorEnabled
    ensures Balanced(SystemStep(sys, e))
  {
    hide Inv, ReadAll, OnTime, Step, NewlyPublished, SystemInv;
    match e
    case StrategyEvent(n, ev) =>
      var s, t := sys.strategies[n], Step(sys.strategies[n], ev);
      StepWithoutVerdict(s, ev);
      SumsAfterUpdate(sys.strategies, n, t);
      ForwardKeepsConfigs(Stepped(sys, n, ev), NewlyPublished(s, t));
    case AlertFires(ins) => AlertBalances(sys, ins);
    case _ =>
  }

  lemma {:induction false} NothingCountedYet(ss: seq<StrategyFsm.Strategy>)
    requires forall k :: 0 <= k < |ss| ==> ss[k].journal == []
    ensures Submitted(ss) == 0 && Declined(ss) == 0
  {
    if |ss| > 0 {
      NothingCountedYet(ss[..|ss| - 1]);
    }
  }

  lemma {:induction false} RunBalances(cfgs: seq<Config>, sel: SelectorConfig, now: int, es: seq<SystemEvent>)
    requires EnabledRun(Start(cfgs, sel, now), es) && forall k :: 0 <= k < |cfgs| ==> cfgs[k].selectorEnabled
    ensures Balanced(SystemRun(Start(cfgs, sel, now), es))
  {
    hide SystemStep, SystemInv, Enabled;
    if |es| == 0 {
      NothingCountedYet(Start(cfgs, sel, now).strategies);
    } else {
      var before := es[..|es| - 1];
      RunBalances(cfgs, sel, now, before);
      ReachableInv(cfgs, sel, now, before);
      StepBalances(SystemRun(Start(cfgs, sel, now), before), es[|es| - 1]);
    }
  }

  /**
   * Conservation over a whole run: queued = approved + rejected + buffered, every approval is
   * one ORDER_SUBMIT and every rejection one return to Flat.
   */
  lemma IntentsAreConserved(cfgs: seq<Config>, sel: SelectorConfig, now: int, es: seq<SystemEvent>)
    requires EnabledRun(Start(cfgs, sel, now), es) && forall k :: 0 <= k < |cfgs| ==> cfgs[k].selectorEnabled
    ensures var sys := SystemRun(Start(cfgs, sel, now), es);
            && Queued(sys.strategies) ==
               ApprovalCount(sys.selector.journal) + RejectionCount(sys.selector.journal) + |sys.selector.buffer|
            && ApprovalCount(sys.selector.journal) == Submitted(sys.strategies)
            && RejectionCount(sys.selector.journal) == Declined(sys.strategies)
  {
    RunBalances(cfgs, sel, now, es);
    ReachableInv(cfgs, sel, now, es);
    var sys := SystemRun(Start(cfgs, sel, now), es);
    hide SystemRun, Inv, ReadAll, OnTime;
    QueuedAddsUp(sys.strategies);
    assert |multiset(sys.selector.buffer)| == |multiset(Parked(sys.strategies))|;
  }

  /* ---- Bounded delay ------------------------------------------------------------------------------ */

  /**
   * Although every intent re-arms the alert, an open batch is finalised no later than N batch
   * intervals after its first intent: until then the alert stays armed, it can always fire when
   * due, and the buffer never holds more than one intent per strategy.
   */
  lemma BatchIsFinalisedInTime(cfgs: seq<Config>, sel: SelectorConfig, now: int, es: seq<SystemEvent>, ins: Answers)
    requires EnabledRun(Start(cfgs, sel, now), es)
    ensures var sys := SystemRun(Start(cfgs, sel, now), es);
            && |sys.selector.buffer| <= |cfgs|
            && (|sys.selector.buffer| > 0 ==>
                  && sys.now <= sys.batchStart + |cfgs| * sel.batchInterval
                  && sys.selector.alert.Some?
                  && sys.selector.alert.value <= sys.batchStart + |cfgs| * sel.batchInterval
                  && Enabled(sys, TimePasses(sys.selector.alert.value))
                  && Enabled(SystemStep(sys, TimePasses(sys.selector.alert.value)), AlertFires(ins)))
            && (|sys.selector.buffer| == 0 ==> sys.selector.alert.None?)
  {
    ReachableInv(cfgs, sel, now, es);
    var sys := SystemRun(Start(cfgs, sel, now), es);
    hide SystemRun, Inv, ReadAll, AllInv, IdsApart, Corresponds, OnTime, SystemStep, Enabled;
    BufferDistinct(sys);
    OpenBatch(sys, |cfgs|, ins);
  }

  lemma OpenBatch(sys: System, n: nat, ins: Answers)
    requires OnTime(sys) && |sys.selector.buffer| <= n
    ensures |sys.selector.buffer| > 0 ==>
              var due := sys.selector.alert;
              && due.Some? && sys.now <= due.value <= sys.batchStart + n * sys.selector.cfg.batchInterval
              && Enabled(sys, TimePasses(due.value))
              && Enabled(SystemStep(sys, TimePasses(due.value)), AlertFires(ins))
    ensures |sys.selector.buffer| == 0 ==> sys.selector.alert.None?
  {
    Scale(|sys.selector.buffer|, n, sys.selector.cfg.batchInterval);
  }

  lemma Scale(m: nat, n: nat, d: nat)
    requires m <= n
    ensures m * d <= n * d
  {
  }

  /* ---- Optimality of the reachable batches ----------------------------------------------------------- */

  /** In a reachable batch each strategy has at most one intent, if their ids are distinct. */
  lemma OneIntentPerStrategy(cfgs: seq<Config>, sel: SelectorConfig, now: int, es: seq<SystemEvent>)
    requires EnabledRun(Start(cfgs, sel, now), es)
    requires forall j, k :: 0 <= j < k < |cfgs| ==> cfgs[j].strategyId != cfgs[k].strategyId
    ensures OnePerStrategy(SystemRun(Start(cfgs, sel, now), es).selector.buffer)
  {
    ReachableInv(cfgs, sel, now, es);
    var sys := SystemRun(Start(cfgs, sel, now), es);
    hide SystemRun, Inv, ReadAll, OnTime;
    ParkedOnePerStrategy(sys.strategies);
    ParkedDistinct(sys.strategies);
    OnePerStrategyOfPermutation(Parked(sys.strategies), sys.selector.buffer);
  }

  lemma {:induction false} ParkedOnePerStrategy(ss: seq<StrategyFsm.Strategy>)
    requires AllInv(ss)
    requires forall j, k :: 0 <= j < k < |ss| ==> ss[j].cfg.strategyId != ss[k].cfg.strategyId
    ensures OnePerStrategy(Parked(ss))
  {
    hide Inv, ReadAll;
    if |ss| > 0 {
      var init, s := ss[..|ss| - 1], ss[|ss| - 1];
      ParkedOnePerStrategy(init);
      if s.pendingIntent.Some? {
        PendingWasDecided(s);
        forall x | x in Parked(init) ensures x.strategyId != s.pendingIntent.value.strategyId {
          var k := ParkedOwner(init, x);
          PendingWasDecided(ss[k]);
        }
      }
    }
  }

  lemma BufferEdges(sys: System, x: TradeIntent)
    requires SystemInv(sys) && x in sys.selector.buffer
    requires forall k :: 0 <= k < |sys.strategies| ==> sys.strategies[k].cfg.minEdge >= 0.0
    ensures x.edge >= 0.0
  {
    hide Inv, ReadAll, OnTime, Parked;
    MemberOfPermutation(sys.selector.buffer, Parked(sys.strategies), x);
    var k := ParkedOwner(sys.strategies, x);
    PendingWasDecided(sys.strategies[k]);
  }

  /**
   * With distinct strategy ids and non-negative edge minima, in every reachable state the
   * intents the selector would approve have the maximum total edge of all selections of its
   * batch within top_n and the instrument cap; the strategy cap never refuses anything.
   */
  lemma ReachableBatchesAreOptimal(cfgs: seq<Config>, sel: SelectorConfig, now: int, es: seq<SystemEvent>, q: Policy)
    requires EnabledRun(Start(cfgs, sel, now), es)
    requires forall j, k :: 0 <= j < k < |cfgs| ==> cfgs[j].strategyId != cfgs[k].strategyId
    requires forall k :: 0 <= k < |cfgs| ==> cfgs[k].minEdge >= 0.0
    requires q == sel.policy.(maxPerStrategy := q.maxPerStrategy)
    ensures var b := SystemRun(Start(cfgs, sel, now), es).selector.buffer;
            Optimal(b, sel.policy) && Approved(b, q) == Approved(b, sel.policy)
  {
    OneIntentPerStrategy(cfgs, sel, now, es);
    ReachableInv(cfgs, sel, now, es);
    var sys := SystemRun(Start(cfgs, sel, now), es);
    var b, p := sys.selector.buffer, sel.policy;
    BufferDistinct(sys);
    hide SystemRun, Inv, ReadAll, OnTime, AllInv, IdsApart, Corresponds, Optimal, Greedy;
    RankedSorts(b);
    GreedyMembers(Ranked(b), p);
    forall x | x in Approved(b, p) ensures x.edge >= 0.0 {
      MemberOfPermutation(b, Ranked(b), x);
      BufferEdges(sys, x);
    }
    OptimalWhenNoLossApproved(b, p);
    OnePerStrategyOfPermutation(b, Ranked(b));
    StrategyCapInert(Ranked(b), p, q);
  }

  /* ---- When the alert is due -------------------------------------------------------------------------- */

  /** When an intent was last queued, after one more event; None once the batch was finalised. */
  function Requeued(sys: System, e: SystemEvent, queued: Option<int>): Option<int> {
    match e
    case StrategyEvent(n, ev) =>
      if n < |sys.strategies| && sys.strategies[n].published != Step(sys.strategies[n], ev).published
      then Some(sys.now) else queued
    case AlertFires(_) => None
    case _ => queued
  }

  /** The clock when an intent was last queued in a run, if that was after the last finalize. */
  function LastQueuedAt(sys: System, es: seq<SystemEvent>): Option<int> {
    if |es| == 0 then None
    else Requeued(SystemRun(sys, es[..|es| - 1]), es[|es| - 1], LastQueuedAt(sys, es[..|es| - 1]))
  }

  /** The alert is due a batch interval after this moment. */
  predicate DueAfter(sys: System, queued: Option<int>) {
    sys.selector.alert == match queued case None => None case Some(t) => Some(t + sys.selector.cfg.batchInterval)
  }

  lemma SilentEventArms(sys: System, n: nat, ev: Event, queued: Option<int>)
    requires SystemInv(sys) && n < |sys.strategies| && SameOutbox(sys.strategies[n], Step(sys.strategies[n], ev))
    requires DueAfter(sys, queued)
    ensures DueAfter(SystemStep(sys, StrategyEvent(n, ev)), queued)
  {
    hide SystemInv, Step, SystemStep, SameOutbox, Corresponds;
    SilentEventKeeps(sys, n, ev);
  }

  lemma ParkingEventArms(sys: System, n: nat, ev: Event)
    requires n < |sys.strategies|
    requires var s, t := sys.strategies[n], Step(sys.strategies[n], ev);
             t.pendingIntent.Some? && t.published == s.published + [ToSnapshot(t.pendingIntent.value)]
    ensures DueAfter(SystemStep(sys, StrategyEvent(n, ev)), Some(sys.now))
  {
    hide Step, NewRecords, TradingSystem.Forward;
    var s, t := sys.strategies[n], Step(sys.strategies[n], ev);
    assert NewlyPublished(s, t) == [ToSnapshot(t.pendingIntent.value)];
    ForwardOne(Stepped(sys, n, ev), t.pendingIntent.value);
  }

  lemma AlertDisarms(sys: System, ins: Answers)
    ensures DueAfter(SystemStep(sys, AlertFires(ins)), None)
  {
    hide SystemStep, Finalized;
    AlertEmpties(sys, ins);
  }

  lemma EventArms(sys: System, n: nat, ev: Event, queued: Option<int>)
    requires SystemInv(sys) && Enabled(sys, StrategyEvent(n, ev)) && DueAfter(sys, queued)
    ensures DueAfter(SystemStep(sys, StrategyEvent(n, ev)), Requeued(sys, StrategyEvent(n, ev), queued))
  {
    StepParksAt(sys, n, ev);
    hide SystemInv, Step, SystemStep, DueAfter, ToSnapshot;
    if SameOutbox(sys.strategies[n], Step(sys.strategies[n], ev)) {
      SilentEventArms(sys, n, ev, queued);
    } else {
      ParkingEventArms(sys, n, ev);
      SomethingPublished(sys.strategies[n], Step(sys.strategies[n], ev));
    }
  }

  lemma StepArms(sys: System, e: SystemEvent, queued: Option<int>)
    requires SystemInv(sys) && Enabled(sys, e) && DueAfter(sys, queued)
    ensures DueAfter(SystemStep(sys, e), Requeued(sys, e, queued))
  {
    hide SystemInv, Step, DeliverAll, DeliveryLog, Verdicts, Announcements, Finalized, TradingSystem.Forward;
    match e
    case StrategyEvent(n, ev) => EventArms(sys, n, ev, queued);
    case AlertFires(ins) => AlertDisarms(sys, ins);
    case _ =>
  }

  lemma SomethingPublished(s: StrategyFsm.Strategy, t: StrategyFsm.Strategy)
    requires t.pendingIntent.Some? && t.published == s.published + [ToSnapshot(t.pendingIntent.value)]
    ensures t.published != s.published
  {
    hide ToSnapshot;
    assert |t.published| == |s.published| + 1;
  }

  lemma {:induction false} RunArms(cfgs: seq<Config>, sel: SelectorConfig, now: int, es: seq<SystemEvent>)
    requires EnabledRun(Start(cfgs, sel, now), es)
    ensures DueAfter(SystemRun(Start(cfgs, sel, now), es), LastQueuedAt(Start(cfgs, sel, now), es))
  {
    if |es| > 0 {
      hide SystemStep, SystemInv, Start, Requeued, DueAfter, SameConfigs, Enabled;
      var init := es[..|es| - 1];
      RunArms(cfgs, sel, now, init);
      ReachableInv(cfgs, sel, now, init);
      StepArms(SystemRun(Start(cfgs, sel, now), init), es[|es| - 1], LastQueuedAt(Start(cfgs, sel, now), init));
    }
  }

  /**
   * Over any run the finalize alert is due exactly one batch interval after the last intent was queued: each
   * intent puts it off, and nothing else moves it.
   */
  lemma AlertFollowsLastIntent(cfgs: seq<Config>, sel: SelectorConfig, now: int, es: seq<SystemEvent>)
    requires EnabledRun(Start(cfgs, sel, now), es)
    ensures SystemRun(Start(cfgs, sel, now), es).selector.alert ==
            match LastQueuedAt(Start(cfgs, sel, now), es)
            case None => None
            case Some(t) => Some(t + sel.batchInterval)
  {
    hide SystemRun, LastQueuedAt, SystemInv;
    RunArms(cfgs, sel, now, es);
    ReachableInv(cfgs, sel, now, es);
  }
}
