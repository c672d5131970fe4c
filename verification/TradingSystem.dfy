/** N strategies and the selector on one synchronous bus, with a clock and one alert. */
module TradingSystem {
  import opened Models
  import opened Messages
  import opened Diversification
  import opened GreedyBounds
  import opened Gates
  import opened Audit
  import opened StrategyFsm
  import opened StrategyRuns
  import opened Selector

  /**
   * `log` is what the shared journal file holds, in the order of the writes. `batchStart` is a history
   * variable: when the batch in the buffer got its first intent.
   */
  datatype System = System(
    strategies: seq<StrategyFsm.Strategy>,
    selector: SelectorState,
    log: seq<Entry>,
    now: int,
    batchStart: int)

  /** What the engine answers each strategy while the verdicts of one batch are delivered. */
  type Answers = nat -> Inputs

  datatype SystemEvent =
    | StrategyEvent(index: nat, event: Event)    // anything but a verdict reaches one strategy
    | AlertFires(answers: Answers)               // the finalize alert
    | TimePasses(until: int)
    | NodeWrites(nodeEvent: NodeEvent)           // the node records an event of its own

  /* ---- Steps ------------------------------------------------------------------------------- */

  /** The selector's handler of one published intent. */
  function OnTradeIntent(sys: System, m: TradeIntentSnapshot): System {
    match FromSnapshot(m)
    case None => sys
    case Some(intent) =>
      sys.(selector := Collect(sys.selector, intent, sys.now),
           batchStart := if |sys.selector.buffer| == 0 then sys.now else sys.batchStart)
  }

  function Forward(sys: System, ms: seq<TradeIntentSnapshot>): System {
    if |ms| == 0 then sys else OnTradeIntent(Forward(sys, ms[..|ms| - 1]), ms[|ms| - 1])
  }

  function VerdictEvent(v: Verdict, i: Inputs): Event {
    match v
    case Approve(m) => IntentApproved(m, i)
    case Reject(m) => IntentRejected(m)
  }

  /** The bus hands one verdict to every subscribed strategy. */
  function Deliver(ss: seq<StrategyFsm.Strategy>, v: Verdict, ins: Answers): (r: seq<StrategyFsm.Strategy>)
    ensures |r| == |ss| && forall k :: 0 <= k < |ss| ==> r[k] == Step(ss[k], VerdictEvent(v, ins(k)))
  {
    seq(|ss|, k requires 0 <= k < |ss| => Step(ss[k], VerdictEvent(v, ins(k))))
  }

  function DeliverAll(ss: seq<StrategyFsm.Strategy>, vs: seq<Verdict>, ins: Answers): (r: seq<StrategyFsm.Strategy>)
    ensures |r| == |ss|
  {
    if |vs| == 0 then ss else Deliver(DeliverAll(ss, vs[..|vs| - 1], ins), vs[|vs| - 1], ins)
  }

  function SystemStep(sys: System, e: SystemEvent): System {
    match e
    case StrategyEvent(n, ev) =>
      if n >= |sys.strategies| then sys
      else
        var s := sys.strategies[n];
        var t := Step(s, ev);
        Forward(sys.(strategies := sys.strategies[n := t], log := sys.log + NewRecords(s, t)), NewlyPublished(s, t))
    case AlertFires(ins) =>
      var sel := sys.selector.(alert := None);
      sys.(strategies := DeliverAll(sys.strategies, if |sel.buffer| == 0 then [] else Verdicts(sel), ins),
           selector := Finalized(sel),
           log := sys.log +
                  if |sel.buffer| == 0 then []
                  else DeliveryLog(sys.strategies, Verdicts(sel), Announcements(sel), ins))
    case TimePasses(until) => sys.(now := until)
    case NodeWrites(nodeEvent) => sys.(log := sys.log + [NodeRecord(nodeEvent)])
  }

  /** The node's records carry no strategy id. */
  function NodeRecord(e: NodeEvent): Entry {
    Audit.Entry(LIFECYCLE, None, "", NodeLifecycle(e))
  }

  /** What the strategies journal when one verdict is handed to each in turn. */
  function Heard(ss: seq<StrategyFsm.Strategy>, v: Verdict, ins: Answers): seq<Entry> {
    if |ss| == 0 then []
    else
      var last := ss[|ss| - 1];
      Heard(ss[..|ss| - 1], v, ins) + NewRecords(last, Step(last, VerdictEvent(v, ins(|ss| - 1))))
  }

  /** What is journalled while verdicts are announced and delivered one after another. */
  function DeliveryLog(ss: seq<StrategyFsm.Strategy>, vs: seq<Verdict>, rs: seq<seq<Entry>>, ins: Answers): seq<Entry>
    requires |rs| == |vs|
  {
    if |vs| == 0 then []
    else
      var n := |vs| - 1;
      DeliveryLog(ss, vs[..n], rs[..n], ins) + rs[n] + Heard(DeliverAll(ss, vs[..n], ins), vs[n], ins)
  }

  function NewlyPublished(s: StrategyFsm.Strategy, t: StrategyFsm.Strategy): seq<TradeIntentSnapshot> {
    if |s.published| <= |t.published| then t.published[|s.published|..] else []
  }

  /**
   * Which events the engine and the id supply allow: verdicts come from the selector only, an
   * evaluation draws an id no strategy has used, the alert fires when it is due, and time does
   * not pass an armed alert.
   */
  predicate Enabled(sys: System, e: SystemEvent) {
    match e
    case StrategyEvent(n, ev) =>
      && n < |sys.strategies| && !ev.IntentApproved? && !ev.IntentRejected?
      && (ev.ChainArrived? || ev.QuoteTick? ==>
            forall k :: 0 <= k < |sys.strategies| ==> FreshId(sys.strategies[k], ev.inputs))
    case AlertFires(_) => sys.selector.alert.Some? && sys.selector.alert.value <= sys.now
    case TimePasses(until) =>
      sys.now <= until && (sys.selector.alert.Some? ==> until <= sys.selector.alert.value)
    case NodeWrites(_) => true
  }

  function SystemRun(sys: System, es: seq<SystemEvent>): System {
    if |es| == 0 then sys else SystemStep(SystemRun(sys, es[..|es| - 1]), es[|es| - 1])
  }

  predicate EnabledRun(sys: System, es: seq<SystemEvent>) {
    |es| == 0 || (EnabledRun(sys, es[..|es| - 1]) && Enabled(SystemRun(sys, es[..|es| - 1]), es[|es| - 1]))
  }

  function Start(cfgs: seq<Config>, sel: SelectorConfig, now: int): System {
    System(seq(|cfgs|, k requires 0 <= k < |cfgs| => Initial(cfgs[k])), SelectorState(sel, [], None, []), [], now, now)
  }

  /* ---- The invariant ------------------------------------------------------------------------- */

  function PendingOf(s: StrategyFsm.Strategy): seq<TradeIntent> {
    if s.pendingIntent.Some? then [s.pendingIntent.value] else []
  }

  /** The parked intents of all strategies, in strategy order. */
  function Parked(ss: seq<StrategyFsm.Strategy>): (xs: seq<TradeIntent>)
    ensures |xs| <= |ss|
  {
    if |ss| == 0 then [] else Parked(ss[..|ss| - 1]) + PendingOf(ss[|ss| - 1])
  }

  ghost predicate AllInv(ss: seq<StrategyFsm.Strategy>) {
    forall k :: 0 <= k < |ss| ==> Inv(ss[k])
  }

  /** No two strategies have decided on the same id. */
  ghost predicate IdsApart(ss: seq<StrategyFsm.Strategy>) {
    forall j, k :: 0 <= j < k < |ss| ==> Auditing(ss[j]).decided !! Auditing(ss[k]).decided
  }

  /** While a batch is open its alert is armed and due before one interval per buffered intent is over. */
  ghost predicate OnTime(sys: System) {
    var sel := sys.selector;
    if |sel.buffer| == 0 then sel.alert.None?
    else
      && sel.alert.Some? && sys.batchStart <= sys.now <= sel.alert.value
      && sel.alert.value <= sys.batchStart + |sel.buffer| * sel.cfg.batchInterval
  }

  /** The buffer holds exactly the parked intents, each once. */
  ghost predicate Corresponds(sys: System) {
    multiset(sys.selector.buffer) == multiset(Parked(sys.strategies))
  }

  ghost predicate SystemInv(sys: System) {
    AllInv(sys.strategies) && IdsApart(sys.strategies) && Corresponds(sys) && OnTime(sys)
  }

  /* ---- Parked intents -------------------------------------------------------------------------- */

  lemma Shuffle(a: multiset<TradeIntent>, b: multiset<TradeIntent>, q: multiset<TradeIntent>,
                x: multiset<TradeIntent>, y: multiset<TradeIntent>)
    requires a + x == b + y
    ensures (a + q) + x == (b + q) + y
  {
    assert (a + q) + x == (a + x) + q;
    assert (b + q) + y == (b + y) + q;
  }

  lemma Cancel(a: multiset<TradeIntent>, b: multiset<TradeIntent>, m: multiset<TradeIntent>)
    requires a + m == b + m
    ensures a == b
  {
    assert a == a + m - m && b == b + m - m;
  }

  lemma ParkedSplit(ss: seq<StrategyFsm.Strategy>)
    requires |ss| > 0
    ensures multiset(Parked(ss)) == multiset(Parked(ss[..|ss| - 1])) + multiset(PendingOf(ss[|ss| - 1]))
  {
    hide PendingOf;
  }

  lemma {:induction false} ParkedUpdate(ss: seq<StrategyFsm.Strategy>, n: nat, t: StrategyFsm.Strategy)
    requires n < |ss|
    ensures multiset(Parked(ss[n := t])) + multiset(PendingOf(ss[n])) ==
            multiset(Parked(ss)) + multiset(PendingOf(t))
  {
    hide PendingOf, Parked;
    var last, tt := |ss| - 1, ss[n := t];
    ParkedSplit(ss);
    ParkedSplit(tt);
    if n == last {
      assert tt[..last] == ss[..last];
    } else {
      assert tt[..last] == ss[..last][n := t] && tt[last] == ss[last];
      ParkedUpdate(ss[..last], n, t);
      Shuffle(multiset(Parked(tt[..last])), multiset(Parked(ss[..last])), multiset(PendingOf(ss[last])),
              multiset(PendingOf(ss[n])), multiset(PendingOf(t)));
    }
  }

  /** Every parked intent is some strategy's pending intent. */
  lemma {:induction false} ParkedOwner(ss: seq<StrategyFsm.Strategy>, x: TradeIntent) returns (n: nat)
    requires x in Parked(ss)
    ensures n < |ss| && ss[n].pendingIntent == Some(x)
  {
    if x in Parked(ss[..|ss| - 1]) {
      n := ParkedOwner(ss[..|ss| - 1], x);
    } else {
      n := |ss| - 1;
    }
  }

  lemma {:induction false} PendingIsParked(ss: seq<StrategyFsm.Strategy>, n: nat)
    requires n < |ss| && ss[n].pendingIntent.Some?
    ensures ss[n].pendingIntent.value in Parked(ss)
  {
    if n < |ss| - 1 {
      PendingIsParked(ss[..|ss| - 1], n);
    }
  }

  lemma PendingWasDecided(s: StrategyFsm.Strategy)
    requires Inv(s) && s.pendingIntent.Some?
    ensures s.pendingIntent.value.intentId in Auditing(s).decided
    ensures s.pendingIntent.value.strategyId == s.cfg.strategyId && s.cfg.selectorEnabled
    ensures s.pendingIntent.value.edge >= s.cfg.minEdge && s.state.PendingApproval?
  {
    hide ReadAll;
    AcceptedIds(s.journal);
  }

  lemma {:induction false} ParkedDistinct(ss: seq<StrategyFsm.Strategy>)
    requires AllInv(ss) && IdsApart(ss)
    ensures DistinctIds(Parked(ss))
  {
    hide Inv, ReadAll;
    if |ss| > 0 {
      var init, s := ss[..|ss| - 1], ss[|ss| - 1];
      ParkedDistinct(init);
      if s.pendingIntent.Some? {
        PendingWasDecided(s);
        forall x | x in Parked(init) ensures x.intentId != s.pendingIntent.value.intentId {
          var k := ParkedOwner(init, x);
          PendingWasDecided(ss[k]);
        }
      }
    }
  }

  lemma BufferDistinct(sys: System)
    requires SystemInv(sys)
    ensures DistinctIds(sys.selector.buffer) && |sys.selector.buffer| <= |sys.strategies|
  {
    hide AllInv, IdsApart, OnTime, DistinctIds, Parked;
    ParkedDistinct(sys.strategies);
    DistinctIdsOfPermutation(Parked(sys.strategies), sys.selector.buffer);
    assert |multiset(sys.selector.buffer)| == |multiset(Parked(sys.strategies))|;
  }

  /* ---- One strategy event ------------------------------------------------------------------------ */

  /** An event without a verdict parks nothing, or parks and publishes its one fresh intent. */
  ghost predicate ParksAtMostOne(s: StrategyFsm.Strategy, t: StrategyFsm.Strategy) {
    || SameOutbox(s, t)
    || (&& s.pendingIntent.None? && t.pendingIntent.Some?
        && t.published == s.published + [ToSnapshot(t.pendingIntent.value)])
  }

  lemma PipelineParks(s: StrategyFsm.Strategy, intent: TradeIntent, c: Context, i: Inputs)
    requires s.pendingIntent.None?
    ensures ParksAtMostOne(s, RunGatePipeline(s, intent, c, i))
    ensures Auditing(RunGatePipeline(s, intent, c, i)).decided == Auditing(s).decided + {intent.intentId}
  {
    hide PreGreek, RiskBreaches, ReadAll, Record, Transition, RefuseIntent, SubmitApprovedIntent, Continues;
  }

  lemma EvaluationParks(s: StrategyFsm.Strategy, c: Context, i: Inputs)
    requires s.pendingIntent.None?
    ensures ParksAtMostOne(s, BeginEvaluation(s, c, i))
    ensures Auditing(BeginEvaluation(s, c, i)).decided <= Auditing(s).decided + {i.freshId}
  {
    hide RunGatePipeline, ReadAll, Record, Continues;
    if ActorsReady(s) && i.builds {
      var e := Transition(s, Evaluating, Signal);
      PipelineParks(e, BuildIntent(e, c, i.freshId), c, i);
    }
  }

  lemma ChainParks(s: StrategyFsm.Strategy, chain: Structures.Chain, i: Inputs)
    requires Inv(s)
    ensures ParksAtMostOne(s, OnOptionChain(s, chain, i))
    ensures Auditing(OnOptionChain(s, chain, i)).decided <= Auditing(s).decided + {i.freshId}
  {
    hide BeginEvaluation, ReadAll, ContextFromChain, Continues;
    var t := s.(lastChainTs := Some(chain.ts));
    if t.state.Flat? && ContextFromChain(t, chain).Some? {
      EvaluationParks(t, ContextFromChain(t, chain).value, i);
    }
  }

  lemma TickParks(s: StrategyFsm.Strategy, ts: int, id: string, quote: Costs.Quote, i: Inputs)
    requires Inv(s)
    ensures ParksAtMostOne(s, OnQuoteTick(s, ts, id, quote, i))
    ensures Auditing(OnQuoteTick(s, ts, id, quote, i)).decided <= Auditing(s).decided + {i.freshId}
  {
    hide BeginEvaluation, ReadAll, ContextFromTick, Continues, FlattenPositions, CheckExitTriggers;
    var t := s.(lastQuoteTs := Some(ts));
    if t.state.Flat? && ContextFromTick(t, id, quote).Some? {
      EvaluationParks(t, ContextFromTick(t, id, quote).value, i);
    }
  }

  lemma StepParks(s: StrategyFsm.Strategy, e: Event)
    requires Inv(s) && !e.IntentApproved? && !e.IntentRejected?
    ensures ParksAtMostOne(s, Step(s, e))
    ensures Auditing(Step(s, e)).decided <=
            Auditing(s).decided + if e.ChainArrived? || e.QuoteTick? then {e.inputs.freshId} else {}
  {
    hide OnOptionChain, OnQuoteTick, OnOptionGreeks, OnSessionPhase, OnOrderFilled, OnOrderRejected, OnOrderDenied,
      OnStart, OnStop, ReadAll, Continues, ParseTag, Inv;
    match e
    case ChainArrived(chain, i) => ChainParks(s, chain, i);
    case QuoteTick(ts, id, quote, i) => TickParks(s, ts, id, quote, i);
    case _ =>
  }

  lemma ForwardOne(sys: System, x: TradeIntent)
    ensures Forward(sys, [ToSnapshot(x)]) ==
            sys.(selector := Collect(sys.selector, x, sys.now),
                 batchStart := if |sys.selector.buffer| == 0 then sys.now else sys.batchStart)
  {
    SnapshotRoundTrip(x, ToSnapshot(x));
    assert [ToSnapshot(x)][..0] == [];
    assert Forward(sys, []) == sys;
  }

  /** Re-arming moves the alert by at most one interval per collected intent. */
  lemma CollectOnTime(sys: System, x: TradeIntent)
    requires OnTime(sys)
    ensures OnTime(sys.(selector := Collect(sys.selector, x, sys.now),
                        batchStart := if |sys.selector.buffer| == 0 then sys.now else sys.batchStart))
  {
    var n, d := |sys.selector.buffer|, sys.selector.cfg.batchInterval;
    assert (n + 1) * d == n * d + d;
  }

  lemma StillApart(ss: seq<StrategyFsm.Strategy>, n: nat, t: StrategyFsm.Strategy, ids: set<IntentId>)
    requires IdsApart(ss) && n < |ss| && Auditing(t).decided <= Auditing(ss[n]).decided + ids
    requires forall k :: 0 <= k < |ss| ==> Auditing(ss[k]).decided !! ids
    ensures IdsApart(ss[n := t])
  {
    hide ReadAll;
  }

  /** Replacing strategy n by t keeps the per-strategy part of the invariant. */
  lemma StrategyEventKeepsStrategies(sys: System, n: nat, ev: Event)
    requires SystemInv(sys) && Enabled(sys, StrategyEvent(n, ev))
    ensures var ss := sys.strategies[n := Step(sys.strategies[n], ev)];
            AllInv(ss) && IdsApart(ss)
  {
    hide Inv, Step, ReadAll, OnTime, Corresponds, IdsApart;
    StepKeeps(sys.strategies[n], ev);
    StepParks(sys.strategies[n], ev);
    var ids: set<IntentId> := if ev.ChainArrived? || ev.QuoteTick? then {ev.inputs.freshId} else {};
    forall k | 0 <= k < |sys.strategies| ensures Auditing(sys.strategies[k]).decided !! ids {
      assert ids != {} ==> FreshId(sys.strategies[k], ev.inputs);
    }
    StillApart(sys.strategies, n, Step(sys.strategies[n], ev), ids);
  }

  /** The intermediate system: strategy n has stepped, its publications are not yet forwarded. */
  function Stepped(sys: System, n: nat, ev: Event): System
    requires n < |sys.strategies|
  {
    var s := sys.strategies[n];
    sys.(strategies := sys.strategies[n := Step(s, ev)], log := sys.log + NewRecords(s, Step(s, ev)))
  }

  lemma SilentEventKeeps(sys: System, n: nat, ev: Event)
    requires SystemInv(sys) && n < |sys.strategies| && SameOutbox(sys.strategies[n], Step(sys.strategies[n], ev))
    ensures SystemStep(sys, StrategyEvent(n, ev)) == Stepped(sys, n, ev)
    ensures Corresponds(Stepped(sys, n, ev))
  {
    hide Inv, Step, ReadAll, OnTime, AllInv, IdsApart, Parked;
    var s, t := sys.strategies[n], Step(sys.strategies[n], ev);
    assert NewlyPublished(s, t) == [];
    ParkedUpdate(sys.strategies, n, t);
    Cancel(multiset(Parked(sys.strategies[n := t])), multiset(Parked(sys.strategies)), multiset(PendingOf(s)));
  }

  lemma ParkingEventKeeps(sys: System, n: nat, ev: Event)
    requires SystemInv(sys) && n < |sys.strategies|
    requires var s, t := sys.strategies[n], Step(sys.strategies[n], ev);
             && s.pendingIntent.None? && t.pendingIntent.Some?
             && t.published == s.published + [ToSnapshot(t.pendingIntent.value)]
    ensures Corresponds(SystemStep(sys, StrategyEvent(n, ev)))
    ensures OnTime(SystemStep(sys, StrategyEvent(n, ev)))
    ensures SystemStep(sys, StrategyEvent(n, ev)).strategies == Stepped(sys, n, ev).strategies
  {
    hide Inv, Step, ReadAll, OnTime, AllInv, IdsApart, Parked, Collect;
    var s, t := sys.strategies[n], Step(sys.strategies[n], ev);
    var mid, x := Stepped(sys, n, ev), t.pendingIntent.value;
    assert NewlyPublished(s, t) == [ToSnapshot(x)];
    ParkedUpdate(sys.strategies, n, t);
    OnTimeIgnoresStrategies(sys, mid);
    ForwardOne(mid, x);
    CollectOnTime(mid, x);
    CollectAppends(mid, x);
  }

  lemma StrategyEventKeeps(sys: System, n: nat, ev: Event)
    requires SystemInv(sys) && Enabled(sys, StrategyEvent(n, ev))
    ensures SystemInv(SystemStep(sys, StrategyEvent(n, ev)))
  {
    StrategyEventKeepsStrategies(sys, n, ev);
    StepParksAt(sys, n, ev);
    hide Inv, Step, ReadAll, OnTime, AllInv, IdsApart, Corresponds, SystemStep;
    if SameOutbox(sys.strategies[n], Step(sys.strategies[n], ev)) {
      SilentEventKeeps(sys, n, ev);
      OnTimeIgnoresStrategies(sys, Stepped(sys, n, ev));
    } else {
      ParkingEventKeeps(sys, n, ev);
    }
  }

  lemma StepParksAt(sys: System, n: nat, ev: Event)
    requires SystemInv(sys) && Enabled(sys, StrategyEvent(n, ev))
    ensures ParksAtMostOne(sys.strategies[n], Step(sys.strategies[n], ev))
  {
    hide Inv, Step, ReadAll;
    StepParks(sys.strategies[n], ev);
  }

  lemma OnTimeIgnoresStrategies(sys: System, mid: System)
    requires OnTime(sys) && mid == sys.(strategies := mid.strategies, log := mid.log)
    ensures OnTime(mid)
  {
  }

  lemma CollectAppends(sys: System, x: TradeIntent)
    ensures multiset(Collect(sys.selector, x, sys.now).buffer) == multiset(sys.selector.buffer) + multiset{x}
  {
  }

  /* ---- The alert ----------------------------------------------------------------------------------- */

  /** The effect of a list of verdicts on one strategy. */
  function Hear(s: StrategyFsm.Strategy, vs: seq<Verdict>, i: Inputs): StrategyFsm.Strategy {
    if |vs| == 0 then s else Step(Hear(s, vs[..|vs| - 1], i), VerdictEvent(vs[|vs| - 1], i))
  }

  lemma {:induction false} DeliverIsPointwise(ss: seq<StrategyFsm.Strategy>, vs: seq<Verdict>, ins: Answers, n: nat)
    requires n < |ss|
    ensures DeliverAll(ss, vs, ins)[n] == Hear(ss[n], vs, ins(n))
  {
    hide Step;
    if |vs| > 0 {
      DeliverIsPointwise(ss, vs[..|vs| - 1], ins, n);
    }
  }

  /** A verdict about another intent, or to a strategy that parks nothing, changes nothing. */
  lemma UnconcernedStep(s: StrategyFsm.Strategy, v: Verdict, i: Inputs)
    requires s.pendingIntent.None? || s.pendingIntent.value.intentId != VerdictId(v)
    ensures Step(s, VerdictEvent(v, i)) == s
  {
    hide ReadAll, SubmitApprovedIntent;
  }

  lemma {:induction false} UnconcernedHear(s: StrategyFsm.Strategy, vs: seq<Verdict>, i: Inputs)
    requires forall k :: 0 <= k < |vs| ==> s.pendingIntent.None? || s.pendingIntent.value.intentId != VerdictId(vs[k])
    ensures Hear(s, vs, i) == s
  {
    hide Step;
    if |vs| > 0 {
      UnconcernedHear(s, vs[..|vs| - 1], i);
      UnconcernedStep(s, vs[|vs| - 1], i);
    }
  }

  /** v is the selector's verdict about x. */
  predicate Judges(v: Verdict, x: TradeIntent) {
    v == RejectionOf(x) || (v.Approve? && v.approved.snapshot == ToSnapshot(x))
  }

  lemma ApprovalStep(s: StrategyFsm.Strategy, m: ApprovedSnapshot, i: Inputs)
    requires s.state.PendingApproval? && s.pendingIntent.Some? && s.cfg.selectorEnabled
    requires s.pendingIntent.value.strategyId == s.cfg.strategyId && m.snapshot == ToSnapshot(s.pendingIntent.value)
    ensures Step(s, IntentApproved(m, i)) == SubmitApprovedIntent(s.(pendingIntent := None), s.pendingIntent.value, i)
    ensures Step(s, IntentApproved(m, i)).pendingIntent.None?
  {
    hide ReadAll, SubmitApprovedIntent, Continues, SameIds;
    SnapshotRoundTrip(s.pendingIntent.value, m.snapshot);
  }

  lemma RejectionStep(s: StrategyFsm.Strategy, m: RejectedSnapshot)
    requires s.state.PendingApproval? && s.pendingIntent.Some? && s.cfg.selectorEnabled
    requires s.pendingIntent.value.strategyId == s.cfg.strategyId
    requires m == RejectedSnapshot(s.pendingIntent.value.intentId, s.pendingIntent.value.strategyId)
    ensures Step(s, IntentRejected(m)) == OnIntentRejected(s, m)
    ensures Step(s, IntentRejected(m)).pendingIntent.None?
  {
    hide ReadAll, Record, Continues, SameIds;
  }

  /** A verdict about the parked intent unparks it. */
  lemma ConcernedStep(s: StrategyFsm.Strategy, v: Verdict, i: Inputs)
    requires Inv(s) && s.pendingIntent.Some? && Judges(v, s.pendingIntent.value)
    ensures v.Reject? ==> Step(s, VerdictEvent(v, i)) == OnIntentRejected(s, v.rejected)
    ensures v.Approve? ==> Step(s, VerdictEvent(v, i)) ==
                             SubmitApprovedIntent(s.(pendingIntent := None), s.pendingIntent.value, i)
    ensures Step(s, VerdictEvent(v, i)).pendingIntent.None?
    ensures Inv(Step(s, VerdictEvent(v, i)))
  {
    hide Inv, ReadAll, SubmitApprovedIntent, OnIntentRejected, Step;
    PendingWasDecided(s);
    StepKeeps(s, VerdictEvent(v, i));
    match v
    case Approve(m) => ApprovalStep(s, m, i);
    case Reject(m) => RejectionStep(s, m);
  }

  /** Of a list of verdicts with one about the parked intent, only that one counts. */
  lemma {:induction false} HearTheOne(s: StrategyFsm.Strategy, vs: seq<Verdict>, i: Inputs, k: nat)
    requires Inv(s) && s.pendingIntent.Some? && k < |vs|
    requires Judges(vs[k], s.pendingIntent.value)
    requires forall j :: 0 <= j < |vs| && j != k ==> VerdictId(vs[j]) != s.pendingIntent.value.intentId
    ensures Hear(s, vs, i) == Step(s, VerdictEvent(vs[k], i))
  {
    hide Step, Inv;
    var last := |vs| - 1;
    if k == last {
      UnconcernedHear(s, vs[..last], i);
    } else {
      HearTheOne(s, vs[..last], i, k);
      ConcernedStep(s, vs[k], i);
      UnconcernedStep(Step(s, VerdictEvent(vs[k], i)), vs[last], i);
    }
  }

  /** The intents the verdicts are about, in the order of publication. */
  function Judged(sel: SelectorState): seq<TradeIntent> {
    Rejected(sel.buffer, sel.cfg.policy) + Approved(sel.buffer, sel.cfg.policy)
  }

  lemma VerdictsMatchJudged(sel: SelectorState, k: nat)
    requires k < |Judged(sel)|
    ensures |Verdicts(sel)| == |Judged(sel)|
    ensures VerdictId(Verdicts(sel)[k]) == Judged(sel)[k].intentId
    ensures k < |Rejected(sel.buffer, sel.cfg.policy)| ==> Verdicts(sel)[k] == RejectionOf(Judged(sel)[k])
    ensures k >= |Rejected(sel.buffer, sel.cfg.policy)| ==> Verdicts(sel)[k] == ApprovalOf(Judged(sel)[k], sel.cfg)
  {
    hide Approved, Rejected;
  }

  /** Where x stands in the verdict order, and that approved means approved. */
  lemma JudgedOnce(sel: SelectorState, x: TradeIntent) returns (k: nat)
    requires DistinctIds(sel.buffer) && x in sel.buffer
    ensures k < |Judged(sel)| && Judged(sel)[k] == x && DistinctIds(Judged(sel))
    ensures k >= |Rejected(sel.buffer, sel.cfg.policy)| <==> x in Approved(sel.buffer, sel.cfg.policy)
  {
    hide Approved;
    var a, r := Approved(sel.buffer, sel.cfg.policy), Rejected(sel.buffer, sel.cfg.policy);
    DistinctIdsPartition(sel.buffer, sel.cfg.policy);
    assert multiset(Judged(sel)) == multiset(sel.buffer);
    MemberOfPermutation(sel.buffer, Judged(sel), x);
    k :| 0 <= k < |r + a| && (r + a)[k] == x;
    if k < |r| {
      assert x in r;
      assert x.intentId !in IdsOf(a);
    } else {
      assert x == a[k - |r|];
    }
  }

  /** t is s after its verdict, where F are the approved intents. */
  ghost predicate Outcome(s: StrategyFsm.Strategy, t: StrategyFsm.Strategy, F: set<TradeIntent>, i: Inputs) {
    && (s.pendingIntent.None? ==> t == s)
    && (s.pendingIntent.Some? && s.pendingIntent.value in F ==>
          t == SubmitApprovedIntent(s.(pendingIntent := None), s.pendingIntent.value, i))
    && (s.pendingIntent.Some? && s.pendingIntent.value !in F ==>
          t == OnIntentRejected(s, RejectedSnapshot(s.pendingIntent.value.intentId, s.pendingIntent.value.strategyId)))
  }

  /** The intents the selector would approve now. */
  ghost function ApprovedSet(sys: System): set<TradeIntent> {
    MembersOf(Approved(sys.selector.buffer, sys.selector.cfg.policy))
  }

  /** What the alert does to one strategy. */
  lemma AlertOutcome(sys: System, ins: Answers, n: nat)
    requires SystemInv(sys) && n < |sys.strategies|
    ensures var s := sys.strategies[n];
            var t := SystemStep(sys, AlertFires(ins)).strategies[n];
            && Outcome(s, t, ApprovedSet(sys), ins(n))
            && t.pendingIntent.None? && Inv(t) && SameIds(s, t) && t.cfg == s.cfg
  {
    hide Inv, ReadAll, Step, Approved, Rejected, SubmitApprovedIntent, OnIntentRejected, Verdicts, Judged, Finalized,
      OnTime, Parked, Continues;
    var s, sel := sys.strategies[n], sys.selector.(alert := None);
    var vs := if |sel.buffer| == 0 then [] else Verdicts(sel);
    DeliverIsPointwise(sys.strategies, vs, ins, n);
    if s.pendingIntent.None? {
      UnconcernedHear(s, vs, ins(n));
    } else {
      var x := s.pendingIntent.value;
      PendingIsParked(sys.strategies, n);
      MemberOfPermutation(sys.selector.buffer, Parked(sys.strategies), x);
      BufferDistinct(sys);
      var k := JudgedOnce(sel, x);
      VerdictsMatchJudged(sel, k);
      OnlyVerdict(sel, k);
      HearTheOne(s, vs, ins(n), k);
      ConcernedStep(s, vs[k], ins(n));
    }
  }

  lemma OnlyVerdict(sel: SelectorState, k: nat)
    requires k < |Judged(sel)| && DistinctIds(Judged(sel))
    ensures |Verdicts(sel)| == |Judged(sel)|
    ensures forall j :: 0 <= j < |Verdicts(sel)| && j != k ==> VerdictId(Verdicts(sel)[j]) != Judged(sel)[k].intentId
  {
    hide Judged, Verdicts, VerdictId;
    VerdictsMatchJudged(sel, k);
    forall j | 0 <= j < |Verdicts(sel)| && j != k ensures VerdictId(Verdicts(sel)[j]) != Judged(sel)[k].intentId {
      VerdictsMatchJudged(sel, j);
    }
  }

  lemma {:induction false} NobodyParked(ss: seq<StrategyFsm.Strategy>)
    requires forall k :: 0 <= k < |ss| ==> ss[k].pendingIntent.None?
    ensures Parked(ss) == []
  {
    if |ss| > 0 {
      NobodyParked(ss[..|ss| - 1]);
    }
  }

  lemma AlertEmpties(sys: System, ins: Answers)
    ensures var after := SystemStep(sys, AlertFires(ins));
            && |after.strategies| == |sys.strategies|
            && after.selector == Finalized(sys.selector.(alert := None))
            && after.selector.buffer == [] && after.selector.alert.None?
            && after.selector.cfg == sys.selector.cfg
  {
    hide Verdicts;
  }

  lemma AlertKeeps(sys: System, ins: Answers)
    requires SystemInv(sys)
    ensures SystemInv(SystemStep(sys, AlertFires(ins)))
    ensures Parked(SystemStep(sys, AlertFires(ins)).strategies) == []
    ensures SystemStep(sys, AlertFires(ins)).selector.buffer == []
  {
    hide SystemStep, Inv, ReadAll, Outcome, Continues, Finalized;
    var after := SystemStep(sys, AlertFires(ins));
    AlertEmpties(sys, ins);
    forall n | 0 <= n < |sys.strategies|
      ensures after.strategies[n].pendingIntent.None? && Inv(after.strategies[n])
      ensures SameIds(sys.strategies[n], after.strategies[n])
    {
      AlertOutcome(sys, ins, n);
    }
    NobodyParked(after.strategies);
    assert IdsApart(after.strategies);
  }

  /* ---- Runs ------------------------------------------------------------------------------------------ */

  lemma SystemStepKeeps(sys: System, e: SystemEvent)
    requires SystemInv(sys) && Enabled(sys, e)
    ensures SystemInv(SystemStep(sys, e))
  {
    match e
    case StrategyEvent(n, ev) => StrategyEventKeeps(sys, n, ev);
    case AlertFires(ins) => AlertKeeps(sys, ins);
    case _ =>
  }

  lemma {:induction false} StartInv(cfgs: seq<Config>, sel: SelectorConfig, now: int)
    ensures SystemInv(Start(cfgs, sel, now))
  {
    var sys := Start(cfgs, sel, now);
    forall k | 0 <= k < |cfgs| ensures Inv(sys.strategies[k]) && Auditing(sys.strategies[k]).decided == {} {
      InitialInv(cfgs[k]);
    }
    hide Inv;
    NobodyParked(sys.strategies);
  }

  lemma {:induction false} SystemRunKeeps(sys: System, es: seq<SystemEvent>)
    requires SystemInv(sys) && EnabledRun(sys, es)
    ensures SystemInv(SystemRun(sys, es))
  {
    hide SystemInv, SystemStep, Enabled;
    if |es| > 0 {
      SystemRunKeeps(sys, es[..|es| - 1]);
      SystemStepKeeps(SystemRun(sys, es[..|es| - 1]), es[|es| - 1]);
    }
  }
}
