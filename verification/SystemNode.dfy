/**
 * The selector and the node as objects: the loops that journal and publish verdicts, the bus that
 * hands each message to its subscribers, and the clock. Every method is proved to change the
 * values of all the objects involved exactly as TradingSystem says.
 */
module SystemNode {
  import opened Models
  import opened Messages
  import opened Diversification
  import opened Audit
  import opened StrategyFsm
  import opened StrategyActor
  import opened Selector
  import opened TradingSystem
  import opened StoredAudit
  import opened JournalLoad
  import opened SharedFile

  ghost predicate DistinctObjects(ss: seq<ReferenceStrategy>) {
    forall j, k :: 0 <= j < k < |ss| ==> ss[j] != ss[k]
  }

  /** The values of the subscribers. */
  ghost function Views(ss: seq<ReferenceStrategy>): (vs: seq<StrategyFsm.Strategy>)
    reads ss
    ensures |vs| == |ss| && forall k :: 0 <= k < |ss| ==> vs[k] == ss[k].View()
  {
    seq(|ss|, k requires 0 <= k < |ss| reads ss => ss[k].View())
  }

  lemma {:induction false} DeliverAllConcat(ss: seq<StrategyFsm.Strategy>, a: seq<Verdict>, b: seq<Verdict>,
                                            ins: Answers)
    ensures DeliverAll(ss, a + b, ins) == DeliverAll(DeliverAll(ss, a, ins), b, ins)
  {
    hide Deliver;
    if |b| == 0 {
      assert a + b == a;
    } else {
      var init := b[..|b| - 1];
      assert (a + b)[..|a + b| - 1] == a + init;
      DeliverAllConcat(ss, a, init, ins);
    }
  }

  lemma DeliverOneMore(ss: seq<StrategyFsm.Strategy>, vs: seq<Verdict>, v: Verdict, ins: Answers)
    ensures DeliverAll(ss, vs + [v], ins) == Deliver(DeliverAll(ss, vs, ins), v, ins)
  {
    hide Deliver;
    assert (vs + [v])[..|vs|] == vs;
  }

  lemma {:induction false} DeliveryLogConcat(ss: seq<StrategyFsm.Strategy>, a: seq<Verdict>, b: seq<Verdict>,
                                             ra: seq<seq<Entry>>, rb: seq<seq<Entry>>, ins: Answers)
    requires |ra| == |a| && |rb| == |b|
    ensures DeliveryLog(ss, a + b, ra + rb, ins) ==
            DeliveryLog(ss, a, ra, ins) + DeliveryLog(DeliverAll(ss, a, ins), b, rb, ins)
  {
    hide Deliver, Heard, DeliverAll;
    if |b| == 0 {
      assert a + b == a && ra + rb == ra;
    } else {
      var n := |b| - 1;
      assert (a + b)[..|a + b| - 1] == a + b[..n] && (ra + rb)[..|a + b| - 1] == ra + rb[..n];
      DeliveryLogConcat(ss, a, b[..n], ra, rb[..n], ins);
      DeliverAllConcat(ss, a, b[..n], ins);
    }
  }

  lemma LogOneMore(ss: seq<StrategyFsm.Strategy>, vs: seq<Verdict>, rs: seq<seq<Entry>>, v: Verdict, r: seq<Entry>,
                   ins: Answers)
    requires |rs| == |vs|
    ensures DeliveryLog(ss, vs + [v], rs + [r], ins) ==
            DeliveryLog(ss, vs, rs, ins) + r + Heard(DeliverAll(ss, vs, ins), v, ins)
  {
    hide Heard, DeliverAll;
    assert (vs + [v])[..|vs|] == vs && (rs + [r])[..|rs|] == rs;
  }

  lemma HeardOneMore(ss: seq<StrategyFsm.Strategy>, v: Verdict, ins: Answers, k: nat)
    requires k < |ss|
    ensures Heard(ss[..k + 1], v, ins) ==
            Heard(ss[..k], v, ins) + NewRecords(ss[k], Step(ss[k], VerdictEvent(v, ins(k))))
  {
    hide Step, NewRecords;
    assert ss[..k + 1][..k] == ss[..k];
  }

  lemma NothingPublished(ss: seq<StrategyFsm.Strategy>, ins: Answers)
    ensures RejectionJournal([]) == [] && DeliverAll(ss, Rejections([]), ins) == ss
    ensures DeliveryLog(ss, Rejections([]), RejectionRecords([]), ins) == []
  {
  }

  lemma NothingApproved(ss: seq<StrategyFsm.Strategy>, cfg: SelectorConfig, ins: Answers)
    ensures ApprovalJournal([], cfg) == [] && DeliverAll(ss, Approvals([], cfg), ins) == ss
    ensures DeliveryLog(ss, Approvals([], cfg), ApprovalRecordLists([], cfg), ins) == []
  {
  }

  lemma RejectOneMore(xs: seq<TradeIntent>, k: nat)
    requires k < |xs|
    ensures RejectionJournal(xs[..k + 1]) == RejectionJournal(xs[..k]) + [RejectionRecord(xs[k])]
    ensures Rejections(xs[..k + 1]) == Rejections(xs[..k]) + [RejectionOf(xs[k])]
    ensures RejectionRecords(xs[..k + 1]) == RejectionRecords(xs[..k]) + [[RejectionRecord(xs[k])]]
  {
    assert xs[..k + 1][..k] == xs[..k];
  }

  lemma ApproveOneMore(xs: seq<TradeIntent>, cfg: SelectorConfig, k: nat)
    requires k < |xs|
    ensures ApprovalJournal(xs[..k + 1], cfg) == ApprovalJournal(xs[..k], cfg) + ApprovalRecords(xs[k], cfg)
    ensures Approvals(xs[..k + 1], cfg) == Approvals(xs[..k], cfg) + [ApprovalOf(xs[k], cfg)]
    ensures ApprovalRecordLists(xs[..k + 1], cfg) == ApprovalRecordLists(xs[..k], cfg) + [ApprovalRecords(xs[k], cfg)]
  {
    hide ApprovalRecords, ApprovalOf;
    assert xs[..k + 1][..k] == xs[..k];
  }

  lemma NothingToFinalize(sel: SelectorState, ss: seq<StrategyFsm.Strategy>, ins: Answers)
    ensures |sel.buffer| == 0 ==> Finalized(sel) == sel
    ensures DeliverAll(ss, [], ins) == ss
  {
  }

  lemma WhatFinalizeDoes(sel: SelectorState)
    requires |sel.buffer| > 0
    ensures var a, r := Approved(sel.buffer, sel.cfg.policy), Rejected(sel.buffer, sel.cfg.policy);
            && Finalized(sel) ==
               sel.(buffer := [], journal := sel.journal + RejectionJournal(r) + ApprovalJournal(a, sel.cfg))
            && Verdicts(sel) == Rejections(r) + Approvals(a, sel.cfg)
            && Announcements(sel) == RejectionRecords(r) + ApprovalRecordLists(a, sel.cfg)
  {
    hide Approved, Rejected, RejectionJournal, ApprovalJournal, Rejections, Approvals, RejectionRecords,
      ApprovalRecordLists;
  }

  /** Delivering the verdicts is delivering the rejections and then the approvals, and so is what is journalled. */
  lemma FinalizeInTwoSteps(sel: SelectorState, ss: seq<StrategyFsm.Strategy>, ins: Answers)
    requires |sel.buffer| > 0
    ensures var a, r := Approved(sel.buffer, sel.cfg.policy), Rejected(sel.buffer, sel.cfg.policy);
            var mid := DeliverAll(ss, Rejections(r), ins);
            && DeliverAll(ss, Verdicts(sel), ins) == DeliverAll(mid, Approvals(a, sel.cfg), ins)
            && DeliveryLog(ss, Verdicts(sel), Announcements(sel), ins) ==
               DeliveryLog(ss, Rejections(r), RejectionRecords(r), ins) +
               DeliveryLog(mid, Approvals(a, sel.cfg), ApprovalRecordLists(a, sel.cfg), ins)
  {
    hide Approved, Rejected, Approvals, Rejections, Announcements, RejectionRecords, ApprovalRecordLists, DeliveryLog,
      DeliverAll, Verdicts, Finalized, RejectionJournal, ApprovalJournal;
    var a, r := Approved(sel.buffer, sel.cfg.policy), Rejected(sel.buffer, sel.cfg.policy);
    WhatFinalizeDoes(sel);
    DeliverAllConcat(ss, Rejections(r), Approvals(a, sel.cfg), ins);
    DeliveryLogConcat(ss, Rejections(r), Approvals(a, sel.cfg), RejectionRecords(r),
                      ApprovalRecordLists(a, sel.cfg), ins);
  }

  lemma Regroup(a: seq<Entry>, b: seq<Entry>, c: seq<Entry>, d: seq<Entry>)
    ensures a + b + c + d == a + (b + c + d) && a + b + d == a + (b + d)
  {
  }

  lemma NothingHeard(ss: seq<StrategyFsm.Strategy>, v: Verdict, ins: Answers)
    ensures Heard(ss[..0], v, ins) == []
  {
  }

  class SelectorActor {
    const cfg: SelectorConfig
    const subscribers: seq<ReferenceStrategy>
    const file: NodeJournal
    var buffer: seq<TradeIntent>
    var alert: Option<int>
    var journal: seq<Entry>

    function View(): SelectorState
      reads this
    {
      SelectorState(cfg, buffer, alert, journal)
    }

    /** The subscribers are different objects, and all write the file the selector writes. */
    ghost predicate Wired() {
      DistinctObjects(subscribers) && forall k :: 0 <= k < |subscribers| ==> subscribers[k].file == file
    }

    constructor (config: SelectorConfig, strategies: seq<ReferenceStrategy>, shared: NodeJournal)
      ensures cfg == config && subscribers == strategies && file == shared
      ensures View() == SelectorState(config, [], None, [])
    {
      cfg, subscribers, file := config, strategies, shared;
      buffer, alert, journal := [], None, [];
    }

    /** collect, with the re-arming of the alert. */
    method Collect(intent: TradeIntent, now: int)
      modifies this
      ensures View() == Selector.Collect(old(View()), intent, now)
    {
      buffer := buffer + [intent];
      alert := Some(now + cfg.batchInterval);
    }

    /** Journal.record, by the selector or by a handler it shares its journal with. */
    method Record(e: Entry)
      requires file.Valid()
      modifies this, file, file.store
      ensures file.Valid() && file.log == old(file.log) + [e]
      ensures View() == old(View()).(journal := old(journal) + [e])
    {
      hide file.Valid;
      journal := journal + [e];
      file.Append(e);
    }

    /** The bus calls the handler of every subscriber before publish returns. */
    method Publish(v: Verdict, ins: Answers)
      requires Wired() && file.Valid()
      modifies subscribers, file, file.store
      ensures file.Valid()
      ensures Views(subscribers) == Deliver(old(Views(subscribers)), v, ins)
      ensures file.log == old(file.log) + Heard(old(Views(subscribers)), v, ins)
    {
      hide Step, Heard, NewRecords, file.Valid, ReferenceStrategy.View;
      ghost var before := Views(subscribers);
      NothingHeard(before, v, ins);
      for k := 0 to |subscribers|
        invariant file.Valid()
        invariant forall j :: 0 <= j < k ==> subscribers[j].View() == Step(before[j], VerdictEvent(v, ins(j)))
        invariant forall j :: k <= j < |subscribers| ==> subscribers[j].View() == before[j]
        invariant file.log == old(file.log) + Heard(before[..k], v, ins)
      {
        HeardOneMore(before, v, ins, k);
        subscribers[k].Handle(VerdictEvent(v, ins(k)));
      }
      assert before[..|subscribers|] == before;
    }

    /** Record and publish one rejection. */
    method RejectOne(intent: TradeIntent, ins: Answers)
      requires Wired() && file.Valid()
      modifies this, subscribers, file, file.store
      ensures file.Valid()
      ensures View() == old(View()).(journal := old(journal) + [RejectionRecord(intent)])
      ensures Views(subscribers) == Deliver(old(Views(subscribers)), RejectionOf(intent), ins)
      ensures file.log ==
              old(file.log) + [RejectionRecord(intent)] + Heard(old(Views(subscribers)), RejectionOf(intent), ins)
    {
      hide Deliver, RejectionOf, RejectionRecord, Views, ReferenceStrategy.View, Heard, file.Valid;
      Record(RejectionRecord(intent));
      Publish(RejectionOf(intent), ins);
    }

    method PublishRejected(rejected: seq<TradeIntent>, ins: Answers)
      requires Wired() && file.Valid()
      modifies this, subscribers, file, file.store
      ensures file.Valid()
      ensures View() == old(View()).(journal := old(journal) + RejectionJournal(rejected))
      ensures Views(subscribers) == DeliverAll(old(Views(subscribers)), Rejections(rejected), ins)
      ensures file.log ==
              old(file.log) +
              DeliveryLog(old(Views(subscribers)), Rejections(rejected), RejectionRecords(rejected), ins)
    {
      hide Deliver, DeliverAll, Rejections, RejectionJournal, RejectionOf, RejectionRecord, Views,
        ReferenceStrategy.View, RejectionRecords, DeliveryLog, Heard, file.Valid;
      ghost var before := Views(subscribers);
      NothingPublished(before, ins);
      for k := 0 to |rejected|
        invariant file.Valid()
        invariant View() == old(View()).(journal := old(journal) + RejectionJournal(rejected[..k]))
        invariant Views(subscribers) == DeliverAll(before, Rejections(rejected[..k]), ins)
        invariant file.log ==
                  old(file.log) + DeliveryLog(before, Rejections(rejected[..k]), RejectionRecords(rejected[..k]), ins)
      {
        RejectOneMore(rejected, k);
        DeliverOneMore(before, Rejections(rejected[..k]), RejectionOf(rejected[k]), ins);
        LogOneMore(before, Rejections(rejected[..k]), RejectionRecords(rejected[..k]), RejectionOf(rejected[k]),
                   [RejectionRecord(rejected[k])], ins);
        Regroup(old(file.log), DeliveryLog(before, Rejections(rejected[..k]), RejectionRecords(rejected[..k]), ins),
                [RejectionRecord(rejected[k])], Heard(Views(subscribers), RejectionOf(rejected[k]), ins));
        RejectOne(rejected[k], ins);
      }
      assert rejected[..|rejected|] == rejected;
    }

    /** The record of the approval, and then that of the handler for its kind. */
    method RecordApproval(intent: TradeIntent) returns (kind: ActorKind)
      requires file.Valid()
      modifies this, file, file.store
      ensures file.Valid() && kind == Classify(intent, cfg)
      ensures View() == old(View()).(journal := old(journal) + ApprovalRecords(intent, cfg))
      ensures file.log == old(file.log) + ApprovalRecords(intent, cfg)
    {
      hide Classify, file.Valid;
      kind := Classify(intent, cfg);
      Record(Audit.Entry(LIFECYCLE, Some(intent.intentId), intent.strategyId,
                         SelectorApproved(intent.intentId, kind)));
      if kind.HUMAN? {
        Record(Audit.Entry(LIFECYCLE, Some(intent.intentId), intent.strategyId, HumanApprovalStub(intent.intentId)));
      } else {
        Record(Audit.Entry(LIFECYCLE, Some(intent.intentId), intent.strategyId,
                           Payload.AutomationApproved(intent.intentId)));
      }
      assert journal == old(journal) + ApprovalRecords(intent, cfg);
    }

    /** Classify, journal, let the handler journal, and publish; both handlers approve. */
    method RouteApproval(intent: TradeIntent, ins: Answers)
      requires Wired() && file.Valid()
      modifies this, subscribers, file, file.store
      ensures file.Valid()
      ensures View() == old(View()).(journal := old(journal) + ApprovalRecords(intent, cfg))
      ensures Views(subscribers) == Deliver(old(Views(subscribers)), ApprovalOf(intent, cfg), ins)
      ensures file.log ==
              old(file.log) + ApprovalRecords(intent, cfg) +
              Heard(old(Views(subscribers)), ApprovalOf(intent, cfg), ins)
    {
      hide Wired, Deliver, Classify, Views, ReferenceStrategy.View, Heard, ApprovalRecords, file.Valid;
      var kind := RecordApproval(intent);
      assert file.log == old(file.log) + ApprovalRecords(intent, cfg);
      Publish(Approve(ApprovedSnapshot(ToSnapshot(intent), kind)), ins);
    }

    method RouteAll(approved: seq<TradeIntent>, ins: Answers)
      requires Wired() && file.Valid()
      modifies this, subscribers, file, file.store
      ensures file.Valid()
      ensures View() == old(View()).(journal := old(journal) + ApprovalJournal(approved, cfg))
      ensures Views(subscribers) == DeliverAll(old(Views(subscribers)), Approvals(approved, cfg), ins)
      ensures file.log ==
              old(file.log) +
              DeliveryLog(old(Views(subscribers)), Approvals(approved, cfg), ApprovalRecordLists(approved, cfg), ins)
    {
      hide Deliver, DeliverAll, Approvals, ApprovalJournal, ApprovalOf, ApprovalRecords, Views,
        ReferenceStrategy.View, ApprovalRecordLists, DeliveryLog, Heard, file.Valid;
      ghost var before := Views(subscribers);
      NothingApproved(before, cfg, ins);
      for k := 0 to |approved|
        invariant file.Valid()
        invariant View() == old(View()).(journal := old(journal) + ApprovalJournal(approved[..k], cfg))
        invariant Views(subscribers) == DeliverAll(before, Approvals(approved[..k], cfg), ins)
        invariant file.log ==
                  old(file.log) +
                  DeliveryLog(before, Approvals(approved[..k], cfg), ApprovalRecordLists(approved[..k], cfg), ins)
      {
        ApproveOneMore(approved, cfg, k);
        DeliverOneMore(before, Approvals(approved[..k], cfg), ApprovalOf(approved[k], cfg), ins);
        LogOneMore(before, Approvals(approved[..k], cfg), ApprovalRecordLists(approved[..k], cfg),
                   ApprovalOf(approved[k], cfg), ApprovalRecords(approved[k], cfg), ins);
        Regroup(old(file.log),
                DeliveryLog(before, Approvals(approved[..k], cfg), ApprovalRecordLists(approved[..k], cfg), ins),
                ApprovalRecords(approved[k], cfg), Heard(Views(subscribers), ApprovalOf(approved[k], cfg), ins));
        RouteApproval(approved[k], ins);
      }
      assert approved[..|approved|] == approved;
    }

    /** finalize: the whole batch is judged, rejections before approvals. */
    method Finalize(ins: Answers) returns (routed: seq<TradeIntent>)
      requires Wired() && file.Valid()
      modifies this, subscribers, file, file.store
      ensures file.Valid()
      ensures View() == Finalized(old(View()))
      ensures Views(subscribers) ==
              DeliverAll(old(Views(subscribers)), if |old(buffer)| == 0 then [] else Verdicts(old(View())), ins)
      ensures file.log ==
              old(file.log) +
              if |old(buffer)| == 0 then []
              else DeliveryLog(old(Views(subscribers)), Verdicts(old(View())), Announcements(old(View())), ins)
      ensures routed == if |old(buffer)| == 0 then [] else Approved(old(buffer), cfg.policy)
    {
      hide Wired, Deliver, DeliverAll, Approved, Rejected, ApprovalJournal, RejectionJournal, Approvals, Rejections,
        Finalized, Verdicts, Views, ReferenceStrategy.View, Announcements, RejectionRecords, ApprovalRecordLists,
        DeliveryLog, file.Valid;
      ghost var before := Views(subscribers);
      NothingToFinalize(View(), before, ins);
      if |buffer| == 0 {
        return [];
      }
      var intents := buffer;
      WhatFinalizeDoes(View());
      FinalizeInTwoSteps(View(), before, ins);
      buffer := [];
      var approved, rejected := SelectIntents(intents, cfg.policy);
      PublishRejected(rejected, ins);
      Regroup(old(file.log), DeliveryLog(before, Rejections(rejected), RejectionRecords(rejected), ins), [],
              DeliveryLog(Views(subscribers), Approvals(approved, cfg), ApprovalRecordLists(approved, cfg), ins));
      RouteAll(approved, ins);
      routed := approved;
    }
  }

  class Node {
    const strategies: seq<ReferenceStrategy>
    const selector: SelectorActor
    const file: NodeJournal
    var now: int
    ghost var batchStart: int

    /** One file for all, and a file that holds what was written. */
    ghost predicate Valid()
      reads file, file.store
    {
      && selector.subscribers == strategies && selector.file == file && selector.Wired()
      && file.Valid()
    }

    ghost function View(): System
      reads this, strategies, selector, file
    {
      System(Views(strategies), selector.View(), file.log, now, batchStart)
    }

    constructor (actor: SelectorActor, time: int)
      requires actor.Wired() && actor.file.Valid()
      ensures Valid() && strategies == actor.subscribers && selector == actor && file == actor.file
      ensures View() == System(Views(actor.subscribers), actor.View(), actor.file.log, time, time)
    {
      strategies, selector, file := actor.subscribers, actor, actor.file;
      now, batchStart := time, time;
    }

    /** The selector's subscription to the intent topic. */
    method OnTradeIntent(m: TradeIntentSnapshot)
      requires Valid()
      modifies this, selector
      ensures Valid() && View() == TradingSystem.OnTradeIntent(old(View()), m)
    {
      hide FromSnapshot, file.Valid, Views;
      var intent := FromSnapshot(m);
      if intent.Some? {
        if |selector.buffer| == 0 {
          batchStart := now;
        }
        selector.Collect(intent.value, now);
      }
    }

    method Forward(ms: seq<TradeIntentSnapshot>)
      requires Valid()
      modifies this, selector
      ensures Valid() && View() == TradingSystem.Forward(old(View()), ms)
    {
      hide TradingSystem.OnTradeIntent, Valid;
      for k := 0 to |ms|
        invariant Valid() && View() == TradingSystem.Forward(old(View()), ms[..k])
      {
        assert ms[..k + 1][..k] == ms[..k];
        OnTradeIntent(ms[k]);
      }
      assert ms[..|ms|] == ms;
    }

    /** One callback of one strategy, and then the selector's handling of what it published. */
    method HandleStrategyEvent(n: nat, ev: Event)
      requires Valid() && n < |strategies|
      modifies this, strategies, selector, file, file.store
      ensures Valid() && View() == SystemStep(old(View()), StrategyEvent(n, ev))
    {
      hide Step, TradingSystem.Forward, NewRecords, file.Valid, ReferenceStrategy.View;
      var sent := |strategies[n].published|;
      ghost var s := strategies[n].View();
      PublishedIsField(strategies[n]);
      strategies[n].Handle(ev);
      assert Views(strategies) == old(Views(strategies))[n := Step(s, ev)];
      PublishedIsField(strategies[n]);
      var news := strategies[n].published;
      assert NewlyPublished(s, Step(s, ev)) == if sent <= |news| then news[sent..] else [];
      Forward(if sent <= |news| then news[sent..] else []);
    }

    /** The alert is disarmed and what is buffered is finalised. */
    method HandleAlert(ins: Answers)
      requires Valid()
      modifies this, strategies, selector, file, file.store
      ensures Valid() && View() == SystemStep(old(View()), AlertFires(ins))
    {
      hide Step, Finalized, DeliverAll, Verdicts, DeliveryLog, Announcements, Views, file.Valid, ReferenceStrategy.View;
      selector.alert := None;
      var _ := selector.Finalize(ins);
    }

    /** The selector stops: the alert is cancelled and what is buffered is finalised at once. */
    method StopSelector(ins: Answers)
      requires Valid()
      modifies this, strategies, selector, file, file.store
      ensures Valid() && View() == SystemStep(old(View()), AlertFires(ins))
    {
      hide Step, Finalized, DeliverAll, Verdicts, DeliveryLog, Announcements, Views, file.Valid, ReferenceStrategy.View;
      selector.alert := None;
      NothingToFinalize(selector.View(), Views(strategies), ins);
      if |selector.buffer| > 0 {
        var _ := selector.Finalize(ins);
      }
    }

    /** The node's own journal writes the same file. */
    method Write(nodeEvent: NodeEvent)
      requires Valid()
      modifies file, file.store
      ensures Valid() && View() == SystemStep(old(View()), NodeWrites(nodeEvent))
    {
      hide file.Valid, Views;
      file.Append(NodeRecord(nodeEvent));
    }

    /** One event of the engine or of the node. */
    method Handle(e: SystemEvent)
      requires Valid()
      modifies this, strategies, selector, file, file.store
      ensures Valid() && View() == SystemStep(old(View()), e)
    {
      hide Step, TradingSystem.Forward, Finalized, DeliverAll, Verdicts, DeliveryLog, Announcements, Valid,
        ReferenceStrategy.View;
      match e
      case StrategyEvent(n, ev) =>
        if n < |strategies| {
          HandleStrategyEvent(n, ev);
        }
      case AlertFires(ins) => HandleAlert(ins);
      case TimePasses(until) => now := until;
      case NodeWrites(nodeEvent) => Write(nodeEvent);
    }

    /** A whole run. */
    method HandleAll(es: seq<SystemEvent>)
      requires Valid()
      modifies this, strategies, selector, file, file.store
      ensures Valid() && View() == SystemRun(old(View()), es)
    {
      hide SystemStep, Valid, View;
      for k := 0 to |es|
        invariant Valid() && View() == SystemRun(old(View()), es[..k])
      {
        assert es[..k + 1][..k] == es[..k];
        Handle(es[k]);
      }
      assert es[..|es|] == es;
    }
  }

  lemma PublishedIsField(s: ReferenceStrategy)
    ensures s.View().published == s.published
  {
  }

  /** New objects for every configured strategy, the selector and the node, on one file with these contents. */
  method Assemble(cfgs: seq<Config>, sel: SelectorConfig, now: int, w: Writing, contents: string)
    returns (node: Node)
    requires Sound(w)
    ensures node.Valid() && node.file.writing == w && node.file.store.earlier == contents
    ensures fresh(node) && fresh(node.selector) && fresh(node.strategies) && fresh(node.file) && fresh(node.file.store)
    ensures node.View() == Start(cfgs, sel, now)
  {
    hide Initial, Sound;
    var file := new NodeJournal(w, contents);
    var objects: seq<ReferenceStrategy> := [];
    for k := 0 to |cfgs|
      invariant file.Valid() && file.log == []
      invariant |objects| == k && fresh(objects) && DistinctObjects(objects)
      invariant forall j :: 0 <= j < k ==> objects[j].View() == Initial(cfgs[j]) && objects[j].file == file
    {
      var s := new ReferenceStrategy(cfgs[k], file);
      objects := objects + [s];
    }
    var actor := new SelectorActor(sel, objects, file);
    node := new Node(actor, now);
    assert node.View().strategies == Start(cfgs, sel, now).strategies;
  }

  /**
   * The objects, assembled and driven through any run the engine allows, satisfy the invariant of
   * TradingSystem: what is proved of SystemRun is true of them. Behind what it held before, their file
   * holds the stored text of the run's records.
   */
  method RunSession(cfgs: seq<Config>, sel: SelectorConfig, now: int, es: seq<SystemEvent>, w: Writing,
                    contents: string)
    returns (node: Node)
    requires EnabledRun(Start(cfgs, sel, now), es) && Sound(w)
    ensures node.Valid()
    ensures node.View() == SystemRun(Start(cfgs, sel, now), es)
    ensures SystemInv(node.View())
    ensures node.file.store.text == contents + TextOf(StoredAll(w, SystemRun(Start(cfgs, sel, now), es).log))
  {
    hide SystemInv, SystemStep, Start, Sound;
    node := Assemble(cfgs, sel, now, w, contents);
    node.HandleAll(es);
    StartInv(cfgs, sel, now);
    SystemRunKeeps(Start(cfgs, sel, now), es);
  }
}
