/** The reports over loaded entries: what is stored of a record is enough for every number. */
module StoredReports {
  import opened Models
  import opened Messages
  import opened Gates
  import opened Audit
  import opened Json
  import opened JournalFile
  import opened StoredAudit
  import opened Reports

  predicate Says(r: Record, event: string) {
    Lookup(r.payload, "event") == Some(Text(event))
  }

  predicate RecordSelected(kind: Kind, r: Record) {
    match kind
    case Rejections => r.stage in REPORT_STAGES && (Says(r, "GATE_REJECT") || Says(r, "ORDER_DENIED"))
    case Entries => true
    case GateRejects => r.stage in SUMMARY_STAGES && Says(r, "GATE_REJECT")
  }

  /** payload.get("breached_rules", []) where that is a list. */
  function BreachedRules(ms: Members): Items {
    match Lookup(ms, "breached_rules")
    case Some(Array(items)) => items
    case _ => NoItems
  }

  /** How often the name occurs in the list. */
  function Mentions(xs: Items, name: string): nat {
    match xs
    case NoItems => 0
    case Item(head, tail) => One(head == Text(name)) + Mentions(tail, name)
  }

  /** How much one loaded entry adds to a number. */
  function RecordWeight(m: Measure, r: Record): nat {
    match m
    case All(kind) => One(RecordSelected(kind, r))
    case At(kind, stage) => One(RecordSelected(kind, r) && r.stage == stage)
    case By(rule) =>
      if RecordSelected(Rejections, r) then Mentions(BreachedRules(r.payload), RuleText(rule)) else 0
  }

  function RecordTally(m: Measure, rs: seq<Record>): nat {
    if |rs| == 0 then 0 else RecordTally(m, rs[..|rs| - 1]) + RecordWeight(m, rs[|rs| - 1])
  }

  /* ---- What is stored -------------------------------------------------------------------------- */

  lemma RejectionNames(p: Payload)
    ensures EventText(p) == "GATE_REJECT" <==> p.GateReject?
    ensures EventText(p) == "ORDER_DENIED" <==> p.OrderDenied?
  {
    if !p.GateReject? {
      assert EventText(p)[0] != 'G' || EventText(p)[1] != 'A';
    }
    if !p.OrderDenied? {
      assert EventText(p)[0] != 'O' || |EventText(p)| != 12 || EventText(p)[6] != 'D';
    }
  }

  lemma EventOfStored(w: Writing, n: nat, e: Audit.Entry)
    requires Fits(w.formats, w.details(n))
    ensures Lookup(Stored(w, n, e).payload, "event") == Some(Text(EventText(e.payload)))
  {
    hide StateText, RuleItems;
    assert "event"[0] == 'e' && "from"[0] == 'f' && "to"[0] == 't' && "breached_rules"[0] == 'b';
    var ms := Stored(w, n, e).payload;
    match e.payload
    case FsmTransition(_, _, _) =>
      assert Lookup(ms.rest.rest, "event").None?;
      assert Lookup(ms.rest, "event").None?;
    case GateReject(_, _) =>
      assert Lookup(ms.rest, "event").None?;
    case _ =>
  }

  lemma RulesOfStored(w: Writing, n: nat, e: Audit.Entry)
    requires Fits(w.formats, w.details(n))
    ensures BreachedRules(Stored(w, n, e).payload) ==
            if e.payload.GateReject? then RuleItems(e.payload.rules) else NoItems
  {
    hide StateText, RuleItems, EventText;
    assert "event"[0] == 'e' && "from"[0] == 'f' && "to"[0] == 't' && "breached_rules"[0] == 'b';
    var ms := Stored(w, n, e).payload;
    match e.payload
    case FsmTransition(_, _, _) =>
      assert Lookup(ms.rest.rest, "breached_rules").None?;
      assert Lookup(ms.rest, "breached_rules").None?;
    case GateReject(rules, _) =>
      assert Lookup(ms.rest, "breached_rules") == Some(Array(RuleItems(rules)));
    case _ =>
  }

  lemma StoredSelected(w: Writing, n: nat, e: Audit.Entry, kind: Kind)
    requires Fits(w.formats, w.details(n))
    ensures RecordSelected(kind, Stored(w, n, e)) == Selected(kind, e)
  {
    hide EventText, PayloadOf;
    RejectionNames(e.payload);
    EventOfStored(w, n, e);
  }

  /** The first letter of a rule name, and where two share it, a later one. */
  function Mark(name: string): (char, char)
    requires |name| > 8
  {
    (name[0], if name[0] != 'm' then ' ' else if name[1] == 'i' then name[4] else name[8])
  }

  lemma RuleMarks(rule: Rule)
    ensures |RuleText(rule)| > 8
    ensures Mark(RuleText(rule)) ==
            match rule
            case MinEdge => ('m', 'e')
            case MinLiquidity => ('m', 'l')
            case BlockedRegime(_) => ('b', ' ')
            case IntentRegime(_) => ('i', ' ')
            case SessionBlackout => ('s', ' ')
            case TradingStateInactive => ('t', ' ')
            case UnderlyingQuoteStale => ('u', ' ')
            case ChainSnapshotStale => ('c', ' ')
            case DailyLossBudget => ('d', ' ')
            case FeedUnhealthy => ('f', ' ')
            case MaxNetDelta => ('m', 'd')
            case MaxNetGamma => ('m', 'g')
            case MaxNetVega => ('m', 'v')
  {
    hide TagText;
  }

  /** Different rules have different names. */
  lemma RuleTextsDiffer(a: Rule, b: Rule)
    ensures RuleText(a) == RuleText(b) <==> a == b
  {
    if RuleText(a) == RuleText(b) {
      RuleMarks(a);
      RuleMarks(b);
      if a.BlockedRegime? {
        assert RuleText(a)[15..] == TagText(a.tag) && RuleText(b)[15..] == TagText(b.tag);
        TagRoundTrip(a.tag);
        TagRoundTrip(b.tag);
      } else if a.IntentRegime? {
        assert RuleText(a)[14..] == TagText(a.tag) && RuleText(b)[14..] == TagText(b.tag);
        TagRoundTrip(a.tag);
        TagRoundTrip(b.tag);
      }
    }
  }

  lemma {:induction false} MentionsOfRules(rules: seq<Rule>, rule: Rule)
    ensures Mentions(RuleItems(rules), RuleText(rule)) == multiset(rules)[rule]
  {
    hide RuleText;
    if |rules| > 0 {
      RuleTextsDiffer(rules[0], rule);
      MentionsOfRules(rules[1..], rule);
      assert rules == [rules[0]] + rules[1..];
    }
  }

  lemma StoredWeight(m: Measure, w: Writing, n: nat, e: Audit.Entry)
    requires Fits(w.formats, w.details(n))
    ensures RecordWeight(m, Stored(w, n, e)) == Weight(m, e)
  {
    hide RecordSelected, Selected, PayloadOf, Mentions, BreachedRules, RuleItems, RuleText;
    match m
    case All(kind) => StoredSelected(w, n, e, kind);
    case At(kind, _) => StoredSelected(w, n, e, kind);
    case By(rule) =>
      StoredSelected(w, n, e, Rejections);
      RulesOfStored(w, n, e);
      if e.payload.GateReject? {
        MentionsOfRules(e.payload.rules, rule);
      } else {
        NothingMentioned(RuleText(rule));
      }
  }

  lemma NothingMentioned(name: string)
    ensures Mentions(NoItems, name) == 0
  {
  }

  /** Every number of both reports is the same over the stored entries as over the records they store. */
  lemma {:induction false} StoredReport(m: Measure, w: Writing, log: seq<Audit.Entry>)
    requires Sound(w)
    ensures RecordTally(m, StoredAll(w, log)) == Tally(m, log)
  {
    hide Stored, RecordWeight, Weight, Fits;
    if |log| > 0 {
      var init, e := log[..|log| - 1], log[|log| - 1];
      StoredReport(m, w, init);
      StoredWeight(m, w, |init|, e);
      StoredOneMore(w, init, e);
      assert init + [e] == log;
      var rs := StoredAll(w, init);
      assert (rs + [Stored(w, |init|, e)])[..|rs|] == rs;
    }
  }
}
