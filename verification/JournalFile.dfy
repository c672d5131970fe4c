/** The journal on disk: one JSON object a line, appended; and the reader that tolerates a torn last line. */
module JournalFile {
  import opened Models
  import opened Json

  /** Which texts are UUIDs and which values are time stamps, as far as the reader is concerned. */
  datatype Formats = Formats(isUuid: string -> bool, isTime: Value -> bool)

  /**
   * A journal entry as it is stored; None where a line left out a field that the reader fills with a
   * new id or the current time.
   */
  datatype Record = Record(
    entryId: Option<string>,
    ts: Option<Value>,
    stage: GateStage,
    refId: Option<string>,
    strategyId: Option<string>,
    level: string,
    payload: Members)

  /** An entry the program created: it has an id and a time, and its payload can be written. */
  predicate Complete(f: Formats, r: Record) {
    && r.entryId.Some? && f.isUuid(r.entryId.value)
    && r.ts.Some? && r.ts.value.Text? && f.isTime(r.ts.value)
    && (r.refId.Some? ==> f.isUuid(r.refId.value))
    && WellFormedMembers(r.payload)
  }

  /* ---- One record -------------------------------------------------------------------------- */

  function StageText(s: GateStage): string {
    match s
    case EDGE => "EDGE"
    case LIQUIDITY => "LIQUIDITY"
    case REGIME => "REGIME"
    case SESSION => "SESSION"
    case GREEK => "GREEK"
    case OPERATIONAL => "OPERATIONAL"
    case RISK_ENGINE => "RISK_ENGINE"
    case LIFECYCLE => "LIFECYCLE"
    case FILL => "FILL"
    case PNL => "PNL"
    case LEARNING => "LEARNING"
  }

  /** The text of a stage is its name. */
  lemma StageNames()
    ensures StageText(EDGE) == "EDGE" && StageText(LIQUIDITY) == "LIQUIDITY" && StageText(REGIME) == "REGIME"
    ensures StageText(SESSION) == "SESSION" && StageText(GREEK) == "GREEK" && StageText(OPERATIONAL) == "OPERATIONAL"
    ensures StageText(RISK_ENGINE) == "RISK_ENGINE" && StageText(LIFECYCLE) == "LIFECYCLE" && StageText(FILL) == "FILL"
    ensures StageText(PNL) == "PNL" && StageText(LEARNING) == "LEARNING"
  {
  }

  const STAGES: seq<GateStage> :=
    [EDGE, LIQUIDITY, REGIME, SESSION, GREEK, OPERATIONAL, RISK_ENGINE, LIFECYCLE, FILL, PNL, LEARNING]

  /** The stage with this text, looking through the first n. */
  function StageAmong(text: string, n: nat): Option<GateStage>
    requires n <= |STAGES|
  {
    if n == 0 then None
    else if StageText(STAGES[n - 1]) == text then Some(STAGES[n - 1])
    else StageAmong(text, n - 1)
  }

  function OptionalText(o: Option<string>): (v: Value)
    ensures WellFormed(v)
  {
    if o.Some? then Text(o.value) else Null
  }

  function OptionalValue(o: Option<Value>): Value {
    if o.Some? then o.value else Null
  }

  function ToJson(r: Record): Value {
    Object(Member("entry_id", OptionalText(r.entryId),
           Member("ts", OptionalValue(r.ts),
           Member("stage", Text(StageText(r.stage)),
           Member("ref_id", OptionalText(r.refId),
           Member("strategy_id", OptionalText(r.strategyId),
           Member("level", Text(r.level),
           Member("payload", Object(r.payload), NoMembers))))))))
  }

  /** The last member with this key. */
  function Lookup(ms: Members, key: string): Option<Value> {
    match ms
    case NoMembers => None
    case Member(k, v, rest) =>
      var later := Lookup(rest, key);
      if later.Some? then later else if k == key then Some(v) else None
  }

  /** A field that may be absent but not null. */
  function DefaultedText(ms: Members, key: string): Option<Option<string>> {
    match Lookup(ms, key)
    case None => Some(None)
    case Some(Text(s)) => Some(Some(s))
    case _ => None
  }

  /** A field that may be absent or null. */
  function NullableText(ms: Members, key: string): Option<Option<string>> {
    if Lookup(ms, key) == Some(Null) then Some(None) else DefaultedText(ms, key)
  }

  /** The field is absent, null or the text of a UUID. */
  predicate UuidOrNone(f: Formats, o: Option<Option<string>>) {
    o.Some? && (o.value.Some? ==> f.isUuid(o.value.value))
  }

  /** The time stamp, which may be absent but not malformed. */
  function ReadTime(f: Formats, ms: Members): Option<Option<Value>> {
    match Lookup(ms, "ts")
    case None => Some(None)
    case Some(v) => if f.isTime(v) then Some(Some(v)) else None
  }

  function ReadStage(ms: Members): Option<GateStage> {
    match Lookup(ms, "stage")
    case Some(Text(s)) => StageAmong(s, |STAGES|)
    case _ => None
  }

  function ReadPayload(ms: Members): Option<Members> {
    match Lookup(ms, "payload")
    case None => Some(NoMembers)
    case Some(Object(p)) => Some(p)
    case _ => None
  }

  /** The entry a JSON value holds; unknown keys are ignored. */
  function FromJson(f: Formats, v: Value): Option<Record> {
    if !v.Object? then None
    else
      var ms := v.members;
      var entryId, ts, stage := DefaultedText(ms, "entry_id"), ReadTime(f, ms), ReadStage(ms);
      var refId, strategyId := NullableText(ms, "ref_id"), NullableText(ms, "strategy_id");
      var level, payload := DefaultedText(ms, "level"), ReadPayload(ms);
      if !UuidOrNone(f, entryId) || ts.None? || stage.None? || !UuidOrNone(f, refId) || strategyId.None? ||
         level.None? || payload.None?
      then None
      else
        Some(Record(entryId.value, ts.value, stage.value, refId.value, strategyId.value,
                    if level.value.Some? then level.value.value else "INFO", payload.value))
  }

  function Position(s: GateStage): (n: nat)
    ensures n < |STAGES| && STAGES[n] == s
  {
    match s
    case EDGE => 0
    case LIQUIDITY => 1
    case REGIME => 2
    case SESSION => 3
    case GREEK => 4
    case OPERATIONAL => 5
    case RISK_ENGINE => 6
    case LIFECYCLE => 7
    case FILL => 8
    case PNL => 9
    case LEARNING => 10
  }

  lemma StageRoundTrip(s: GateStage)
    ensures StageAmong(StageText(s), |STAGES|) == Some(s)
  {
    StageTextsDiffer();
    FindStage(Position(s), |STAGES|);
  }

  lemma {:induction false} FindStage(n: nat, m: nat)
    requires n < m <= |STAGES|
    requires forall i, j :: 0 <= i < j < |STAGES| ==> StageText(STAGES[i]) != StageText(STAGES[j])
    ensures StageAmong(StageText(STAGES[n]), m) == Some(STAGES[n])
  {
    hide StageText;
    if n < m - 1 {
      FindStage(n, m - 1);
    }
  }

  /** First letter, third letter and length tell the stage texts apart. */
  lemma StageTextsDiffer()
    ensures forall i, j :: 0 <= i < j < |STAGES| ==> StageText(STAGES[i]) != StageText(STAGES[j])
  {
    forall i, j | 0 <= i < j < |STAGES| ensures StageText(STAGES[i]) != StageText(STAGES[j]) {
      assert |StageText(STAGES[i])| != |StageText(STAGES[j])| || StageText(STAGES[i])[0] != StageText(STAGES[j])[0] ||
             StageText(STAGES[i])[2] != StageText(STAGES[j])[2];
    }
  }

  /** Each key of a stored entry finds its own value. */
  lemma Fields(r: Record)
    ensures var ms := ToJson(r).members;
            && Lookup(ms, "entry_id") == Some(OptionalText(r.entryId)) && Lookup(ms, "ts") == Some(OptionalValue(r.ts))
            && Lookup(ms, "stage") == Some(Text(StageText(r.stage)))
            && Lookup(ms, "ref_id") == Some(OptionalText(r.refId))
            && Lookup(ms, "strategy_id") == Some(OptionalText(r.strategyId))
            && Lookup(ms, "level") == Some(Text(r.level)) && Lookup(ms, "payload") == Some(Object(r.payload))
  {
    hide StageText, OptionalText, OptionalValue;
    KeysDiffer();
    var m1 := ToJson(r).members.rest;
    var m2 := m1.rest;
    var m3 := m2.rest;
    var m4 := m3.rest;
    var m5 := m4.rest;
    assert forall k :: Lookup(m5.rest, k) == if k == "payload" then Some(Object(r.payload)) else None;
    assert forall k :: Lookup(m5, k) == if k == "payload" then Some(Object(r.payload))
                                        else if k == "level" then Some(Text(r.level)) else None;
    assert Lookup(m4, "strategy_id") == Some(OptionalText(r.strategyId));
    assert forall k :: k != "strategy_id" ==> Lookup(m4, k) == Lookup(m5, k);
    assert Lookup(m3, "ref_id") == Some(OptionalText(r.refId));
    assert forall k :: k != "ref_id" ==> Lookup(m3, k) == Lookup(m4, k);
    assert Lookup(m2, "stage") == Some(Text(StageText(r.stage)));
    assert forall k :: k != "stage" ==> Lookup(m2, k) == Lookup(m3, k);
    assert Lookup(m1, "ts") == Some(OptionalValue(r.ts));
    assert forall k :: k != "ts" ==> Lookup(m1, k) == Lookup(m2, k);
  }

  lemma KeysDiffer()
    ensures "entry_id"[0] == 'e' && "ts"[0] == 't' && "stage"[1] == 't' && "strategy_id"[2] == 'r'
    ensures "ref_id"[0] == 'r' && "level"[0] == 'l' && "payload"[0] == 'p' && "stage"[2] == 'a' && "stage"[0] == 's'
    ensures "strategy_id"[0] == 's'
  {
  }

  /** Storing and reading an entry gives it back, every field. */
  lemma RecordRoundTrip(f: Formats, r: Record)
    requires Complete(f, r)
    ensures FromJson(f, ToJson(r)) == Some(r)
  {
    Fields(r);
    StageRoundTrip(r.stage);
    hide StageText, StageAmong, Lookup;
  }

  /** The least a line can say, and what the reader makes of it. */
  lemma ReaderDefaults(f: Formats, stage: GateStage)
    ensures FromJson(f, Object(Member("stage", Text(StageText(stage)), NoMembers))) ==
            Some(Record(None, None, stage, None, None, "INFO", NoMembers))
    ensures forall v: Value :: !v.Object? ==> FromJson(f, v).None?
  {
    StageRoundTrip(stage);
    KeysDiffer();
    hide StageText, StageAmong;
    var ms := Member("stage", Text(StageText(stage)), NoMembers);
    assert forall k :: Lookup(NoMembers, k).None?;
    assert forall k :: Lookup(ms, k) == if k == "stage" then Some(Text(StageText(stage))) else None;
  }

  /** Which values each field of a line may have: null is taken for an id of an intent or strategy only. */
  lemma ReaderAccepts(f: Formats, ms: Members)
    ensures FromJson(f, Object(ms)).Some? <==>
              && AcceptsAs(Lookup(ms, "entry_id"), false, s => f.isUuid(s))
              && AcceptsAs(Lookup(ms, "ref_id"), true, s => f.isUuid(s))
              && AcceptsAs(Lookup(ms, "strategy_id"), true, s => true)
              && AcceptsAs(Lookup(ms, "level"), false, s => true)
              && (Lookup(ms, "ts").Some? ==> f.isTime(Lookup(ms, "ts").value))
              && (Lookup(ms, "payload").Some? ==> Lookup(ms, "payload").value.Object?)
              && (exists stage: GateStage :: Lookup(ms, "stage") == Some(Text(StageText(stage))))
  {
    hide Lookup, StageText;
    StageReads(ms);
  }

  /** Absent, null where that is allowed, or a text that passes. */
  predicate AcceptsAs(o: Option<Value>, nullable: bool, passes: string -> bool) {
    match o
    case None => true
    case Some(Null) => nullable
    case Some(Text(s)) => passes(s)
    case _ => false
  }

  lemma {:induction false} StageAmongIs(text: string, n: nat)
    requires n <= |STAGES|
    ensures StageAmong(text, n).Some? ==> StageText(StageAmong(text, n).value) == text
  {
    hide StageText;
    if n > 0 {
      StageAmongIs(text, n - 1);
    }
  }

  lemma StageReads(ms: Members)
    ensures ReadStage(ms).Some? <==> exists stage: GateStage :: Lookup(ms, "stage") == Some(Text(StageText(stage)))
  {
    hide Lookup, StageText, StageAmong;
    if stage: GateStage :| Lookup(ms, "stage") == Some(Text(StageText(stage))) {
      StageRoundTrip(stage);
    }
    if ReadStage(ms).Some? {
      StageAmongIs(Lookup(ms, "stage").value.s, |STAGES|);
    }
  }

  lemma StoredIsWellFormed(f: Formats, r: Record)
    requires Complete(f, r)
    ensures WellFormed(ToJson(r))
  {
    hide StageText;
    var ms := ToJson(r).members;
    var last := ms.rest.rest.rest.rest.rest.rest;
    assert last == Member("payload", Object(r.payload), NoMembers) && WellFormed(last.value);
    assert WellFormedMembers(last);
    assert WellFormedMembers(ms.rest.rest.rest.rest.rest);
    assert WellFormedMembers(ms.rest.rest.rest.rest);
    assert WellFormedMembers(ms.rest.rest.rest);
    assert WellFormed(Text(StageText(r.stage)));
    assert WellFormedMembers(ms.rest.rest);
    assert WellFormed(OptionalValue(r.ts));
    assert WellFormedMembers(ms.rest);
  }
}
