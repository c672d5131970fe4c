/** Writing journal lines to a file, tearing the file anywhere, and loading it again. */
module JournalLoad {
  import opened Models
  import opened Json
  import opened JsonLaws
  import JsonGrammar
  import opened JournalFile

  datatype LoadError = DamagedLine

  /* ---- Writing --------------------------------------------------------------------------- */

  function LineOf(r: Record): string {
    Encode(ToJson(r)) + "\n"
  }

  /** The text a writer appends for these entries. */
  function TextOf(rs: seq<Record>): string {
    if |rs| == 0 then "" else LineOf(rs[0]) + TextOf(rs[1..])
  }

  ghost predicate AllComplete(f: Formats, rs: seq<Record>) {
    forall r :: r in rs ==> Complete(f, r)
  }

  /** A field of an entry's line, and the text after it. */
  function Field(key: string, v: Value, after: string): string {
    "\"" + key + "\": " + Encode(v) + after
  }

  lemma FieldFollows(key: string, v: Value, next: string, value: Value, rest: Members)
    requires forall c :: c in key ==> Plain(c)
    ensures MembersTo(Member(key, v, Member(next, value, rest)), "}") ==
            Field(key, v, ", " + MembersTo(Member(next, value, rest), "}"))
  {
    hide MembersTo, Encode, Plain;
    PlainMember(key, v, Member(next, value, rest), "}");
  }

  lemma LastField(key: string, v: Value)
    requires forall c :: c in key ==> Plain(c)
    ensures MembersTo(Member(key, v, NoMembers), "}") == Field(key, v, "}")
  {
    hide MembersTo, Encode, Plain;
    PlainMember(key, v, NoMembers, "}");
  }

  /** The text of an entry, field by field. */
  lemma EntryTextIs(r: Record)
    ensures Encode(ToJson(r)) ==
            "{" + Field("entry_id", OptionalText(r.entryId), ", " + Field("ts", OptionalValue(r.ts), ", " +
            Field("stage", Text(StageText(r.stage)), ", " + Field("ref_id", OptionalText(r.refId), ", " +
            Field("strategy_id", OptionalText(r.strategyId), ", " + Field("level", Text(r.level), ", " +
            Field("payload", Object(r.payload), "}")))))))
  {
    var m7 := Member("payload", Object(r.payload), NoMembers);
    var m6 := Member("level", Text(r.level), m7);
    var m5 := Member("strategy_id", OptionalText(r.strategyId), m6);
    var m4 := Member("ref_id", OptionalText(r.refId), m5);
    var m3 := Member("stage", Text(StageText(r.stage)), m4);
    var m2 := Member("ts", OptionalValue(r.ts), m3);
    ObjectTextIs(Member("entry_id", OptionalText(r.entryId), m2));
    hide ValueTo, MembersTo, CharsTo, OptionalText, OptionalValue, StageText, Encode, Field;
    LastField("payload", Object(r.payload));
    FieldFollows("level", Text(r.level), "payload", Object(r.payload), NoMembers);
    FieldFollows("strategy_id", OptionalText(r.strategyId), "level", Text(r.level), m7);
    FieldFollows("ref_id", OptionalText(r.refId), "strategy_id", OptionalText(r.strategyId), m6);
    FieldFollows("stage", Text(StageText(r.stage)), "ref_id", OptionalText(r.refId), m5);
    FieldFollows("ts", OptionalValue(r.ts), "stage", Text(StageText(r.stage)), m4);
    FieldFollows("entry_id", OptionalText(r.entryId), "ts", OptionalValue(r.ts), m3);
  }

  lemma ObjectTextIs(ms: Members)
    ensures Encode(Object(ms)) == "{" + MembersTo(ms, "}")
  {
    hide MembersTo;
    assert ['}'] + "" == "}";
  }

  /* ---- Reading --------------------------------------------------------------------------- */

  /** Universal newlines: the reader sees every line end as a line feed. */
  function Universal(t: string): string {
    if |t| == 0 then ""
    else if t[0] == '\r' then
      "\n" + Universal(if |t| > 1 && t[1] == '\n' then t[2..] else t[1..])
    else [t[0]] + Universal(t[1..])
  }

  /** str.isspace of one character. */
  predicate IsSpace(c: char) {
    var n := c as int;
    || 9 <= n <= 13 || 28 <= n <= 32 || n == 0x85 || n == 0xA0 || n == 0x1680 || 0x2000 <= n <= 0x200A
    || n == 0x2028 || n == 0x2029 || n == 0x202F || n == 0x205F || n == 0x3000
  }

  function LeftStrip(s: string): (r: string)
    ensures |s| > 0 && !IsSpace(s[0]) ==> r == s
  {
    if |s| > 0 && IsSpace(s[0]) then LeftStrip(s[1..]) else s
  }

  function RightStrip(s: string): (r: string)
    ensures |r| <= |s| && r == s[..|r|]
    ensures |s| > 0 && !IsSpace(s[0]) ==> |r| > 0
    ensures |s| > 0 && !IsSpace(s[|s| - 1]) ==> r == s
  {
    if |s| > 0 && IsSpace(s[|s| - 1]) then RightStrip(s[..|s| - 1]) else s
  }

  function Strip(s: string): string {
    RightStrip(LeftStrip(s))
  }

  lemma {:induction false} LeftStripIs(s: string)
    ensures exists n :: 0 <= n <= |s| && LeftStrip(s) == s[n..] && AllSpace(s[..n])
    ensures LeftStrip(s) != "" ==> !IsSpace(LeftStrip(s)[0])
  {
    if |s| > 0 && IsSpace(s[0]) {
      LeftStripIs(s[1..]);
      var n :| 0 <= n <= |s[1..]| && LeftStrip(s[1..]) == s[1..][n..] && AllSpace(s[1..][..n]);
      assert s[1..][n..] == s[n + 1..] && s[..n + 1] == [s[0]] + s[1..][..n];
    } else {
      assert s[0..] == s && AllSpace(s[..0]);
    }
  }

  lemma {:induction false} RightStripIs(s: string)
    ensures AllSpace(s[|RightStrip(s)|..])
    ensures RightStrip(s) != "" ==> !IsSpace(RightStrip(s)[|RightStrip(s)| - 1])
  {
    if |s| > 0 && IsSpace(s[|s| - 1]) {
      RightStripIs(s[..|s| - 1]);
      var n := |RightStrip(s)|;
      assert s[n..] == s[..|s| - 1][n..] + [s[|s| - 1]];
    }
  }

  predicate AllSpace(s: string) {
    forall k :: 0 <= k < |s| ==> IsSpace(s[k])
  }

  /** Stripping takes white space off both ends, and all of it. */
  lemma StripIs(s: string)
    ensures exists a, b :: Within(s, a, b) && Strip(s) == s[a..b]
    ensures Strip(s) != "" ==> !IsSpace(Strip(s)[0]) && !IsSpace(Strip(s)[|Strip(s)| - 1])
  {
    hide LeftStrip, RightStrip, IsSpace, AllSpace;
    LeftStripIs(s);
    var a :| 0 <= a <= |s| && LeftStrip(s) == s[a..] && AllSpace(s[..a]);
    var t, m := LeftStrip(s), |RightStrip(LeftStrip(s))|;
    RightStripIs(t);
    CutTwice(s, a, m);
    assert Within(s, a, a + m);
    assert Strip(s) == t[..m];
  }

  /** Between a and b is all of s but white space. */
  predicate Within(s: string, a: int, b: int) {
    0 <= a <= b <= |s| && AllSpace(s[..a]) && AllSpace(s[b..])
  }

  lemma CutTwice(s: string, a: nat, m: nat)
    requires a + m <= |s|
    ensures s[a..][..m] == s[a..a + m] && s[a..][m..] == s[a + m..]
  {
  }

  /** No carriage return is seen, and line ends of every kind are seen as line feeds. */
  lemma {:induction false} NoReturnIsSeen(t: string)
    ensures '\r' !in Universal(t)
    ensures Universal("\r\n" + t) == "\n" + Universal(t) && Universal("\n" + t) == "\n" + Universal(t)
    ensures t == "" || t[0] != '\n' ==> Universal("\r" + t) == "\n" + Universal(t)
    decreases |t|
  {
    if |t| > 0 {
      NoReturnIsSeen(if t[0] == '\r' && |t| > 1 && t[1] == '\n' then t[2..] else t[1..]);
    }
    assert ("\r\n" + t)[2..] == t && ("\n" + t)[1..] == t && ("\r" + t)[1..] == t;
  }

  /** Length of the first line, with its line feed if it has one. */
  function LineLength(t: string): (n: nat)
    requires |t| > 0
    ensures 0 < n <= |t| && (n < |t| ==> t[n - 1] == '\n')
    ensures forall k :: 0 <= k < n - 1 ==> t[k] != '\n'
  {
    if t[0] == '\n' || |t| == 1 then 1 else 1 + LineLength(t[1..])
  }

  predicate EndsLine(line: string) {
    |line| > 0 && line[|line| - 1] == '\n'
  }

  /** model_validate_json. */
  function DecodeRecord(f: Formats, s: string): Option<Record> {
    match Decode(s)
    case Some(v) => FromJson(f, v)
    case None => None
  }

  /** A text is read as an entry exactly if it is, by the JSON grammar, an object that holds one. */
  lemma RecordIsObject(f: Formats, s: string, r: Record)
    ensures DecodeRecord(f, s) == Some(r) <==>
            exists ms :: JsonGrammar.Padded(s, Object(ms)) && FromJson(f, Object(ms)) == Some(r)
  {
    hide Decode, FromJson, JsonGrammar.Padded;
    forall v ensures Decode(s) == Some(v) <==> JsonGrammar.Padded(s, v) {
      JsonGrammar.DecodesIff(s, v);
    }
    if DecodeRecord(f, s) == Some(r) {
      var v := Decode(s).value;
      ObjectsOnly(f, v);
      assert JsonGrammar.Padded(s, Object(v.members));
    }
  }

  lemma ObjectsOnly(f: Formats, v: Value)
    requires FromJson(f, v).Some?
    ensures v.Object?
  {
    hide Lookup;
  }

  function Prepend(rs: seq<Record>, r: Result<seq<Record>, LoadError>): Result<seq<Record>, LoadError> {
    if r.Ok? then Ok(rs + r.value) else r
  }

  /** The entries of a text; a line that cannot be read is an error unless it is the unterminated last one. */
  function LoadText(f: Formats, t: string): Result<seq<Record>, LoadError>
    decreases |t|
  {
    if t == "" then Ok([])
    else
      var line, rest := t[..LineLength(t)], t[LineLength(t)..];
      if Strip(line) == "" then LoadText(f, rest)
      else
        match DecodeRecord(f, Strip(line))
        case Some(r) => Prepend([r], LoadText(f, rest))
        case None => if EndsLine(line) then Err(DamagedLine) else Ok([])
  }

  /** Journal.load of a file that may not exist: one pass over the lines. */
  method Load(f: Formats, file: Option<string>) returns (r: Result<seq<Record>, LoadError>)
    ensures r == if file.None? then Ok([]) else LoadText(f, Universal(file.value))
  {
    hide DecodeRecord, Strip, Universal;
    if file.None? {
      return Ok([]);
    }
    var rest := Universal(file.value);
    var entries := [];
    PrependNothing(LoadText(f, rest));
    while rest != ""
      invariant LoadText(f, Universal(file.value)) == Prepend(entries, LoadText(f, rest))
      decreases |rest|
    {
      var n := LineLength(rest);
      var line := rest[..n];
      var torn := !EndsLine(line);
      var text := Strip(line);
      if text != "" {
        var entry := DecodeRecord(f, text);
        if entry.Some? {
          PrependTwice(entries, [entry.value], LoadText(f, rest[n..]));
          entries := entries + [entry.value];
        } else if torn {
          break;
        } else {
          return Err(DamagedLine);
        }
      }
      rest := rest[n..];
    }
    assert entries + [] == entries;
    r := Ok(entries);
  }

  lemma PrependNothing(r: Result<seq<Record>, LoadError>)
    ensures Prepend([], r) == r
  {
    if r.Ok? {
      assert [] + r.value == r.value;
    }
  }

  lemma PrependTwice(a: seq<Record>, b: seq<Record>, r: Result<seq<Record>, LoadError>)
    ensures Prepend(a, Prepend(b, r)) == Prepend(a + b, r)
  {
    if r.Ok? {
      assert a + (b + r.value) == a + b + r.value;
    }
  }

  /* ---- Lines of a writer ------------------------------------------------------------------- */

  lemma {:induction false} UniversalOfPlain(t: string)
    requires forall k :: 0 <= k < |t| ==> t[k] != '\r'
    ensures Universal(t) == t
  {
    if |t| > 0 {
      UniversalOfPlain(t[1..]);
      assert t == [t[0]] + t[1..];
    }
  }

  /** The text of an entry: printable, braced, and nothing to strip. */
  lemma EntryText(f: Formats, r: Record)
    requires Complete(f, r)
    ensures var s := Encode(ToJson(r));
            && Printable(s) && |s| >= 2 && s[0] == '{' && s[|s| - 1] == '}'
            && Strip(s) == s && Strip(s + "\n") == s
            && DecodeRecord(f, s) == Some(r)
  {
    var v := ToJson(r);
    var s := Encode(v);
    StoredIsWellFormed(f, r);
    RoundTrip(v);
    RecordRoundTrip(f, r);
    ValuePrintable(v, "");
    ObjectIsBraced(v.members);
    hide Encode, Decode, FromJson, ToJson, WellFormed, Complete;
    StripsNothing(s);
  }

  lemma StripsNothing(s: string)
    requires |s| >= 2 && s[0] == '{' && s[|s| - 1] == '}'
    ensures Strip(s) == s && Strip(s + "\n") == s
  {
    var t := s + "\n";
    assert LeftStrip(t) == t && t[..|t| - 1] == s;
  }

  /** The part of an entry's text before its end cannot be read, stripped or not. */
  lemma TornEntry(f: Formats, r: Record, k: nat)
    requires Complete(f, r) && 0 < k < |Encode(ToJson(r))|
    ensures Strip(Encode(ToJson(r))[..k]) != "" && DecodeRecord(f, Strip(Encode(ToJson(r))[..k])).None?
  {
    var v := ToJson(r);
    var p := Encode(v)[..k];
    StoredIsWellFormed(f, r);
    EntryText(f, r);
    assert p[0] == '{';
    var m := |Strip(p)|;
    assert Strip(p) == p[..m] == Encode(v)[..m];
    NoPrefixReads(v, m);
  }

  /** How a first line is found: text without a line feed, then a line feed or the end. */
  lemma {:induction false} FirstLine(s: string, rest: string)
    requires forall k :: 0 <= k < |s| ==> s[k] != '\n'
    requires s != ""
    ensures LineLength(s + "\n" + rest) == |s| + 1
    ensures LineLength(s) == |s|
  {
    var t := s + "\n" + rest;
    assert t[|s|] == '\n' && forall k :: 0 <= k < |s| ==> t[k] == s[k];
  }

  /** A complete line yields its entry and the entries of the rest. */
  lemma LoadLine(f: Formats, r: Record, rest: string)
    requires Complete(f, r)
    ensures LoadText(f, LineOf(r) + rest) == Prepend([r], LoadText(f, rest))
  {
    var s := Encode(ToJson(r));
    EntryText(f, r);
    hide Encode, DecodeRecord, Strip, ToJson, Complete;
    FirstLine(s, rest);
    var t := LineOf(r) + rest;
    assert t == s + "\n" + rest;
    assert t[..|s| + 1] == s + "\n" && t[|s| + 1..] == rest;
  }

  /** A last line without its line feed yields its entry only when all of its text is there. */
  lemma LoadTornLine(f: Formats, r: Record, k: nat)
    requires Complete(f, r) && k <= |Encode(ToJson(r))|
    ensures LoadText(f, Encode(ToJson(r))[..k]) == Ok(if k == |Encode(ToJson(r))| then [r] else [])
  {
    var s := Encode(ToJson(r));
    EntryText(f, r);
    if 0 < k < |s| {
      TornEntry(f, r, k);
    }
    hide Encode, DecodeRecord, Strip, ToJson, Complete, LoadText;
    if k == 0 {
      assert s[..0] == "";
      LoadNothing(f);
    } else {
      LoadLast(f, s[..k]);
      assert k == |s| ==> s[..k] == s;
    }
  }

  lemma LoadNothing(f: Formats)
    ensures LoadText(f, "") == Ok([])
  {
  }

  /** A text without a line feed is one last line. */
  lemma LoadLast(f: Formats, p: string)
    requires p != "" && Strip(p) != "" && forall k :: 0 <= k < |p| ==> p[k] != '\n'
    ensures LoadText(f, p) == match DecodeRecord(f, Strip(p)) case Some(r) => Ok([r]) case None => Ok([])
  {
    hide DecodeRecord, Strip;
    FirstLine(p, "");
    assert p[..|p|] == p && p[|p|..] == "";
    LoadNothing(f);
    assert forall r: Record :: [r] + [] == [r];
  }

  /* ---- Tearing the file ----------------------------------------------------------------------- */

  /** How many entries have their whole text (the line feed aside) within the first k characters. */
  function Kept(rs: seq<Record>, k: nat): (n: nat)
    ensures n <= |rs|
  {
    if |rs| == 0 || k < |Encode(ToJson(rs[0]))| then 0
    else if k <= |Encode(ToJson(rs[0]))| then 1
    else 1 + Kept(rs[1..], k - |LineOf(rs[0])|)
  }

  lemma {:induction false} LoadTorn(f: Formats, rs: seq<Record>, k: nat)
    requires AllComplete(f, rs) && k <= |TextOf(rs)|
    ensures LoadText(f, TextOf(rs)[..k]) == Ok(rs[..Kept(rs, k)])
  {
    hide Encode, ToJson, Complete, LoadText;
    if |rs| == 0 {
      LoadNothing(f);
    } else {
      var s, tail := Encode(ToJson(rs[0])), TextOf(rs[1..]);
      assert rs[0] in rs;
      if k <= |s| {
        LoadTornLine(f, rs[0], k);
        TakeOfFirst(s, "\n" + tail, k);
        assert LineOf(rs[0]) + tail == s + ("\n" + tail);
        assert rs[..0] == [] && rs[..1] == [rs[0]];
      } else {
        var j := k - |LineOf(rs[0])|;
        LoadTorn(f, rs[1..], j);
        LoadLine(f, rs[0], tail[..j]);
        TakePastFirst(LineOf(rs[0]), tail, k);
        assert [rs[0]] + rs[1..][..Kept(rs[1..], j)] == rs[..1 + Kept(rs[1..], j)];
      }
    }
  }

  lemma TakeOfFirst(a: string, b: string, k: nat)
    requires k <= |a|
    ensures (a + b)[..k] == a[..k]
  {
  }

  lemma TakePastFirst(a: string, b: string, k: nat)
    requires |a| <= k <= |a| + |b|
    ensures (a + b)[..k] == a + b[..k - |a|]
  {
  }

  lemma {:induction false} TextIsPlain(f: Formats, rs: seq<Record>)
    requires AllComplete(f, rs)
    ensures forall k :: 0 <= k < |TextOf(rs)| ==> TextOf(rs)[k] != '\r'
  {
    if |rs| > 0 {
      assert rs[0] in rs;
      EntryText(f, rs[0]);
      hide Encode, ToJson, Complete;
      hide DecodeRecord, Strip;
      TextIsPlain(f, rs[1..]);
      var s := Encode(ToJson(rs[0]));
      assert forall k :: 0 <= k < |s| ==> s[k] != '\r';
    }
  }

  /**
   * However the writer is interrupted: the file is a prefix of the text, loading it does not fail,
   * and it returns exactly the entries whose text had been written, in order.
   */
  lemma AnyPrefixLoads(f: Formats, rs: seq<Record>, k: nat)
    requires AllComplete(f, rs) && k <= |TextOf(rs)|
    ensures LoadText(f, Universal(TextOf(rs)[..k])) == Ok(rs[..Kept(rs, k)])
  {
    hide LoadText, TextOf, Kept, Universal;
    TextIsPlain(f, rs);
    LoadTorn(f, rs, k);
    UniversalOfPlain(TextOf(rs)[..k]);
  }

  /** Nothing that was completely written is lost: entry n is kept once its text is in the prefix. */
  lemma {:induction false} KeptMeansWritten(rs: seq<Record>, k: nat, n: nat)
    requires n < |rs|
    ensures n < Kept(rs, k) <==> |TextOf(rs[..n])| + |Encode(ToJson(rs[n]))| <= k
  {
    hide Encode, ToJson;
    if n == 0 {
      assert rs[..0] == [];
    } else {
      assert rs[..n][0] == rs[0] && rs[..n][1..] == rs[1..][..n - 1];
      if k > |Encode(ToJson(rs[0]))| {
        KeptMeansWritten(rs[1..], k - |LineOf(rs[0])|, n - 1);
      }
    }
  }

  /** A whole file loads back to everything recorded. */
  lemma WholeFileLoads(f: Formats, rs: seq<Record>)
    requires AllComplete(f, rs)
    ensures LoadText(f, Universal(TextOf(rs))) == Ok(rs)
  {
    hide LoadText, Universal, Encode, ToJson;
    var t := TextOf(rs);
    assert t[..|t|] == t;
    AnyPrefixLoads(f, rs, |t|);
    if |rs| > 0 {
      var n := |rs| - 1;
      TextSnoc(rs);
      KeptMeansWritten(rs, |t|, n);
    }
    assert rs[..|rs|] == rs;
  }

  lemma {:induction false} TextSnoc(rs: seq<Record>)
    requires |rs| > 0
    ensures TextOf(rs) == TextOf(rs[..|rs| - 1]) + LineOf(rs[|rs| - 1])
  {
    hide LineOf;
    if |rs| > 1 {
      TextSnoc(rs[1..]);
      assert rs[1..][..|rs| - 2] == rs[..|rs| - 1][1..];
      assert LineOf(rs[0]) + (TextOf(rs[1..][..|rs| - 2]) + LineOf(rs[|rs| - 1])) ==
             LineOf(rs[0]) + TextOf(rs[1..][..|rs| - 2]) + LineOf(rs[|rs| - 1]);
    } else {
      assert rs[..0] == [] && rs[1..] == [];
    }
  }

  /* ---- Text after text ------------------------------------------------------------------------- */

  /** The text does not end inside a line. */
  predicate Finished(t: string) {
    t == "" || EndsLine(t)
  }

  /** What is loaded from one text and then from the next. */
  function Then(a: Result<seq<Record>, LoadError>, b: Result<seq<Record>, LoadError>)
    : Result<seq<Record>, LoadError>
  {
    if a.Ok? then Prepend(a.value, b) else a
  }

  lemma {:induction false} LineLengthWithin(b: string, t: string)
    requires b != "" && EndsLine(b)
    ensures LineLength(b + t) == LineLength(b)
  {
    if b[0] != '\n' {
      LineLengthWithin(b[1..], t);
      assert (b + t)[1..] == b[1..] + t;
    }
  }

  lemma FirstLineWithin(b: string, t: string)
    requires b != "" && EndsLine(b)
    ensures var n := LineLength(b);
            && LineLength(b + t) == n && (b + t)[..n] == b[..n] && (b + t)[n..] == b[n..] + t
            && EndsLine(b[..n]) && Finished(b[n..])
  {
    hide LineLength;
    LineLengthWithin(b, t);
  }

  /** Behind a text that does not end inside a line, a text loads as it does on its own. */
  lemma {:induction false} LoadAfterFinished(f: Formats, b: string, t: string)
    requires Finished(b)
    ensures LoadText(f, b + t) == Then(LoadText(f, b), LoadText(f, t))
    decreases |b|
  {
    hide Strip, DecodeRecord, LineLength;
    if b == "" {
      assert b + t == t;
      PrependNothing(LoadText(f, t));
    } else {
      FirstLineWithin(b, t);
      var line, rest := b[..LineLength(b)], b[LineLength(b)..];
      LoadAfterFinished(f, rest, t);
      if Strip(line) != "" && DecodeRecord(f, Strip(line)).Some? && LoadText(f, rest).Ok? {
        PrependTwice([DecodeRecord(f, Strip(line)).value], LoadText(f, rest).value, LoadText(f, t));
      }
    }
  }

  /** How many characters the reader takes for its first one, and which one it sees. */
  function Width(t: string): (n: nat)
    requires t != ""
    ensures 0 < n <= |t|
  {
    if t[0] == '\r' && |t| > 1 && t[1] == '\n' then 2 else 1
  }

  function Seen(t: string): string
    requires t != ""
  {
    if t[0] == '\r' then "\n" else [t[0]]
  }

  lemma UniversalStep(t: string)
    requires t != ""
    ensures Universal(t) == Seen(t) + Universal(t[Width(t)..])
  {
  }

  lemma StepWithin(b: string, t: string)
    requires b != "" && EndsLine(b)
    ensures Width(b + t) == Width(b) && Seen(b + t) == Seen(b) && (b + t)[Width(b)..] == b[Width(b)..] + t
    ensures Finished(b[Width(b)..]) && (b[Width(b)..] == "" ==> EndsLine(Seen(b)))
  {
  }

  /** Line ends are seen alike with and without such a text before them. */
  lemma {:induction false} UniversalAfterFinished(b: string, t: string)
    requires Finished(b)
    ensures Universal(b + t) == Universal(b) + Universal(t) && Finished(Universal(b))
    decreases |b|
  {
    hide Width, Seen;
    if b == "" {
      assert b + t == t && "" + Universal(t) == Universal(t);
    } else {
      hide Universal;
      var rest := b[Width(b)..];
      StepWithin(b, t);
      UniversalAfterFinished(rest, t);
      UniversalStep(b);
      UniversalStep(b + t);
      if rest == "" {
        NothingSeen();
      }
    }
  }

  lemma NothingSeen()
    ensures Universal("") == ""
  {
  }

  /**
   * A writer interrupted anywhere behind earlier text that does not end inside a line: what is loaded is
   * what the earlier text holds and then the entries written; it fails exactly when the earlier text does.
   */
  lemma LoadBehind(f: Formats, earlier: string, rs: seq<Record>, k: nat)
    requires Finished(earlier) && AllComplete(f, rs) && k <= |TextOf(rs)|
    ensures LoadText(f, Universal(earlier + TextOf(rs)[..k])) ==
            Then(LoadText(f, Universal(earlier)), Ok(rs[..Kept(rs, k)]))
  {
    hide LoadText, TextOf, Kept, Universal, Then, Complete;
    AnyPrefixLoads(f, rs, k);
    UniversalAfterFinished(earlier, TextOf(rs)[..k]);
    LoadAfterFinished(f, Universal(earlier), Universal(TextOf(rs)[..k]));
  }

  lemma WholeTextKept(f: Formats, rs: seq<Record>)
    requires AllComplete(f, rs)
    ensures TextOf(rs)[..|TextOf(rs)|] == TextOf(rs) && Kept(rs, |TextOf(rs)|) == |rs| && rs[..|rs|] == rs
  {
    hide LoadText, Universal;
    AnyPrefixLoads(f, rs, |TextOf(rs)|);
    WholeFileLoads(f, rs);
    assert TextOf(rs)[..|TextOf(rs)|] == TextOf(rs);
    assert |rs[..Kept(rs, |TextOf(rs)|)]| == |rs|;
  }

  /* ---- Damage ------------------------------------------------------------------------------------ */

  function Lines(t: string): seq<string>
    decreases |t|
  {
    if t == "" then [] else [t[..LineLength(t)]] + Lines(t[LineLength(t)..])
  }

  /** A line that was finished, says something, and cannot be read. */
  predicate Damaged(f: Formats, line: string) {
    EndsLine(line) && Strip(line) != "" && DecodeRecord(f, Strip(line)).None?
  }

  /** Loading fails exactly when some finished line is damaged; a torn last line never makes it fail. */
  lemma {:induction false} FailsIffDamaged(f: Formats, t: string)
    ensures LoadText(f, t).Err? <==> exists k :: 0 <= k < |Lines(t)| && Damaged(f, Lines(t)[k])
    decreases |t|
  {
    hide Strip, DecodeRecord;
    if t != "" {
      var line, rest := t[..LineLength(t)], t[LineLength(t)..];
      FailsIffDamaged(f, rest);
      assert Lines(t)[0] == line && forall k :: 0 < k < |Lines(t)| ==> Lines(t)[k] == Lines(rest)[k - 1];
      if LoadText(f, rest).Err? {
        var k :| 0 <= k < |Lines(rest)| && Damaged(f, Lines(rest)[k]);
        assert Damaged(f, Lines(t)[k + 1]);
      }
      if !EndsLine(line) {
        assert rest == "";
      }
    }
  }
}
