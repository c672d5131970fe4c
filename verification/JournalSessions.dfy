/**
 * A journal file that many writers appended to one after another, each interrupted anywhere: when it
 * can still be loaded, and what is loaded then.
 */
module JournalSessions {
  import opened Models
  import opened Json
  import opened JsonLaws
  import opened JournalFile
  import opened JournalLoad
  import opened JournalRestart

  /** One writer: the entries it meant to append, and how many characters of their text it got to write. */
  datatype Session = Session(records: seq<Record>, cut: nat)

  function SessionText(s: Session): string {
    var t := TextOf(s.records);
    if s.cut <= |t| then t[..s.cut] else t
  }

  /** The file after these writers. */
  function FileText(ss: seq<Session>): string {
    if |ss| == 0 then "" else FileText(ss[..|ss| - 1]) + SessionText(ss[|ss| - 1])
  }

  ghost predicate Sessions(f: Formats, ss: seq<Session>) {
    forall s :: s in ss ==> AllComplete(f, s.records) && s.cut <= |TextOf(s.records)|
  }

  /** The writer finished its first line. */
  predicate FinishesLine(s: Session) {
    |s.records| > 0 && s.cut >= |LineOf(s.records[0])|
  }

  /** How many lines lie within the first k characters. */
  function LinesWithin(rs: seq<Record>, k: nat): (n: nat)
    ensures n <= |rs|
  {
    if |rs| == 0 || k < |LineOf(rs[0])| then 0 else 1 + LinesWithin(rs[1..], k - |LineOf(rs[0])|)
  }

  /** What the first k characters hold behind their last line feed. */
  function Unfinished(rs: seq<Record>, k: nat): seq<Piece> {
    if |rs| == 0 || k == 0 then []
    else if k < |LineOf(rs[0])| then [Piece(rs[0], k)]
    else Unfinished(rs[1..], k - |LineOf(rs[0])|)
  }

  /** What a file amounts to: the entries on its finished lines, and the pieces on the line it ends inside. */
  datatype Tail = Tail(records: seq<Record>, open: seq<Piece>)

  /** None once a line was finished that another writer had left torn. */
  function Trace(ss: seq<Session>): Option<Tail> {
    if |ss| == 0 then Some(Tail([], []))
    else
      var s := ss[|ss| - 1];
      match Trace(ss[..|ss| - 1])
      case None => None
      case Some(t) =>
        if !FinishesLine(s) then Some(Tail(t.records, t.open + Unfinished(s.records, s.cut)))
        else if t.open != [] then None
        else Some(Tail(t.records + s.records[..LinesWithin(s.records, s.cut)], Unfinished(s.records, s.cut)))
  }

  /** The entry of a last line of pieces: the one piece of it, if that is whole. */
  function LastEntry(ps: seq<Piece>): seq<Record> {
    if |ps| == 1 && ps[0].length >= |Encode(ToJson(ps[0].r))| then [ps[0].r] else []
  }

  /** The entries of a file: a last line that is one whole entry counts, too. */
  function Recovered(t: Tail): seq<Record> {
    t.records + LastEntry(t.open)
  }

  /* ---- The text of a file ------------------------------------------------------------------------ */

  lemma {:induction false} JoinedConcat(a: seq<Piece>, b: seq<Piece>)
    ensures Joined(a + b) == Joined(a) + Joined(b)
  {
    hide PieceText;
    if |a| == 0 {
      assert a + b == b && "" + Joined(b) == Joined(b);
    } else {
      assert (a + b)[0] == a[0] && (a + b)[1..] == a[1..] + b;
      JoinedConcat(a[1..], b);
      assert PieceText(a[0]) + (Joined(a[1..]) + Joined(b)) == PieceText(a[0]) + Joined(a[1..]) + Joined(b);
    }
  }

  lemma JoinedOne(p: Piece)
    ensures Joined([p]) == PieceText(p)
  {
    hide PieceText;
    assert [p][1..] == [];
  }

  lemma CutInFirstLine(f: Formats, rs: seq<Record>, k: nat)
    requires |rs| > 0 && Complete(f, rs[0]) && 0 < k < |LineOf(rs[0])|
    ensures k <= |TextOf(rs)| && TextOf(rs)[..k] == PieceText(Piece(rs[0], k)) && IsPiece(f, Piece(rs[0], k))
  {
    hide Encode, ToJson, Complete;
    var s := Encode(ToJson(rs[0]));
    TakeOfFirst(s, "\n" + TextOf(rs[1..]), k);
    assert LineOf(rs[0]) + TextOf(rs[1..]) == s + ("\n" + TextOf(rs[1..]));
  }

  lemma TextOfOneMore(r: Record, rest: seq<Record>, tail: string)
    ensures TextOf([r] + rest) + tail == LineOf(r) + (TextOf(rest) + tail)
  {
    hide LineOf;
    assert ([r] + rest)[1..] == rest;
  }

  /** The text of a writer: its finished lines, and what is behind them. */
  lemma {:induction false} TextWithin(f: Formats, rs: seq<Record>, k: nat)
    requires AllComplete(f, rs) && k <= |TextOf(rs)|
    ensures TextOf(rs)[..k] == TextOf(rs[..LinesWithin(rs, k)]) + Joined(Unfinished(rs, k))
    ensures ArePieces(f, Unfinished(rs, k)) && |Unfinished(rs, k)| <= 1
  {
    hide LineOf, Complete, Joined, PieceText, IsPiece;
    if k == 0 || |rs| == 0 {
      NoText(f, rs);
    } else if k < |LineOf(rs[0])| {
      assert rs[0] in rs;
      CutInFirstLine(f, rs, k);
      JoinedOne(Piece(rs[0], k));
      NoText(f, rs);
    } else {
      var line, tail := LineOf(rs[0]), TextOf(rs[1..]);
      var n := LinesWithin(rs[1..], k - |line|);
      TextWithin(f, rs[1..], k - |line|);
      TakePastFirst(line, tail, k);
      TextOfOneMore(rs[0], rs[1..][..n], Joined(Unfinished(rs[1..], k - |line|)));
      assert rs[..1 + n] == [rs[0]] + rs[1..][..n];
    }
  }

  lemma NoText(f: Formats, rs: seq<Record>)
    requires AllComplete(f, rs)
    ensures TextOf(rs[..0]) == "" && Joined([]) == "" && LinesWithin(rs, 0) == 0
    ensures forall t: string :: "" + t == t
  {
    if |rs| > 0 {
      assert |LineOf(rs[0])| > 0;
    }
  }

  lemma {:induction false} TextOfConcat(a: seq<Record>, b: seq<Record>)
    ensures TextOf(a + b) == TextOf(a) + TextOf(b)
  {
    hide LineOf;
    if |a| == 0 {
      assert a + b == b && "" + TextOf(b) == TextOf(b);
    } else {
      assert (a + b)[0] == a[0] && (a + b)[1..] == a[1..] + b;
      TextOfConcat(a[1..], b);
      assert LineOf(a[0]) + (TextOf(a[1..]) + TextOf(b)) == LineOf(a[0]) + TextOf(a[1..]) + TextOf(b);
    }
  }

  /** The trace describes the file. */
  ghost predicate Describes(f: Formats, t: Tail, text: string) {
    AllComplete(f, t.records) && ArePieces(f, t.open) && text == TextOf(t.records) + Joined(t.open)
  }

  lemma MorePieces(f: Formats, t: Tail, text: string, ps: seq<Piece>)
    requires Describes(f, t, text) && ArePieces(f, ps)
    ensures Describes(f, Tail(t.records, t.open + ps), text + Joined(ps))
  {
    hide TextOf, Joined, Complete, IsPiece;
    JoinedConcat(t.open, ps);
    assert TextOf(t.records) + Joined(t.open) + Joined(ps) == TextOf(t.records) + (Joined(t.open) + Joined(ps));
  }

  lemma MoreLines(f: Formats, t: Tail, text: string, rs: seq<Record>, ps: seq<Piece>)
    requires Describes(f, t, text) && t.open == [] && AllComplete(f, rs) && ArePieces(f, ps)
    ensures Describes(f, Tail(t.records + rs, ps), text + (TextOf(rs) + Joined(ps)))
  {
    hide TextOf, Complete, IsPiece;
    TextOfConcat(t.records, rs);
    assert text == TextOf(t.records);
    assert TextOf(t.records) + (TextOf(rs) + Joined(ps)) == TextOf(t.records) + TextOf(rs) + Joined(ps);
  }

  lemma NothingWritten(f: Formats)
    ensures Describes(f, Tail([], []), "")
  {
  }

  lemma SessionTextIs(f: Formats, s: Session)
    requires AllComplete(f, s.records) && s.cut <= |TextOf(s.records)|
    ensures var n := LinesWithin(s.records, s.cut);
            && SessionText(s) == TextOf(s.records[..n]) + Joined(Unfinished(s.records, s.cut))
            && (n == 0 <==> !FinishesLine(s))
            && ArePieces(f, Unfinished(s.records, s.cut)) && AllComplete(f, s.records[..n])
  {
    hide TextOf, Joined, Complete, LineOf, IsPiece, Unfinished;
    TextWithin(f, s.records, s.cut);
    AllOfPrefix(f, s.records, LinesWithin(s.records, s.cut));
  }

  lemma AllOfPrefix(f: Formats, rs: seq<Record>, n: nat)
    requires AllComplete(f, rs) && n <= |rs|
    ensures AllComplete(f, rs[..n])
  {
    hide Complete;
    forall r | r in rs[..n] ensures Complete(f, r) {
      assert r in rs;
    }
  }

  lemma SessionsBefore(f: Formats, ss: seq<Session>)
    requires Sessions(f, ss) && |ss| > 0
    ensures Sessions(f, ss[..|ss| - 1])
    ensures AllComplete(f, ss[|ss| - 1].records) && ss[|ss| - 1].cut <= |TextOf(ss[|ss| - 1].records)|
  {
    hide TextOf, AllComplete;
  }

  lemma {:induction false} TraceDescribes(f: Formats, ss: seq<Session>)
    requires Sessions(f, ss)
    ensures Trace(ss).Some? ==> Describes(f, Trace(ss).value, FileText(ss))
  {
    if |ss| == 0 {
      NothingWritten(f);
    } else {
      hide Describes, Sessions, SessionText, LinesWithin, Unfinished, FinishesLine, AllComplete, ArePieces;
      var init, s := ss[..|ss| - 1], ss[|ss| - 1];
      SessionsBefore(f, ss);
      TraceDescribes(f, init);
      SessionTextIs(f, s);
      if Trace(init).Some? {
        var t, ps := Trace(init).value, Unfinished(s.records, s.cut);
        if FinishesLine(s) {
          if t.open == [] {
            MoreLines(f, t, FileText(init), s.records[..LinesWithin(s.records, s.cut)], ps);
          }
        } else {
          MorePieces(f, t, FileText(init), ps);
          NoLines(s.records, ps);
        }
      }
    }
  }

  lemma NoLines(rs: seq<Record>, ps: seq<Piece>)
    ensures TextOf(rs[..0]) + Joined(ps) == Joined(ps)
  {
    hide Joined;
    assert rs[..0] == [] && "" + Joined(ps) == Joined(ps);
  }

  /* ---- Loading joined pieces ----------------------------------------------------------------------- */

  lemma {:induction false} RightStripOfConcat(a: string, b: string)
    requires RightStrip(b) != ""
    ensures RightStrip(a + b) == a + RightStrip(b)
  {
    if IsSpace(b[|b| - 1]) {
      RightStripOfConcat(a, b[..|b| - 1]);
      assert (a + b)[..|a + b| - 1] == a + b[..|b| - 1];
    }
  }

  lemma PiecePrints(f: Formats, p: Piece)
    requires IsPiece(f, p)
    ensures var s := PieceText(p); s != "" && s[0] == '{' && Printable(s) && |s| == p.length
  {
    hide Encode, ToJson, Complete, DecodeRecord, Strip, Printable;
    EntryText(f, p.r);
    PrintablePrefix(Encode(ToJson(p.r)), p.length);
  }

  lemma {:induction false} PiecesPrint(f: Formats, ps: seq<Piece>)
    requires ArePieces(f, ps)
    ensures var s := Joined(ps);
            && (forall k :: 0 <= k < |s| ==> ' ' <= s[k] <= '~')
            && (|ps| > 0 <==> s != "") && (|ps| > 0 ==> s[0] == '{')
  {
    hide IsPiece, PieceText;
    if |ps| > 0 {
      assert ps[0] in ps;
      PiecePrints(f, ps[0]);
      PiecesPrint(f, ps[1..]);
    }
  }

  /** A piece without the white space at its end. */
  function Stripped(p: Piece): Piece {
    Piece(p.r, |RightStrip(PieceText(p))|)
  }

  lemma StrippedPiece(f: Formats, p: Piece)
    requires IsPiece(f, p)
    ensures IsPiece(f, Stripped(p)) && PieceText(Stripped(p)) == RightStrip(PieceText(p)) != ""
  {
    hide Encode, ToJson, Complete;
    PiecePrints(f, p);
  }

  /** Stripping joined pieces strips the last one. */
  lemma StripOfJoined(f: Formats, ps: seq<Piece>, p: Piece)
    requires ArePieces(f, ps) && IsPiece(f, p)
    ensures Strip(Joined(ps + [p])) == Joined(ps + [Stripped(p)])
  {
    hide Joined, PieceText, IsPiece, RightStrip, Stripped;
    var whole := ps + [p];
    PiecesPrint(f, whole);
    assert LeftStrip(Joined(whole)) == Joined(whole);
    JoinedConcat(ps, [p]);
    JoinedOne(p);
    JoinedConcat(ps, [Stripped(p)]);
    JoinedOne(Stripped(p));
    StrippedPiece(f, p);
    RightStripOfConcat(Joined(ps), PieceText(p));
  }

  lemma NeverAnEntry(f: Formats, ps: seq<Piece>)
    requires ArePieces(f, ps) && |ps| > 1
    ensures Strip(Joined(ps)) != "" && DecodeRecord(f, Strip(Joined(ps))).None?
  {
    hide Joined, IsPiece, Strip, Decode, Stripped, Closing;
    var init, p := ps[..|ps| - 1], ps[|ps| - 1];
    assert ps == init + [p] && p in ps;
    forall q | q in init ensures IsPiece(f, q) {
      assert q in ps;
    }
    StripOfJoined(f, init, p);
    StrippedPiece(f, p);
    JoinedPieces(f, init + [Stripped(p)]);
    PiecesPrint(f, init + [Stripped(p)]);
  }

  lemma LoadJoined(f: Formats, ps: seq<Piece>)
    requires ArePieces(f, ps)
    ensures LoadText(f, Joined(ps)) == Ok(LastEntry(ps))
  {
    hide LoadText, Encode, ToJson, Complete, Strip, DecodeRecord;
    if |ps| == 0 {
      LoadNothing(f);
    } else if |ps| == 1 {
      assert ps[0] in ps && ps == [ps[0]];
      JoinedOne(ps[0]);
      LoadTornLine(f, ps[0].r, ps[0].length);
    } else {
      hide Joined, IsPiece;
      PiecesPrint(f, ps);
      NeverAnEntry(f, ps);
      LoadLast(f, Joined(ps));
    }
  }

  /* ---- Loading the file --------------------------------------------------------------------------- */

  lemma LoadDescribed(f: Formats, t: Tail, text: string)
    requires Describes(f, t, text)
    ensures LoadText(f, text) == Ok(Recovered(t))
  {
    hide LoadText, TextOf, Joined, AllComplete, ArePieces, Encode, ToJson;
    LoadAfterLines(f, t.records, Joined(t.open));
    LoadJoined(f, t.open);
  }

  /** A line finished behind pieces. */
  lemma LoadBroken(f: Formats, ps: seq<Piece>, r: Record, rest: string)
    requires ArePieces(f, ps) && |ps| > 0 && Complete(f, r)
    ensures LoadText(f, Joined(ps) + (LineOf(r) + rest)).Err?
  {
    hide Encode, ToJson, Joined, Complete, LoadText, Strip, Printable, DecodeRecord, PieceText;
    var g := Encode(ToJson(r));
    EntryText(f, r);
    GluedPieces(f, ps, r);
    PiecesPrint(f, ps);
    PrintableText(Joined(ps));
    LoadGluedText(f, Joined(ps), g, rest);
    assert LineOf(r) + rest == g + "\n" + rest;
  }

  lemma PrintableText(s: string)
    requires forall k :: 0 <= k < |s| ==> ' ' <= s[k] <= '~'
    ensures Printable(s)
  {
  }

  /** Pieces and then a whole entry on one line never read as an entry. */
  lemma GluedPieces(f: Formats, ps: seq<Piece>, r: Record)
    requires ArePieces(f, ps) && |ps| > 0 && Complete(f, r)
    ensures DecodeRecord(f, Joined(ps) + Encode(ToJson(r))).None?
  {
    hide Encode, ToJson, Joined, Complete, Decode, Closing;
    var s := Encode(ToJson(r));
    EntryBegins(r);
    var p := Piece(r, |s|);
    assert s[..|s|] == s;
    JoinedConcat(ps, [p]);
    JoinedOne(p);
    JoinedPieces(f, ps + [p]);
  }

  /** Once a torn line was finished nothing appended later makes the file load. */
  lemma BrokenForGood(f: Formats, t: Tail, text: string, s: Session, later: string)
    requires Describes(f, t, text) && t.open != [] && AllComplete(f, s.records)
    requires s.cut <= |TextOf(s.records)| && FinishesLine(s)
    ensures LoadText(f, text + SessionText(s) + later).Err?
  {
    hide LoadText, Joined, Complete, LineOf, ArePieces, TextOf;
    var r := s.records[0];
    assert r in s.records;
    var rest := SessionAfterLine(s);
    LoadBroken(f, t.open, r, rest + later);
    LoadAfterLines(f, t.records, Joined(t.open) + (LineOf(r) + (rest + later)));
    assert text + SessionText(s) + later ==
           TextOf(t.records) + (Joined(t.open) + (LineOf(r) + (rest + later))) by {
      assert text + (LineOf(r) + rest) + later == text + (LineOf(r) + (rest + later));
    }
  }

  lemma SessionAfterLine(s: Session) returns (rest: string)
    requires FinishesLine(s) && s.cut <= |TextOf(s.records)|
    ensures SessionText(s) == LineOf(s.records[0]) + rest
  {
    hide LineOf;
    var line := LineOf(s.records[0]);
    rest := TextOf(s.records[1..])[..s.cut - |line|];
    TakePastFirst(line, TextOf(s.records[1..]), s.cut);
  }

  lemma {:induction false} TraceFails(f: Formats, ss: seq<Session>, later: string)
    requires Sessions(f, ss) && Trace(ss).None?
    ensures LoadText(f, FileText(ss) + later).Err?
  {
    hide LoadText, Describes, SessionText, FinishesLine, AllComplete, LinesWithin, Unfinished, Sessions;
    var init, s := ss[..|ss| - 1], ss[|ss| - 1];
    SessionsBefore(f, ss);
    if Trace(init).None? {
      TraceFails(f, init, SessionText(s) + later);
      assert FileText(init) + SessionText(s) + later == FileText(init) + (SessionText(s) + later);
    } else {
      TraceDescribes(f, init);
      BrokenForGood(f, Trace(init).value, FileText(init), s, later);
    }
  }

  /* ---- The condition on the file -------------------------------------------------------------------- */

  lemma {:induction false} LinesEnd(rs: seq<Record>)
    ensures Finished(TextOf(rs))
  {
    hide Encode, ToJson;
    if |rs| > 0 {
      LinesEnd(rs[1..]);
      assert EndsLine(LineOf(rs[0]));
      var line, tail := LineOf(rs[0]), TextOf(rs[1..]);
      assert tail != "" ==> (line + tail)[|line + tail| - 1] == tail[|tail| - 1];
    }
  }

  lemma OpenInsideLine(f: Formats, t: Tail, text: string)
    requires Describes(f, t, text)
    ensures t.open == [] <==> Finished(text)
  {
    hide TextOf, Joined, Complete, IsPiece;
    LinesEnd(t.records);
    PiecesPrint(f, t.open);
    var p := Joined(t.open);
    if t.open != [] {
      assert text[|text| - 1] == p[|p| - 1];
    } else {
      assert TextOf(t.records) + "" == TextOf(t.records);
    }
  }

  /** Writer i finished its first line although the file before it ended inside a line. */
  predicate Breaks(ss: seq<Session>, i: nat)
    requires i < |ss|
  {
    FinishesLine(ss[i]) && !Finished(FileText(ss[..i]))
  }

  ghost predicate Broken(ss: seq<Session>) {
    exists i: nat :: i < |ss| && Breaks(ss, i)
  }

  lemma BrokenOneMore(ss: seq<Session>)
    requires |ss| > 0
    ensures Broken(ss) <==> Broken(ss[..|ss| - 1]) || Breaks(ss, |ss| - 1)
  {
    hide FinishesLine, FileText, Finished;
    var init := ss[..|ss| - 1];
    forall i: nat | i < |init| ensures Breaks(ss, i) == Breaks(init, i) {
      assert init[..i] == ss[..i] && init[i] == ss[i];
    }
  }

  lemma {:induction false} TraceNoneIff(f: Formats, ss: seq<Session>)
    requires Sessions(f, ss)
    ensures Trace(ss).None? <==> Broken(ss)
  {
    hide Describes, Sessions, FinishesLine, AllComplete, LinesWithin, Unfinished, FileText, Finished, Broken;
    if |ss| > 0 {
      var init := ss[..|ss| - 1];
      SessionsBefore(f, ss);
      TraceNoneIff(f, init);
      BrokenOneMore(ss);
      if Trace(init).Some? {
        TraceDescribes(f, init);
        OpenInsideLine(f, Trace(init).value, FileText(init));
      }
    } else {
      NobodyBreaks();
    }
  }

  lemma NobodyBreaks()
    ensures !Broken([])
  {
  }

  lemma {:induction false} FileIsPlain(f: Formats, ss: seq<Session>)
    requires Sessions(f, ss)
    ensures forall k :: 0 <= k < |FileText(ss)| ==> FileText(ss)[k] != '\r'
  {
    hide TextOf, AllComplete, Sessions;
    if |ss| > 0 {
      SessionsBefore(f, ss);
      FileIsPlain(f, ss[..|ss| - 1]);
      TextIsPlain(f, ss[|ss| - 1].records);
    }
  }

  /**
   * Any number of writers append to one file, each interrupted anywhere. Loading the file fails if and only
   * if some writer finished its first line while the file before it ended inside a line. Otherwise it gives
   * the entries on the finished lines, and the last entry if all of it but its line feed was written; what
   * several writers left torn on one last line is ignored.
   */
  lemma InterruptedWriters(f: Formats, ss: seq<Session>)
    requires Sessions(f, ss)
    ensures LoadText(f, Universal(FileText(ss))).Err? <==> Broken(ss)
    ensures Trace(ss).None? <==> Broken(ss)
    ensures !Broken(ss) ==> LoadText(f, Universal(FileText(ss))) == Ok(Recovered(Trace(ss).value))
  {
    hide LoadText, Sessions, FileText, Universal, Trace, Describes, Broken, Recovered;
    FileIsPlain(f, ss);
    UniversalOfPlain(FileText(ss));
    TraceNoneIff(f, ss);
    if Trace(ss).None? {
      TraceFails(f, ss, "");
      assert FileText(ss) + "" == FileText(ss);
    } else {
      TraceDescribes(f, ss);
      LoadDescribed(f, Trace(ss).value, FileText(ss));
    }
  }
}
