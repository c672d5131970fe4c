/**
 * Appending to a file that an interrupted write left torn: the torn text and the next entry form one
 * line, and that line never reads as an entry, wherever the write was cut.
 */
module JournalRestart {
  import opened Models
  import opened Json
  import opened JsonLaws
  import opened JournalFile
  import opened JournalLoad

  /**
   * The reader stopped at the end of the text or before a '{' or an 'e': nothing it may expect after a
   * string, a value or an item starts so.
   */
  predicate Ends<T>(r: Parsed<T>) {
    r.Read? ==> r.left == "" || r.left[0] == '{' || r.left[0] == 'e'
  }

  /**
   * A text that closes nothing that was open before it: read on inside a string, it ends the string
   * where nothing can follow; read where a value is expected, it leaves no way to go on.
   */
  predicate Closing(g: string) {
    g != "" && g[0] == '{' && Ends(ParseChars(g)) && Ends(ParseValue(g))
  }

  /* ---- Inside a string --------------------------------------------------------------------- */

  lemma BrokenHex(digits: string, g: string)
    requires |digits| < 4 && Closing(g)
    ensures Hex4Value(digits + g) == -1
  {
    hide Closing, HexValue;
    StartsWithBrace(g);
    assert (digits + g)[|digits|] == '{';
    BraceIsNoDigit();
  }

  lemma StartsWithBrace(g: string)
    requires Closing(g)
    ensures g != "" && g[0] == '{' && Skip(g) == g
  {
    hide ParseChars, ParseValue;
  }

  lemma BraceIsNoDigit()
    ensures HexValue('{') == -1
  {
  }

  /** What follows the \\u of a long escape. */
  function UnicodeBody(n: nat): (s: string)
    requires n < 0x110000
    ensures |s| == if n < 0x10000 then 4 else 10
  {
    if n < 0x10000 then Hex4(n) else Hex4(HighSurrogate(n)) + "\\u" + Hex4(LowSurrogate(n))
  }

  lemma LongEscape(c: char)
    requires |Escape(c)| > 2
    ensures Escape(c) == "\\u" + UnicodeBody(c as int)
  {
    hide Hex4, HighSurrogate, LowSurrogate;
    var n := c as int;
    if n >= 0x10000 {
      assert "\\u" + (Hex4(HighSurrogate(n)) + "\\u" + Hex4(LowSurrogate(n))) ==
             "\\u" + Hex4(HighSurrogate(n)) + "\\u" + Hex4(LowSurrogate(n));
    }
  }

  lemma BrokenBody(n: nat, k: nat, g: string)
    requires n < 0x110000 && k < |UnicodeBody(n)| && Closing(g)
    ensures ParseUnicode(UnicodeBody(n)[..k] + g).Failed?
  {
    hide Hex4, HighSurrogate, LowSurrogate, Hex4Value, Closing;
    var first := if n < 0x10000 then n else HighSurrogate(n);
    if k < 4 {
      assert UnicodeBody(n)[..k] == Hex4(first)[..k];
      BrokenHex(Hex4(first)[..k], g);
    } else {
      BrokenPair(n, k + 2, g);
    }
  }

  lemma CutAfterTwo(a: string, b: string, k: nat, g: string)
    requires |a| == 2 && 2 <= k <= |a + b|
    ensures (a + b)[1..k] + g == [a[1]] + (b[..k - 2] + g)
  {
  }

  /** An escape cut short is an error. */
  lemma BrokenEscape(c: char, k: nat, g: string)
    requires 0 < k < |Escape(c)| && Closing(g)
    ensures Escape(c)[0] == '\\' && ParseEscape(Escape(c)[1..k] + g).Failed?
  {
    hide Hex4, HighSurrogate, LowSurrogate, ParseUnicode, UnicodeBody, Closing;
    StartsWithBrace(g);
    if k == 1 {
      assert Escape(c)[1..k] + g == g;
    } else {
      hide Escape;
      EscapeIsLong(c, k);
      LongEscape(c);
      var body := UnicodeBody(c as int);
      BrokenBody(c as int, k - 2, g);
      CutAfterTwo("\\u", body, k, g);
      assert (['u'] + (body[..k - 2] + g))[1..] == body[..k - 2] + g;
    }
  }

  lemma EscapeIsLong(c: char, k: nat)
    requires 1 < k < |Escape(c)|
    ensures |Escape(c)| > 2
  {
  }

  lemma BrokenPair(n: nat, k: nat, g: string)
    requires 0x10000 <= n < 0x110000 && 6 <= k < 12 && Closing(g)
    ensures ParseUnicode((Hex4(HighSurrogate(n)) + "\\u" + Hex4(LowSurrogate(n)))[..k - 2] + g).Failed?
  {
    hide Hex4, Hex4Value, HighSurrogate, LowSurrogate, Closing;
    var pair := Hex4(HighSurrogate(n)) + "\\u" + Hex4(LowSurrogate(n));
    var s := pair[..k - 2] + g;
    var after := pair[4..k - 2] + g;
    assert s == Hex4(HighSurrogate(n)) + after;
    Hex4RoundTrip(HighSurrogate(n), after);
    StartsWithBrace(g);
    if k == 6 {
      assert s[4] == '{';
    } else if k == 7 {
      assert s[5] == '{';
    } else {
      assert s[6..] == Hex4(LowSurrogate(n))[..k - 8] + g;
      BrokenHex(Hex4(LowSurrogate(n))[..k - 8], g);
    }
  }

  /** A string cut anywhere, then a closing text. */
  lemma {:induction false} GluedChars(s: string, k: nat, g: string)
    requires Closing(g) && k < |CharsTo(s, "")|
    ensures Ends(ParseChars(CharsTo(s, "")[..k] + g))
  {
    hide Escape, ParseEscape, ParseValue;
    var text := CharsTo(s, "");
    if k == 0 {
      assert text[..k] + g == g;
    } else if s != "" {
      var e, more := Escape(s[0]), CharsTo(s[1..], "");
      EscapeNotEmpty(s[0]);
      if k < |e| {
        BrokenEscape(s[0], k, g);
        assert (text[..k] + g)[1..] == e[1..k] + g;
      } else {
        var j := k - |e|;
        GluedChars(s[1..], j, g);
        var tail := more[..j] + g;
        assert text[..k] + g == e + tail;
        OneCharacter(s[0], tail);
      }
    }
  }

  /** A written character is read, and reading goes on after it. */
  lemma OneCharacter(c: char, tail: string)
    ensures ParseChars(Escape(c) + tail) ==
            if ParseChars(tail).Failed? then Failed else Read([c] + ParseChars(tail).got, ParseChars(tail).left)
  {
    hide Escape, ParseEscape;
    EscapeNotEmpty(c);
    if Escape(c)[0] == '\\' {
      EscapeRoundTrip(c, tail);
    } else {
      PlainIsItself(c);
    }
  }

  /* ---- Inside a value ------------------------------------------------------------------------ */

  lemma {:induction false} GluedRun(text: string, g: string)
    requires Closing(g) && forall c :: c in text ==> IsNumberChar(c)
    ensures NumberRun(text + g) == Read(text, g)
  {
    hide Closing, NumberRun;
    StartsWithBrace(g);
    RunOfNumber(text, g);
  }

  lemma GluedWord(word: string, v: Value, k: nat, g: string)
    requires Closing(g) && k < |word| && '{' !in word
    ensures ParseWord(word[..k] + g, word, v).Failed?
  {
    hide Closing;
    StartsWithBrace(g);
    var s := word[..k] + g;
    if |s| >= |word| {
      assert s[..|word|][k] == '{' && word[k] != '{';
    }
  }

  lemma GluedScalar(v: Value, k: nat, g: string)
    requires WellFormed(v) && Closing(g) && 0 < k < |Encode(v)| && !v.Array? && !v.Object?
    ensures Ends(ParseValue(Encode(v)[..k] + g))
  {
    hide ParseItems, ParseMembers, ParseChars, CharsTo, IsNumber, NumberRun, ParseWord, Closing;
    var s := Encode(v)[..k] + g;
    FirstCharacter(v, "");
    StartsWithBrace(g);
    assert Skip(s) == s && s[0] == Encode(v)[0];
    match v
    case Null =>
      assert "null" + "" == "null";
      GluedWord("null", v, k, g);
    case Bool(b) =>
      var word := if b then "true" else "false";
      assert word + "" == word;
      GluedWord(word, v, k, g);
    case Number(text) =>
      assert text + "" == text;
      GluedRun(text[..k], g);
    case Text(t) =>
      GluedChars(t, k - 1, g);
      assert s[1..] == CharsTo(t, "")[..k - 1] + g;
  }

  /** An opening bracket before text that holds no items. */
  lemma ArrayFails(inner: string)
    requires inner != "" && !IsBlank(inner[0]) && inner[0] != ']' && ParseItems(inner).Failed?
    ensures ParseValue(['['] + inner).Failed?
  {
    hide ParseItems, ParseMembers, ParseScalar;
    var s := ['['] + inner;
    assert Skip(s) == s && s[1..] == inner;
  }

  /** An opening brace before text that holds no members. */
  lemma ObjectFails(inner: string)
    requires inner != "" && (inner[0] == '{' || inner[0] == '"') && ParseMembers(inner).Failed?
    ensures ParseValue(['{'] + inner).Failed?
  {
    hide ParseItems, ParseMembers, ParseScalar;
    var s := ['{'] + inner;
    assert Skip(s) == s && s[1..] == inner;
  }

  /** A value cut anywhere, then a closing text. */
  lemma {:induction false} GluedValue(v: Value, k: nat, g: string)
    requires WellFormed(v) && Closing(g) && 0 < k < |Encode(v)|
    ensures Ends(ParseValue(Encode(v)[..k] + g))
    ensures v.Array? || v.Object? ==> ParseValue(Encode(v)[..k] + g).Failed?
    decreases v, 1
  {
    hide ParseValue, ParseItems, ParseMembers, CharsTo, Closing;
    var s := Encode(v)[..k] + g;
    StartsWithBrace(g);
    match v
    case Array(items) =>
      ItemsTail(items, "", [']']);
      assert "" + [']'] == [']'] && [']'] + "" == [']'];
      var inner := ItemsTo(items, "")[..k - 1] + g;
      assert s == ['['] + inner;
      GluedItems(items, k - 1, g);
      FirstOfGlued(items, k - 1, g);
      ArrayFails(inner);
    case Object(members) =>
      ObjectIsBraced(members);
      var inner := MembersTo(members, "")[..k - 1] + g;
      assert s == ['{'] + inner;
      GluedMembers(members, k - 1, g);
      assert inner[0] == '{' || inner[0] == '"';
      ObjectFails(inner);
    case _ => GluedScalar(v, k, g);
  }

  lemma FirstOfGlued(xs: Items, k: nat, g: string)
    requires WellFormedItems(xs) && Closing(g) && k <= |ItemsTo(xs, "")|
    ensures var s := ItemsTo(xs, "")[..k] + g; s != "" && !IsBlank(s[0]) && s[0] != ']'
  {
    hide Closing;
    StartsWithBrace(g);
    if k > 0 {
      FirstItemCharacter(xs, "");
      assert (ItemsTo(xs, "")[..k] + g)[0] == ItemsTo(xs, "")[0];
    }
  }

  /** After such an end neither items nor members go on. */
  lemma EndedItem(s: string)
    requires Ends(ParseValue(s))
    ensures ParseItems(s).Failed?
  {
    hide ParseValue;
    var r := ParseValue(s);
    assert r.Read? && r.left != "" ==> Skip(r.left) == r.left;
  }

  lemma {:induction false} GluedItems(xs: Items, k: nat, g: string)
    requires WellFormedItems(xs) && Closing(g) && k <= |ItemsTo(xs, "")|
    ensures ParseItems(ItemsTo(xs, "")[..k] + g).Failed?
    decreases xs, 0
  {
    hide ParseValue, ParseItems, ValueTo, ParseChars;
    var s := ItemsTo(xs, "")[..k] + g;
    if k == 0 {
      assert s == g;
      EndedItem(s);
    } else {
      var v := Encode(xs.head);
      var after := if xs.tail.NoItems? then "" else ", " + ItemsTo(xs.tail, "");
      ValueTail(xs.head, "", after);
      assert "" + after == after && ItemsTo(xs, "") == v + after;
      if k < |v| {
        assert s == v[..k] + g;
        GluedValue(xs.head, k, g);
        EndedItem(s);
      } else {
        var rest := after[..k - |v|] + g;
        assert s == v + rest;
        ValueTail(xs.head, "", rest);
        assert "" + rest == rest;
        ValueRoundTrip(xs.head, rest);
        if k == |v| {
          assert rest == g;
          EndedItem(s);
        } else {
          var j := k - |v| - 1;
          SeparatorThen(ItemsTo(xs.tail, ""), j, g);
          GluedItems(xs.tail, if j == 0 then 0 else j - 1, g);
          MoreItems(s, rest, xs.head);
        }
      }
    }
  }

  /** After a comma the items must go on. */
  lemma MoreItems(s: string, rest: string, v: Value)
    requires ParseValue(s) == Read(v, rest) && rest != "" && rest[0] == ','
    ensures ParseItems(rest[1..]).Failed? ==> ParseItems(s).Failed?
  {
    hide ParseValue;
  }

  /** A separator cut anywhere, then g: the comma, and a text that reads like the rest. */
  lemma SeparatorThen(more: string, j: nat, g: string)
    requires j <= |more| + 1
    ensures var rest := (", " + more)[..j + 1] + g;
            && rest[0] == ','
            && rest[1..] == if j == 0 then g else [' '] + (more[..j - 1] + g)
    ensures ParseItems([' '] + (more[..if j == 0 then 0 else j - 1] + g)) ==
            ParseItems(more[..if j == 0 then 0 else j - 1] + g)
    ensures ParseMembers([' '] + (more[..if j == 0 then 0 else j - 1] + g)) ==
            ParseMembers(more[..if j == 0 then 0 else j - 1] + g)
    ensures more[..0] + g == g
  {
    hide ParseItems, ParseMembers;
    SkipLeading(more[..if j == 0 then 0 else j - 1] + g);
    var rest := (", " + more)[..j + 1] + g;
    if j > 0 {
      assert rest[1..] == [' '] + (more[..j - 1] + g);
    } else {
      assert rest[1..] == g;
    }
  }

  /** After the value of a member, no closing brace and no further member can be read. */
  predicate DeadEnd(r: Parsed<Value>) {
    Ends(r) || (r.left[0] == ',' && ParseMembers(r.left[1..]).Failed?)
  }

  lemma KeyFails(keyText: string)
    requires Ends(ParseChars(keyText))
    ensures ParseMembers(['"'] + keyText).Failed?
  {
    hide ParseChars, ParseValue;
    var s, r := ['"'] + keyText, ParseChars(keyText);
    assert Skip(s) == s && s[1..] == keyText;
    assert r.Read? && r.left != "" ==> Skip(r.left) == r.left;
  }

  lemma ValueFails(keyText: string, key: string, x: string)
    requires ParseChars(keyText) == Read(key, [':'] + x) && DeadEnd(ParseValue(x))
    ensures ParseMembers(['"'] + keyText).Failed?
  {
    hide ParseChars, ParseValue;
    var s, colon := ['"'] + keyText, [':'] + x;
    assert Skip(s) == s && s[1..] == keyText && Skip(colon) == colon && colon[1..] == x;
    var r := ParseValue(x);
    assert r.Read? && r.left != "" ==> Skip(r.left) == r.left;
  }

  /** What the members' text after the value is. */
  function AfterValue(ms: Members): string
    requires ms.Member?
  {
    if ms.rest.NoMembers? then "" else ", " + MembersTo(ms.rest, "")
  }

  lemma MembersText(ms: Members)
    requires ms.Member?
    ensures MembersTo(ms, "") ==
            ['"'] + (CharsTo(ms.key, "") + ([':'] + ([' '] + (Encode(ms.value) + AfterValue(ms)))))
  {
    hide CharsTo, ValueTo;
    var after := AfterValue(ms);
    ValueTail(ms.value, "", after);
    assert "" + after == after;
    var x := ": " + ValueTo(ms.value, after);
    CharsTail(ms.key, "", x);
    assert "" + x == x;
    assert x == [':'] + ([' '] + ValueTo(ms.value, after));
  }

  /** A whole value, what follows it cut after m characters, and then g. */
  lemma {:induction false} GluedAfterValue(ms: Members, m: nat, g: string)
    requires ms.Member? && WellFormedMembers(ms) && Closing(g) && m <= |AfterValue(ms)|
    ensures DeadEnd(ParseValue(Encode(ms.value) + (AfterValue(ms)[..m] + g)))
    decreases ms, 0
  {
    hide ParseValue, ParseMembers, MembersTo, ValueTo, Closing;
    var rest := AfterValue(ms)[..m] + g;
    StartsWithBrace(g);
    ValueTail(ms.value, "", rest);
    assert "" + rest == rest;
    ValueRoundTrip(ms.value, rest);
    if m == 0 {
      assert rest == g;
    } else {
      SeparatorThen(MembersTo(ms.rest, ""), m - 1, g);
      GluedMembers(ms.rest, if m == 1 then 0 else m - 2, g);
    }
  }

  /** The value of a member, cut in or after it; i counts from the space before it. */
  lemma {:induction false} GluedAfterColon(ms: Members, i: nat, g: string)
    requires ms.Member? && WellFormedMembers(ms) && Closing(g)
    requires i <= 1 + |Encode(ms.value)| + |AfterValue(ms)|
    ensures DeadEnd(ParseValue(([' '] + (Encode(ms.value) + AfterValue(ms)))[..i] + g))
    decreases ms, 1
  {
    hide ParseValue, ParseMembers, Encode, AfterValue, ParseItems, ParseChars, DeadEnd;
    var v, after := Encode(ms.value), AfterValue(ms);
    var x := ([' '] + (v + after))[..i] + g;
    if i == 0 {
      assert x == g;
      EndIsDead(x);
    } else if i == 1 {
      SkipLeading(g);
      assert x == [' '] + g;
      EndIsDead(x);
    } else if i - 1 < |v| {
      SkipLeading(v[..i - 1] + g);
      assert x == [' '] + (v[..i - 1] + g);
      GluedValue(ms.value, i - 1, g);
      EndIsDead(x);
    } else {
      var rest := after[..i - 1 - |v|] + g;
      SkipLeading(v + rest);
      assert x == [' '] + (v + rest);
      GluedAfterValue(ms, i - 1 - |v|, g);
    }
  }

  lemma EndIsDead(s: string)
    requires Ends(ParseValue(s))
    ensures DeadEnd(ParseValue(s))
  {
    hide ParseValue;
  }

  lemma {:induction false} GluedMembers(ms: Members, k: nat, g: string)
    requires WellFormedMembers(ms) && Closing(g) && k <= |MembersTo(ms, "")|
    ensures ParseMembers(MembersTo(ms, "")[..k] + g).Failed?
    decreases ms, 2
  {
    hide ParseValue, ValueTo, CharsTo, ParseChars, AfterValue, Closing;
    StartsWithBrace(g);
    var s := MembersTo(ms, "")[..k] + g;
    if k == 0 {
      assert s == g;
    } else {
      hide ParseMembers, MembersTo;
      MembersText(ms);
      var keyText, more := CharsTo(ms.key, ""), [' '] + (Encode(ms.value) + AfterValue(ms));
      if k - 1 < |keyText| {
        GluedChars(ms.key, k - 1, g);
        KeyFails(keyText[..k - 1] + g);
        assert s == ['"'] + (keyText[..k - 1] + g);
      } else {
        var rest := ([':'] + more)[..k - 1 - |keyText|] + g;
        assert s == ['"'] + (keyText + rest);
        CharsTail(ms.key, "", rest);
        assert "" + rest == rest;
        CharsRoundTrip(ms.key, rest);
        if k - 1 == |keyText| {
          assert rest == g;
          KeyFails(keyText + rest);
        } else {
          var i := k - |keyText| - 2;
          assert rest == [':'] + (more[..i] + g);
          GluedAfterColon(ms, i, g);
          ValueFails(keyText + rest, ms.key, more[..i] + g);
        }
      }
    }
  }

  /* ---- Pieces of entries ------------------------------------------------------------------------ */

  /** The first characters of an entry's text, at least one and at most all of them. */
  datatype Piece = Piece(r: Record, length: nat)

  function PieceText(p: Piece): string {
    var s := Encode(ToJson(p.r));
    if p.length <= |s| then s[..p.length] else s
  }

  predicate IsPiece(f: Formats, p: Piece) {
    Complete(f, p.r) && 0 < p.length <= |Encode(ToJson(p.r))|
  }

  ghost predicate ArePieces(f: Formats, ps: seq<Piece>) {
    forall p :: p in ps ==> IsPiece(f, p)
  }

  function Joined(ps: seq<Piece>): string {
    if |ps| == 0 then "" else PieceText(ps[0]) + Joined(ps[1..])
  }

  lemma EntryBegins(r: Record)
    ensures var s := Encode(ToJson(r));
            |s| > 2 && s[0] == '{' && s[1] == '"' && s[2] == 'e'
  {
    hide StageText, OptionalText;
    var ms := ToJson(r).members;
    var s := Encode(ToJson(r));
    assert s == ['{'] + MembersTo(ms, ['}'] + "");
    assert Escape("entry_id"[0]) == ['e'];
    assert CharsTo("entry_id", ": " + ValueTo(ms.value, ", " + MembersTo(ms.rest, ['}'] + "")))[0] == 'e';
  }

  /** Read as part of a string, an entry begins with one character, a quote and an 'e'. */
  lemma BeginningAsChars(r: Record, k: nat, g: string)
    requires 0 < k <= |Encode(ToJson(r))| && (g == "" || Closing(g))
    ensures Ends(ParseChars(Encode(ToJson(r))[..k] + g))
  {
    hide Encode, ToJson, ParseEscape, ParseValue;
    EntryBegins(r);
    var s := Encode(ToJson(r))[..k] + g;
    if k == 1 {
      assert s[1..] == g;
    } else {
      assert s[1] == '"' && ParseChars(s[1..]) == Read("", s[2..]);
      if k == 2 {
        assert s[2..] == g;
      } else {
        assert s[2..][0] == 'e';
      }
    }
  }

  /** Read as a value, an entry cut short and followed by nothing or by a closing text is an error. */
  lemma CutEntryFails(f: Formats, r: Record, k: nat, g: string)
    requires Complete(f, r) && 0 < k < |Encode(ToJson(r))| && (g == "" || Closing(g))
    ensures ParseValue(Encode(ToJson(r))[..k] + g).Failed?
  {
    var v := ToJson(r);
    StoredIsWellFormed(f, r);
    EntryBegins(r);
    hide ToJson, ParseValue, Closing;
    var p, q := Encode(v)[..k], Encode(v)[k..];
    if g == "" {
      assert p + g == p && p + q == Encode(v);
      ValueRoundTrip(v, "");
      if ParseValue(p).Read? {
        ObjectExtends(p, q);
        assert false;
      }
    } else {
      GluedValue(v, k, g);
    }
  }

  /** A whole entry is read, and what follows is left. */
  lemma WholeEntryReads(f: Formats, r: Record, g: string)
    requires Complete(f, r)
    ensures ParseValue(Encode(ToJson(r)) + g) == Read(ToJson(r), g)
  {
    var v := ToJson(r);
    StoredIsWellFormed(f, r);
    hide ToJson, ParseValue;
    ValueTail(v, "", g);
    assert "" + g == g;
    ValueRoundTrip(v, g);
  }

  lemma PieceThen(f: Formats, p: Piece, g: string)
    requires IsPiece(f, p) && (g == "" || Closing(g))
    ensures Closing(PieceText(p) + g)
    ensures g != "" ==> Decode(PieceText(p) + g).None?
  {
    hide Encode, ToJson, Complete, ParseValue, ParseChars;
    EntryBegins(p.r);
    BeginningAsChars(p.r, p.length, g);
    if p.length < |Encode(ToJson(p.r))| {
      CutEntryFails(f, p.r, p.length, g);
    } else {
      assert PieceText(p) == Encode(ToJson(p.r));
      WholeEntryReads(f, p.r, g);
      assert g != "" ==> Skip(g) == g;
    }
  }

  /** Joined pieces close nothing; two or more of them never read as a value. */
  lemma {:induction false} JoinedPieces(f: Formats, ps: seq<Piece>)
    requires ArePieces(f, ps)
    ensures |ps| > 0 ==> Closing(Joined(ps))
    ensures |ps| > 1 ==> Decode(Joined(ps)).None?
  {
    hide PieceText, Closing, IsPiece;
    if |ps| > 0 {
      JoinedPieces(f, ps[1..]);
      assert ps[0] in ps;
      PieceThen(f, ps[0], Joined(ps[1..]));
      if |ps| > 1 {
        StartsWithBrace(Joined(ps[1..]));
      }
    }
  }

  /* ---- The file ------------------------------------------------------------------------------- */

  /** Torn text and a whole entry on one line never read as an entry. */
  lemma GluedLine(f: Formats, r: Record, k: nat, next: Record)
    requires Complete(f, r) && Complete(f, next) && 0 < k <= |Encode(ToJson(r))|
    ensures DecodeRecord(f, Encode(ToJson(r))[..k] + Encode(ToJson(next))).None?
  {
    hide Encode, ToJson, Complete, Decode;
    EntryBegins(next);
    var s := Encode(ToJson(next));
    assert s + "" == s && s[..|s|] == s;
    PieceThen(f, Piece(next, |s|), "");
    PieceThen(f, Piece(r, k), s);
  }

  lemma {:induction false} LoadAfterLines(f: Formats, rs: seq<Record>, t: string)
    requires AllComplete(f, rs)
    ensures LoadText(f, TextOf(rs) + t) == Prepend(rs, LoadText(f, t))
  {
    hide LoadText, LineOf, Complete;
    if rs == [] {
      assert TextOf(rs) + t == t;
      PrependNothing(LoadText(f, t));
    } else {
      assert rs[0] in rs;
      LoadAfterLines(f, rs[1..], t);
      LoadLine(f, rs[0], TextOf(rs[1..]) + t);
      assert TextOf(rs) + t == LineOf(rs[0]) + (TextOf(rs[1..]) + t);
      PrependTwice([rs[0]], rs[1..], LoadText(f, t));
      assert [rs[0]] + rs[1..] == rs;
    }
  }

  lemma LoadBadLine(f: Formats, line: string, rest: string)
    requires line != "" && Strip(line + "\n") == line && DecodeRecord(f, line).None?
    requires forall k :: 0 <= k < |line| ==> line[k] != '\n'
    ensures LoadText(f, line + "\n" + rest).Err?
  {
    hide DecodeRecord, Strip;
    FirstLine(line, rest);
    var file := line + "\n" + rest;
    assert file[..|line| + 1] == line + "\n";
  }

  lemma PlainConcat(p: string, g: string)
    requires Printable(p) && Printable(g)
    ensures forall k :: 0 <= k < |p + g| ==> (p + g)[k] != '\n'
  {
  }

  lemma PrintablePrefix(s: string, k: nat)
    requires Printable(s) && 0 < k <= |s|
    ensures Printable(s[..k]) && s[..k] != "" && s[..k][0] == s[0]
  {
  }

  lemma LoadGluedText(f: Formats, p: string, g: string, t: string)
    requires Printable(p) && Printable(g) && |p| > 0 && p[0] == '{' && |g| > 0 && g[|g| - 1] == '}'
    requires DecodeRecord(f, p + g).None?
    ensures LoadText(f, p + (g + "\n" + t)).Err?
  {
    PlainConcat(p, g);
    hide DecodeRecord, Strip, LoadText, Printable;
    assert p + (g + "\n" + t) == (p + g) + "\n" + t;
    StripsNothing(p + g);
    LoadBadLine(f, p + g, t);
  }

  /** A torn entry followed by a new one makes loading fail. */
  lemma LoadGlued(f: Formats, r: Record, k: nat, next: Record, t: string)
    requires Complete(f, r) && Complete(f, next) && 0 < k <= |Encode(ToJson(r))|
    ensures LoadText(f, Encode(ToJson(r))[..k] + (LineOf(next) + t)).Err?
  {
    hide Encode, ToJson, DecodeRecord, Complete, LoadText, Strip, Printable;
    EntryText(f, r);
    EntryText(f, next);
    GluedLine(f, r, k, next);
    var s, g := Encode(ToJson(r)), Encode(ToJson(next));
    PrintablePrefix(s, k);
    LoadGluedText(f, s[..k], g, t);
  }

  /** The cut is between two lines. */
  predicate AtLineEnd(rs: seq<Record>, k: nat) {
    k == |TextOf(rs[..Kept(rs, k)])|
  }

  lemma AtLineEndOfRest(rs: seq<Record>, k: nat)
    requires |rs| > 0 && k >= |LineOf(rs[0])|
    ensures Kept(rs, k) == 1 + Kept(rs[1..], k - |LineOf(rs[0])|)
    ensures AtLineEnd(rs, k) <==> AtLineEnd(rs[1..], k - |LineOf(rs[0])|)
  {
    hide Encode, ToJson;
    var n := Kept(rs[1..], k - |LineOf(rs[0])|);
    assert rs[..1 + n][0] == rs[0] && rs[..1 + n][1..] == rs[1..][..n];
  }

  /**
   * A writer was interrupted anywhere and its file continued: the file loads exactly when the
   * interruption fell between two lines, and then to the entries before it and after it.
   * Otherwise loading fails; it never returns something else.
   */
  lemma {:induction false} ContinuedFile(f: Formats, rs: seq<Record>, k: nat, more: seq<Record>)
    requires AllComplete(f, rs) && AllComplete(f, more) && |more| > 0 && k <= |TextOf(rs)|
    ensures LoadText(f, TextOf(rs)[..k] + TextOf(more)).Ok? <==> AtLineEnd(rs, k)
    ensures AtLineEnd(rs, k) ==> LoadText(f, TextOf(rs)[..k] + TextOf(more)) == Ok(rs[..Kept(rs, k)] + more)
  {
    hide LoadText, Encode, ToJson, Complete, AtLineEnd;
    if k == 0 {
      NothingKept(f, rs);
      LoadAfterLines(f, more, "");
      LoadNothing(f);
      assert TextOf(rs)[..0] + TextOf(more) == TextOf(more) == TextOf(more) + "";
      assert rs[..0] + more == more == more + [];
    } else {
      var s, tail := Encode(ToJson(rs[0])), TextOf(rs[1..]);
      assert rs[0] in rs && more[0] in more;
      if k <= |s| {
        LoadGlued(f, rs[0], k, more[0], TextOf(more[1..]));
        TakeOfFirst(s, "\n" + tail, k);
        assert LineOf(rs[0]) + tail == s + ("\n" + tail);
        NotAtLineEnd(rs, k);
      } else {
        var j := k - |LineOf(rs[0])|;
        ContinuedFile(f, rs[1..], j, more);
        AtLineEndOfRest(rs, k);
        TakePastFirst(LineOf(rs[0]), tail, k);
        LoadLine(f, rs[0], tail[..j] + TextOf(more));
        assert LineOf(rs[0]) + tail[..j] + TextOf(more) == LineOf(rs[0]) + (tail[..j] + TextOf(more));
        var n := Kept(rs[1..], j);
        assert [rs[0]] + (rs[1..][..n] + more) == rs[..1 + n] + more;
      }
    }
  }

  lemma NothingKept(f: Formats, rs: seq<Record>)
    requires AllComplete(f, rs)
    ensures Kept(rs, 0) == 0 && AtLineEnd(rs, 0)
  {
    if |rs| > 0 {
      assert rs[0] in rs;
      EntryText(f, rs[0]);
    }
    assert rs[..0] == [];
  }

  lemma NotAtLineEnd(rs: seq<Record>, k: nat)
    requires |rs| > 0 && 0 < k <= |Encode(ToJson(rs[0]))|
    ensures !AtLineEnd(rs, k)
  {
    hide Encode, ToJson;
    assert rs[..0] == [] && rs[..1] == [rs[0]] && [rs[0]][1..] == [];
  }

  /* ---- The objects ---------------------------------------------------------------------------- */

  /** The file on disk: what it held when it was opened, and then the text of the entries in `log`. */
  class Store {
    const formats: Formats
    const earlier: string
    var text: string
    ghost var log: seq<Record>

    ghost predicate Valid()
      reads this
    {
      text == earlier + TextOf(log) && AllComplete(formats, log)
    }

    constructor (formats: Formats, contents: string)
      ensures Valid() && log == [] && this.formats == formats && earlier == contents
    {
      this.formats, earlier := formats, contents;
      text, log := contents, [];
      new;
      assert contents + TextOf([]) == contents;
    }

    /** open(path, "a"), one write. */
    method Append(r: Record)
      requires Valid() && Complete(formats, r)
      modifies this
      ensures Valid() && log == old(log) + [r]
    {
      hide LineOf, Complete;
      text := text + LineOf(r);
      log := log + [r];
      assert log[..|log| - 1] == old(log);
      TextSnoc(log);
      assert earlier + TextOf(old(log)) + LineOf(r) == earlier + (TextOf(old(log)) + LineOf(r));
    }

    /**
     * Loading the file returns what it held before and then every entry any journal appended, in the
     * order of the appends, unless it ended inside a line when it was opened.
     */
    method LoadBack() returns (r: Result<seq<Record>, LoadError>)
      requires Valid()
      ensures r == LoadText(formats, Universal(text))
      ensures Finished(earlier) ==> r == Then(LoadText(formats, Universal(earlier)), Ok(log))
    {
      hide LoadText, Universal, TextOf;
      r := Load(formats, Some(text));
      if Finished(earlier) {
        LoadBehind(formats, earlier, log, |TextOf(log)|);
        WholeTextKept(formats, log);
      }
    }
  }

  /** One component's journal: its own entries in memory, and the file it may share with others. */
  class Journal {
    const store: Store
    var entries: seq<Record>

    constructor (file: Store)
      ensures store == file && entries == []
    {
      store, entries := file, [];
    }

    method Record(entryId: string, ts: string, stage: GateStage, refId: Option<string>, strategyId: Option<string>,
                  level: string, payload: Members)
      returns (entry: JournalFile.Record)
      requires store.Valid() && WellFormedMembers(payload)
      requires store.formats.isUuid(entryId) && store.formats.isTime(Text(ts))
      requires refId.Some? ==> store.formats.isUuid(refId.value)
      modifies this, store
      ensures store.Valid()
      ensures entry ==
              JournalFile.Record(Some(entryId), Some(Text(ts)), stage, refId, strategyId, level, payload)
      ensures entries == old(entries) + [entry] && store.log == old(store.log) + [entry]
    {
      entry := JournalFile.Record(Some(entryId), Some(Text(ts)), stage, refId, strategyId, level, payload);
      entries := entries + [entry];
      store.Append(entry);
    }
  }
}
