/** Laws of the JSON text: round trip, no line break inside it, and no strict prefix that reads. */
module JsonLaws {
  import opened Models
  import opened Json

  /* ---- Round trip ------------------------------------------------------------------------ */

  lemma {:induction false} RunOfNumber(text: string, rest: string)
    requires forall c :: c in text ==> IsNumberChar(c)
    requires rest == "" || !IsNumberChar(rest[0])
    ensures NumberRun(text + rest) == Read(text, rest)
  {
    if text == "" {
      assert text + rest == rest;
    } else {
      RunOfNumber(text[1..], rest);
      assert (text + rest)[1..] == text[1..] + rest;
      assert [text[0]] + text[1..] == text;
    }
  }

  lemma NumberStart(text: string)
    requires IsNumber(text)
    ensures |text| > 0 && (text[0] == '-' || '0' <= text[0] <= '9')
  {
    if text[0] != '-' {
      var i, j :| 0 <= i <= j <= |text| && SplitsAsNumber(text, i, j);
      assert text[..i][0] == text[0];
    }
  }

  /** The first character of a written value. */
  lemma FirstCharacter(v: Value, rest: string)
    requires WellFormed(v)
    ensures var s := ValueTo(v, rest);
            && |s| > 0 && !IsBlank(s[0]) && s[0] != ']' && s[0] != '}'
            && (s[0] == '{' <==> v.Object?) && (s[0] == '[' <==> v.Array?) && (s[0] == '"' <==> v.Text?)
            && (s[0] == 'n' <==> v.Null?) && (s[0] == 't' <==> v == Bool(true)) && (s[0] == 'f' <==> v == Bool(false))
  {
    if v.Number? {
      NumberStart(v.text);
    }
  }

  lemma SkipLeading(s: string)
    ensures Skip([' '] + s) == Skip(s)
    ensures ParseValue([' '] + s) == ParseValue(s)
    ensures ParseMembers([' '] + s) == ParseMembers(s)
    ensures ParseItems([' '] + s) == ParseItems(s)
  {
    assert ([' '] + s)[1..] == s;
    SkipTwice(s);
  }

  lemma {:induction false} SkipTwice(s: string)
    ensures Skip(Skip(s)) == Skip(s)
  {
  }

  lemma WordRoundTrip(word: string, v: Value, rest: string)
    requires word != ""
    ensures ParseWord(word + rest, word, v) == Read(v, rest)
  {
    assert (word + rest)[..|word|] == word;
  }

  lemma ScalarRoundTrip(v: Value, rest: string)
    requires WellFormed(v) && (v.Null? || v.Bool? || v.Number? || v.Text?)
    requires v.Number? ==> rest == "" || !IsNumberChar(rest[0])
    ensures ParseValue(ValueTo(v, rest)) == Read(v, rest)
  {
    hide ParseItems, ParseMembers, IsNumber, NumberRun, ParseWord, ParseChars;
    FirstCharacter(v, rest);
    var s := ValueTo(v, rest);
    assert Skip(s) == s;
    match v
    case Number(text) => RunOfNumber(text, rest);
    case Text(t) =>
      CharsRoundTrip(t, rest);
      assert s[1..] == CharsTo(t, rest);
    case Null => WordRoundTrip("null", v, rest);
    case Bool(b) => WordRoundTrip(if b then "true" else "false", v, rest);
  }

  /** How the reader takes an array apart. */
  lemma ReadArray(inner: string, xs: Items, rest: string)
    requires if xs.NoItems? then inner == [']'] + rest
             else |inner| > 0 && !IsBlank(inner[0]) && inner[0] != ']' && ParseItems(inner) == Read(xs, rest)
    ensures ParseValue(['['] + inner) == Read(Array(xs), rest)
  {
    hide ParseItems, ParseMembers, ParseScalar;
    var s := ['['] + inner;
    assert Skip(s) == s && s[1..] == inner && Skip(inner) == inner;
    if xs.NoItems? {
      assert inner[1..] == rest;
    }
  }

  /** How the reader takes an object apart. */
  lemma ReadObject(inner: string, ms: Members, rest: string)
    requires if ms.NoMembers? then inner == ['}'] + rest
             else |inner| > 0 && inner[0] == '"' && ParseMembers(inner) == Read(ms, rest)
    ensures ParseValue(['{'] + inner) == Read(Object(ms), rest)
  {
    hide ParseItems, ParseMembers, ParseScalar;
    var s := ['{'] + inner;
    assert Skip(s) == s && s[1..] == inner && Skip(inner) == inner;
    if ms.NoMembers? {
      assert inner[1..] == rest;
    }
  }

  /** How the reader takes the first member apart; after is the text that follows its value. */
  lemma ReadMember(key: string, keyText: string, valueText: string, v: Value, after: string, more: Parsed<Members>)
    requires ParseChars(keyText) == Read(key, ": " + valueText)
    requires ParseValue(valueText) == Read(v, after)
    requires |after| > 0 && (after[0] == '}' || after[0] == ',')
    requires after[0] == ',' ==> ParseMembers(after[1..]) == more
    ensures after[0] == '}' ==> ParseMembers(['"'] + keyText) == Read(Member(key, v, NoMembers), after[1..])
    ensures after[0] == ',' && more.Read? ==>
              ParseMembers(['"'] + keyText) == Read(Member(key, v, more.got), more.left)
    ensures after[0] == ',' && more.Failed? ==> ParseMembers(['"'] + keyText).Failed?
  {
    hide ParseValue, ParseChars;
    var s, colon := ['"'] + keyText, ": " + valueText;
    assert Skip(s) == s && s[1..] == keyText;
    assert Skip(colon) == colon && colon[1..] == [' '] + valueText;
    SkipLeading(valueText);
    assert Skip(after) == after;
  }

  /** What was written is read back, and the reader stops exactly at its end. */
  lemma {:induction false} ValueRoundTrip(v: Value, rest: string)
    requires WellFormed(v) && (v.Number? ==> rest == "" || !IsNumberChar(rest[0]))
    ensures ParseValue(ValueTo(v, rest)) == Read(v, rest)
    decreases v, 1
  {
    hide ParseValue, ParseItems, ParseMembers;
    match v
    case Array(items) =>
      if items.Item? {
        FirstItemCharacter(items, [']'] + rest);
        ItemsRoundTrip(items, rest);
      }
      ReadArray(ItemsTo(items, [']'] + rest), items, rest);
    case Object(members) =>
      if members.Member? {
        MembersRoundTrip(members, rest);
      }
      ReadObject(MembersTo(members, ['}'] + rest), members, rest);
    case _ => ScalarRoundTrip(v, rest);
  }

  lemma FirstItemCharacter(xs: Items, rest: string)
    requires WellFormedItems(xs) && xs.Item?
    ensures var s := ItemsTo(xs, rest); |s| > 0 && !IsBlank(s[0]) && s[0] != ']'
  {
    FirstCharacter(xs.head, if xs.tail.NoItems? then rest else ", " + ItemsTo(xs.tail, rest));
  }

  lemma {:induction false} ItemsRoundTrip(xs: Items, rest: string)
    requires WellFormedItems(xs) && xs.Item?
    ensures ParseItems(ItemsTo(xs, [']'] + rest)) == Read(xs, rest)
    decreases xs, 0
  {
    hide ParseValue, ValueTo;
    var s := ItemsTo(xs, [']'] + rest);
    if xs.tail.NoItems? {
      ValueRoundTrip(xs.head, [']'] + rest);
      assert ([']'] + rest)[1..] == rest;
    } else {
      var more := ItemsTo(xs.tail, [']'] + rest);
      var after := ", " + more;
      ValueRoundTrip(xs.head, after);
      ItemsRoundTrip(xs.tail, rest);
      assert after[1..] == [' '] + more;
      SkipLeading(more);
    }
  }

  lemma {:induction false} MembersRoundTrip(ms: Members, rest: string)
    requires WellFormedMembers(ms) && ms.Member?
    ensures ParseMembers(MembersTo(ms, ['}'] + rest)) == Read(ms, rest)
    decreases ms, 0
  {
    hide ParseValue, ValueTo, ParseChars, CharsTo, ParseMembers;
    var after := if ms.rest.NoMembers? then ['}'] + rest else ", " + MembersTo(ms.rest, ['}'] + rest);
    var value := ValueTo(ms.value, after);
    CharsRoundTrip(ms.key, ": " + value);
    ValueRoundTrip(ms.value, after);
    if ms.rest.NoMembers? {
      assert after[1..] == rest;
    } else {
      var more := MembersTo(ms.rest, ['}'] + rest);
      assert after[1..] == [' '] + more;
      SkipLeading(more);
      MembersRoundTrip(ms.rest, rest);
    }
    ReadMember(ms.key, CharsTo(ms.key, ": " + value), value, ms.value, after,
               if ms.rest.NoMembers? then Failed else Read(ms.rest, rest));
  }

  /** decode(encode(v)) == v. */
  lemma RoundTrip(v: Value)
    requires WellFormed(v)
    ensures Decode(Encode(v)) == Some(v)
  {
    ValueRoundTrip(v, "");
  }

  /* ---- No line break ------------------------------------------------------------------------ */

  predicate Printable(s: string) {
    forall k :: 0 <= k < |s| ==> ' ' <= s[k] <= '~'
  }

  lemma {:induction false} CharsPrintable(s: string, rest: string)
    requires Printable(rest)
    ensures Printable(CharsTo(s, rest))
  {
    hide Escape;
    if |s| > 0 {
      CharsPrintable(s[1..], rest);
      EscapeNotEmpty(s[0]);
    }
  }

  /** A written value holds characters from ' ' to '~' only: no line break, no character to translate. */
  lemma {:induction false} ValuePrintable(v: Value, rest: string)
    requires WellFormed(v) && Printable(rest)
    ensures Printable(ValueTo(v, rest))
    decreases v
  {
    hide IsNumber;
    match v
    case Array(items) => ItemsPrintable(items, [']'] + rest);
    case Object(members) => MembersPrintable(members, ['}'] + rest);
    case Text(s) => CharsPrintable(s, rest);
    case Number(text) =>
      forall k | 0 <= k < |text| ensures ' ' <= text[k] <= '~' {
        assert text[k] in text;
      }
    case _ =>
  }

  lemma {:induction false} ItemsPrintable(xs: Items, rest: string)
    requires WellFormedItems(xs) && Printable(rest)
    ensures Printable(ItemsTo(xs, rest))
    decreases xs
  {
    if xs.Item? {
      if xs.tail.Item? {
        ItemsPrintable(xs.tail, rest);
      }
      ValuePrintable(xs.head, if xs.tail.NoItems? then rest else ", " + ItemsTo(xs.tail, rest));
    }
  }

  lemma {:induction false} MembersPrintable(ms: Members, rest: string)
    requires WellFormedMembers(ms) && Printable(rest)
    ensures Printable(MembersTo(ms, rest))
    decreases ms
  {
    hide CharsTo;
    if ms.Member? {
      if ms.rest.Member? {
        MembersPrintable(ms.rest, rest);
      }
      var after := if ms.rest.NoMembers? then rest else ", " + MembersTo(ms.rest, rest);
      ValuePrintable(ms.value, after);
      CharsPrintable(ms.key, ": " + ValueTo(ms.value, after));
    }
  }

  /* ---- Reading does not look ahead ------------------------------------------------------------ */

  /** r with t after the text it left. */
  function Further<T>(r: Parsed<T>, t: string): Parsed<T> {
    if r.Read? then Read(r.got, r.left + t) else r
  }

  lemma {:induction false} SkipExtends(s: string, t: string)
    requires Skip(s) != ""
    ensures Skip(s + t) == Skip(s) + t
  {
    if IsBlank(s[0]) {
      SkipExtends(s[1..], t);
      assert (s + t)[1..] == s[1..] + t;
    }
  }

  lemma HexExtends(s: string, t: string)
    requires Hex4Value(s) >= 0
    ensures Hex4Value(s + t) == Hex4Value(s)
  {
    hide HexValue;
  }

  lemma UnicodeExtends(s: string, t: string)
    requires ParseUnicode(s).Read?
    ensures ParseUnicode(s + t) == Further(ParseUnicode(s), t)
  {
    hide Hex4Value;
    HexExtends(s, t);
    var n := Hex4Value(s);
    if n < 0xD800 || 0xE000 <= n {
      assert (s + t)[4..] == s[4..] + t;
    } else {
      HexExtends(s[6..], t);
      assert (s + t)[6..] == s[6..] + t && (s + t)[10..] == s[10..] + t;
    }
  }

  lemma EscapeExtends(s: string, t: string)
    requires ParseEscape(s).Read?
    ensures ParseEscape(s + t) == Further(ParseEscape(s), t)
  {
    hide ParseUnicode;
    assert (s + t)[1..] == s[1..] + t;
    if s[0] == 'u' {
      UnicodeExtends(s[1..], t);
    }
  }

  lemma {:induction false} CharsExtend(s: string, t: string)
    requires ParseChars(s).Read?
    ensures ParseChars(s + t) == Further(ParseChars(s), t)
    decreases |s|
  {
    hide ParseEscape;
    assert (s + t)[1..] == s[1..] + t;
    if s[0] == '\\' {
      EscapeExtends(s[1..], t);
      CharsExtend(ParseEscape(s[1..]).left, t);
    } else if s[0] != '"' {
      CharsExtend(s[1..], t);
    }
  }

  lemma {:induction false} RunExtends(s: string, t: string)
    requires NumberRun(s).left != ""
    ensures NumberRun(s + t) == Further(NumberRun(s), t)
  {
    if IsNumberChar(s[0]) {
      RunExtends(s[1..], t);
      assert (s + t)[1..] == s[1..] + t;
    }
  }

  /** A reader that stopped before a character that is not part of a number. */
  predicate Stopped(r: Parsed<Value>) {
    r.Read? && (r.got.Number? ==> r.left != "")
  }

  lemma WordExtends(s: string, t: string, word: string, v: Value)
    requires word != "" && ParseWord(s, word, v).Read?
    ensures ParseWord(s + t, word, v) == Further(ParseWord(s, word, v), t)
  {
    assert (s + t)[..|word|] == s[..|word|] && (s + t)[|word|..] == s[|word|..] + t;
  }

  lemma ScalarExtends(s: string, t: string)
    requires s != "" && Stopped(ParseScalar(s))
    ensures ParseScalar(s + t) == Further(ParseScalar(s), t)
  {
    hide ParseChars, IsNumber, NumberRun, ParseWord;
    if s[0] == '"' {
      assert (s + t)[1..] == s[1..] + t;
      CharsExtend(s[1..], t);
    } else if s[0] == 'n' {
      WordExtends(s, t, "null", Null);
    } else if s[0] == 't' {
      WordExtends(s, t, "true", Bool(true));
    } else if s[0] == 'f' {
      WordExtends(s, t, "false", Bool(false));
    } else {
      RunExtends(s, t);
    }
  }

  /** ParseValue looks past leading white space. */
  lemma SkippedValue(s: string)
    ensures ParseValue(s) == ParseValue(Skip(s))
    ensures ParseMembers(s) == ParseMembers(Skip(s))
  {
    SkipTwice(s);
  }

  /** What follows a value changes neither the value read nor where it ends. */
  lemma {:induction false} ValueExtends(s: string, t: string)
    requires Stopped(ParseValue(s))
    ensures ParseValue(s + t) == Further(ParseValue(s), t)
    decreases |s|, 1
  {
    var u := Skip(s);
    assert u != "";
    SkipExtends(s, t);
    SkippedValue(s);
    SkippedValue(s + t);
    if u[0] == '[' {
      ArrayExtends(u, t);
    } else if u[0] == '{' {
      ObjectExtends(u, t);
    } else {
      hide ParseScalar, ParseItems, ParseMembers;
      assert Skip(u) == u && Skip(u + t) == u + t;
      ScalarExtends(u, t);
    }
  }

  lemma {:induction false} ArrayExtends(s: string, t: string)
    requires s != "" && s[0] == '[' && ParseValue(s).Read?
    ensures ParseValue(s + t) == Further(ParseValue(s), t)
    decreases |s|, 0
  {
    hide ParseItems, ParseMembers, ParseScalar;
    assert Skip(s) == s && Skip(s + t) == s + t && (s + t)[1..] == s[1..] + t;
    var u := Skip(s[1..]);
    assert u != "" by {
      NothingToRead();
    }
    SkipExtends(s[1..], t);
    if u[0] == ']' {
      assert (u + t)[1..] == u[1..] + t;
    } else {
      ItemsExtend(u, t);
    }
  }

  lemma NothingToRead()
    ensures ParseItems("").Failed? && ParseMembers("").Failed?
  {
  }

  lemma {:induction false} ObjectExtends(s: string, t: string)
    requires s != "" && s[0] == '{' && ParseValue(s).Read?
    ensures ParseValue(s + t) == Further(ParseValue(s), t)
    decreases |s|, 0
  {
    hide ParseItems, ParseMembers, ParseScalar;
    assert Skip(s) == s && Skip(s + t) == s + t && (s + t)[1..] == s[1..] + t;
    var u := Skip(s[1..]);
    assert u != "" by {
      NothingToRead();
    }
    SkipExtends(s[1..], t);
    if u[0] == '}' {
      assert (u + t)[1..] == u[1..] + t;
    } else {
      MembersExtend(u, t);
    }
  }

  lemma {:induction false} ItemsExtend(s: string, t: string)
    requires ParseItems(s).Read?
    ensures ParseItems(s + t) == Further(ParseItems(s), t)
    decreases |s|, 2
  {
    hide ParseValue;
    var value := ParseValue(s);
    var u := Skip(value.left);
    ValueExtends(s, t);
    SkipExtends(value.left, t);
    assert (u + t)[1..] == u[1..] + t;
    if u[0] == ',' {
      ItemsExtend(u[1..], t);
    }
  }

  lemma {:induction false} MembersExtend(s: string, t: string)
    requires ParseMembers(s).Read?
    ensures ParseMembers(s + t) == Further(ParseMembers(s), t)
    decreases |s|, 2
  {
    hide ParseValue, ParseChars;
    var v := Skip(s);
    SkipExtends(s, t);
    assert (v + t)[1..] == v[1..] + t;
    var key := ParseChars(v[1..]);
    CharsExtend(v[1..], t);
    var u := Skip(key.left);
    SkipExtends(key.left, t);
    assert (u + t)[1..] == u[1..] + t;
    var value := ParseValue(u[1..]);
    ValueExtends(u[1..], t);
    var w := Skip(value.left);
    SkipExtends(value.left, t);
    assert (w + t)[1..] == w[1..] + t;
    if w[0] == ',' {
      MembersExtend(w[1..], t);
    }
  }

  /* ---- The text of a value is followed by what follows it ------------------------------------- */

  lemma {:induction false} CharsTail(s: string, a: string, b: string)
    ensures CharsTo(s, a + b) == CharsTo(s, a) + b
  {
    hide Escape;
    if |s| > 0 {
      CharsTail(s[1..], a, b);
    }
  }

  lemma {:induction false} ValueTail(v: Value, a: string, b: string)
    ensures ValueTo(v, a + b) == ValueTo(v, a) + b
    decreases v
  {
    hide CharsTo;
    match v
    case Text(s) => CharsTail(s, a, b);
    case Array(items) =>
      ItemsTail(items, [']'] + a, b);
      assert [']'] + a + b == [']'] + (a + b);
    case Object(members) =>
      MembersTail(members, ['}'] + a, b);
      assert ['}'] + a + b == ['}'] + (a + b);
    case _ =>
  }

  lemma {:induction false} ItemsTail(xs: Items, a: string, b: string)
    ensures ItemsTo(xs, a + b) == ItemsTo(xs, a) + b
    decreases xs
  {
    hide ValueTo;
    if xs.Item? {
      if xs.tail.NoItems? {
        ValueTail(xs.head, a, b);
      } else {
        ItemsTail(xs.tail, a, b);
        ValueTail(xs.head, ", " + ItemsTo(xs.tail, a), b);
        assert ", " + ItemsTo(xs.tail, a) + b == ", " + ItemsTo(xs.tail, a + b);
      }
    }
  }

  lemma {:induction false} MembersTail(ms: Members, a: string, b: string)
    ensures MembersTo(ms, a + b) == MembersTo(ms, a) + b
    decreases ms
  {
    hide ValueTo, CharsTo;
    if ms.Member? {
      var after := if ms.rest.NoMembers? then a else ", " + MembersTo(ms.rest, a);
      if ms.rest.Member? {
        MembersTail(ms.rest, a, b);
        assert after + b == ", " + MembersTo(ms.rest, a + b);
      }
      ValueTail(ms.value, after, b);
      CharsTail(ms.key, ": " + ValueTo(ms.value, after), b);
      assert ": " + ValueTo(ms.value, after) + b == ": " + ValueTo(ms.value, after + b);
    }
  }

  /** A written object starts with its opening and ends with its closing brace. */
  lemma ObjectIsBraced(ms: Members)
    ensures Encode(Object(ms)) == ['{'] + MembersTo(ms, "") + ['}']
  {
    MembersTail(ms, "", ['}']);
    assert "" + ['}'] == ['}'] && ['}'] + "" == ['}'];
  }

  /* ---- Prefixes --------------------------------------------------------------------------------- */

  /** No strict prefix of a written object can be read. */
  lemma NoPrefixReads(v: Value, k: nat)
    requires WellFormed(v) && v.Object? && k < |Encode(v)|
    ensures Decode(Encode(v)[..k]).None?
  {
    var p, q := Encode(v)[..k], Encode(v)[k..];
    if Decode(p).Some? {
      assert p + q == Encode(v);
      assert p != "" && p[0] == '{';
      ObjectExtends(p, q);
      RoundTrip(v);
      ValueRoundTrip(v, "");
    }
  }

  /* ---- What the text looks like ----------------------------------------------------------------- */

  /** The short escapes of a string (section 7 of RFC 8259); every other control character is a long one. */
  lemma ShortEscapes(c: char)
    ensures Escape('"') == "\\\"" && Escape('\\') == "\\\\" && Escape('\n') == "\\n" && Escape('\r') == "\\r"
    ensures Escape('\t') == "\\t" && Escape(12 as char) == "\\f" && Escape(8 as char) == "\\b"
    ensures ' ' <= c <= '~' && c != '"' && c != '\\' ==> Escape(c) == [c]
    ensures !(' ' <= c <= '~') && c as int !in {8, 9, 10, 12, 13} ==> |Escape(c)| >= 6 && Escape(c)[..2] == "\\u"
  {
    hide Hex4;
  }

  predicate Plain(c: char) {
    ' ' <= c <= '~' && c != '"' && c != '\\'
  }

  /** A text of plain characters is written between quotes as it is. */
  lemma {:induction false} PlainText(s: string)
    requires forall c :: c in s ==> Plain(c)
    ensures CharsTo(s, "") == s + "\"" && Encode(Text(s)) == "\"" + s + "\""
  {
    if |s| > 0 {
      assert s[0] in s && forall c :: c in s[1..] ==> c in s;
      ShortEscapes(s[0]);
      PlainText(s[1..]);
      hide Escape, Encode;
      assert [s[0]] + (s[1..] + "\"") == s + "\"";
    }
    QuotedIs(s);
    assert ['"'] + (s + "\"") == "\"" + s + "\"";
  }

  lemma QuotedIs(key: string)
    ensures Encode(Text(key)) == ['"'] + CharsTo(key, "")
  {
    hide CharsTo;
  }

  /** What follows one member inside an object. */
  function Following(rest: Members, tail: string): string {
    if rest.NoMembers? then tail else ", " + MembersTo(rest, tail)
  }

  lemma Nested(a: string, b: string, c: string, d: string, e: string)
    ensures a + (b + (c + (d + e))) == a + b + c + d + e
  {
  }

  /** A member is its name in quotes, a colon, its value, and the other members after a comma. */
  lemma MemberText(key: string, v: Value, rest: Members, tail: string)
    ensures MembersTo(Member(key, v, rest), tail) ==
            Encode(Text(key)) + ": " + Encode(v) + Following(rest, tail)
  {
    MemberFollows(key, v, rest, tail);
    hide CharsTo, ValueTo, MembersTo, Following;
    var after := Following(rest, tail);
    ValueTail(v, "", after);
    assert "" + after == after;
    var x := ": " + ValueTo(v, after);
    CharsTail(key, "", x);
    assert "" + x == x;
    QuotedIs(key);
    Nested(['"'], CharsTo(key, ""), ": ", ValueTo(v, ""), after);
  }

  lemma MemberFollows(key: string, v: Value, rest: Members, tail: string)
    ensures MembersTo(Member(key, v, rest), tail) == ['"'] + CharsTo(key, ": " + ValueTo(v, Following(rest, tail)))
  {
    hide CharsTo, ValueTo;
  }

  /** The same for a name that needs no escapes. */
  lemma PlainMember(key: string, v: Value, rest: Members, tail: string)
    requires forall c :: c in key ==> Plain(c)
    ensures MembersTo(Member(key, v, rest), tail) == "\"" + key + "\": " + Encode(v) + Following(rest, tail)
  {
    hide CharsTo, ValueTo, MembersTo, Following, Encode, Plain;
    PlainText(key);
    MemberText(key, v, rest, tail);
    assert "\"" + key + "\"" + ": " == "\"" + key + "\": ";
  }

  lemma WordTexts()
    ensures Encode(Null) == "null" && Encode(Bool(true)) == "true" && Encode(Bool(false)) == "false"
    ensures Encode(Object(NoMembers)) == "{}" && Encode(Array(NoItems)) == "[]"
  {
  }
}
