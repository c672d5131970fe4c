/** The JSON grammar as a relation between texts and values (RFC 8259), and the reader as its decision. */
module JsonGrammar {
  import opened Models
  import opened Json

  /* ---- The grammar --------------------------------------------------------------------------------- */

  /** White space (section 2). */
  predicate Blank(w: string) {
    forall c :: c in w ==> c == ' ' || c == '\t' || c == '\n' || c == '\r'
  }

  predicate IsHex(c: char, d: nat) {
    d < 16 && (c == "0123456789abcdef"[d] || c == "0123456789ABCDEF"[d])
  }

  /** Four hexadecimal digits. */
  ghost predicate Codes(s: string, n: nat) {
    |s| == 4 && exists a: nat, b: nat, c: nat, d: nat ::
      IsHex(s[0], a) && IsHex(s[1], b) && IsHex(s[2], c) && IsHex(s[3], d) && n == 4096 * a + 256 * b + 16 * c + d
  }

  /** The letters that stand for a character behind a backslash. */
  predicate Letter(l: char, c: char) {
    || (l == c && (c == '"' || c == '\\' || c == '/'))
    || (l == 'b' && c as int == 8) || (l == 'f' && c as int == 12) || (l == 'n' && c as int == 10)
    || (l == 'r' && c as int == 13) || (l == 't' && c as int == 9)
  }

  /** Two codes that stand for one character together. */
  ghost predicate CodePair(first: string, second: string, c: char) {
    exists h: nat, l: nat ::
      && Codes(first, h) && Codes(second, l) && 0xD800 <= h < 0xDC00 && 0xDC00 <= l < 0xE000
      && c as int == 0x10000 + (h - 0xD800) * 0x400 + (l - 0xDC00)
  }

  /** p is a way to write c inside a string (section 7). */
  ghost predicate Writes(p: string, c: char) {
    || (p == [c] && c >= ' ' && c != '"' && c != '\\')
    || (|p| == 2 && p[0] == '\\' && Letter(p[1], c))
    || (|p| == 6 && p[..2] == "\\u" && Codes(p[2..], c as int))
    || (|p| == 12 && p[..2] == "\\u" && p[6..8] == "\\u" && CodePair(p[2..6], p[8..], c))
  }

  ghost predicate WritesAll(s: string, t: string)
    decreases |t|
  {
    if t == "" then s == "" else exists p, q :: s == p + q && Writes(p, t[0]) && WritesAll(q, t[1..])
  }

  ghost predicate Quotes(s: string, t: string) {
    exists q :: s == "\"" + q + "\"" && WritesAll(q, t)
  }

  /** s, without white space around it, is a text of v (section 3). */
  ghost predicate Spells(s: string, v: Value)
    decreases v, 0
  {
    match v
    case Null => s == "null"
    case Bool(b) => s == if b then "true" else "false"
    case Number(text) => s == text && IsNumber(text)
    case Text(t) => Quotes(s, t)
    case Array(items) => exists q :: s == "[" + q + "]" && SpellsItems(q, items)
    case Object(members) => exists q :: s == "{" + q + "}" && SpellsMembers(q, members)
  }

  ghost predicate Padded(s: string, v: Value)
    decreases v, 1
  {
    exists a, x, b :: s == a + x + b && Blank(a) && Spells(x, v) && Blank(b)
  }

  /** What is between the brackets (section 5). */
  ghost predicate SpellsItems(s: string, xs: Items)
    decreases xs, 1
  {
    match xs
    case NoItems => Blank(s)
    case Item(head, NoItems) => Padded(s, head)
    case Item(head, tail) => exists x, q :: s == x + "," + q && Padded(x, head) && SpellsItems(q, tail)
  }

  ghost predicate PaddedName(s: string, key: string) {
    exists a, x, b :: s == a + x + b && Blank(a) && Quotes(x, key) && Blank(b)
  }

  ghost predicate SpellsMember(s: string, key: string, v: Value)
    decreases v, 2
  {
    exists k, x :: s == k + ":" + x && PaddedName(k, key) && Padded(x, v)
  }

  /** What is between the braces (section 4). */
  ghost predicate SpellsMembers(s: string, ms: Members)
    decreases ms, 1
  {
    match ms
    case NoMembers => Blank(s)
    case Member(key, v, NoMembers) => SpellsMember(s, key, v)
    case Member(key, v, more) =>
      exists m, q :: s == m + "," + q && SpellsMember(m, key, v) && SpellsMembers(q, more)
  }

  /* ---- Characters and strings ------------------------------------------------------------------------ */

  lemma HexIs(c: char, d: nat)
    ensures IsHex(c, d) <==> HexValue(c) == d
  {
    var digits := "0123456789abcdef";
    var capitals := "0123456789ABCDEF";
    if d < 16 {
      assert digits[d] == if d < 10 then ('0' as int + d) as char else ('a' as int + d - 10) as char;
      assert capitals[d] == if d < 10 then ('0' as int + d) as char else ('A' as int + d - 10) as char;
    }
  }

  lemma CodesIs(s: string, n: nat)
    requires |s| >= 4
    ensures Codes(s[..4], n) <==> Hex4Value(s) == n
  {
    hide IsHex, HexValue;
    forall k: nat, d: nat | k < 4 ensures IsHex(s[k], d) <==> HexValue(s[k]) == d {
      HexIs(s[k], d);
    }
    if Hex4Value(s) == n {
      var a, b, c, d := HexValue(s[0]), HexValue(s[1]), HexValue(s[2]), HexValue(s[3]);
      assert IsHex(s[..4][0], a) && IsHex(s[..4][1], b) && IsHex(s[..4][2], c) && IsHex(s[..4][3], d);
    }
  }

  lemma UnicodeSound(s: string) returns (p: string)
    requires ParseUnicode(s).Read?
    ensures s == p + ParseUnicode(s).left && Writes("\\u" + p, ParseUnicode(s).got)
  {
    hide Hex4Value, Codes;
    var n := Hex4Value(s);
    CodesIs(s, n);
    if n < 0xD800 || 0xE000 <= n {
      p := s[..4];
      assert ("\\u" + p)[..2] == "\\u" && ("\\u" + p)[2..] == p;
    } else {
      var m := Hex4Value(s[6..]);
      CodesIs(s[6..], m);
      p := s[..10];
      var w := "\\u" + p;
      assert w[..2] == "\\u" && w[2..6] == s[..4] && w[6..8] == "\\u" && w[8..] == s[6..][..4];
      assert s == p + s[10..];
      assert CodePair(w[2..6], w[8..], ParseUnicode(s).got);
    }
  }

  lemma EscapeSound(s: string) returns (p: string)
    requires ParseEscape(s).Read?
    ensures s == p + ParseEscape(s).left && Writes("\\" + p, ParseEscape(s).got)
  {
    hide ParseUnicode, Codes, CodePair;
    if s[0] == 'u' {
      var q := UnicodeSound(s[1..]);
      p := "u" + q;
      assert "\\" + p == "\\u" + q;
      assert s == ['u'] + s[1..];
    } else {
      p := s[..1];
      assert ("\\" + p)[1] == s[0] && |"\\" + p| == 2;
      assert s == p + s[1..];
    }
  }

  lemma OneMoreChar(p: string, q: string, c: char, t: string)
    requires Writes(p, c) && WritesAll(q, t)
    ensures WritesAll(p + q, [c] + t)
  {
    hide Writes;
    assert ([c] + t)[0] == c && ([c] + t)[1..] == t;
  }

  lemma {:induction false} CharsSound(s: string) returns (q: string)
    requires ParseChars(s).Read?
    ensures s == q + "\"" + ParseChars(s).left && WritesAll(q, ParseChars(s).got)
    decreases |s|
  {
    hide ParseEscape, Writes, WritesAll;
    if s[0] == '"' {
      q := "";
      NothingWritten();
      assert s == ['"'] + s[1..];
    } else {
      var one := if s[0] == '\\' then ParseEscape(s[1..]) else Read(s[0], s[1..]);
      var p := PieceSound(s);
      var rest := CharsSound(one.left);
      OneMoreChar(p, rest, one.got, ParseChars(one.left).got);
      q := p + rest;
      hide ParseChars;
      Regroup(p, rest, "\"", ParseChars(one.left).left);
    }
  }

  lemma NothingWritten()
    ensures WritesAll("", "")
  {
  }

  lemma PieceSound(s: string) returns (p: string)
    requires |s| > 0 && s[0] >= ' ' && s[0] != '"' && (s[0] == '\\' ==> ParseEscape(s[1..]).Read?)
    ensures var one := if s[0] == '\\' then ParseEscape(s[1..]) else Read(s[0], s[1..]);
            s == p + one.left && Writes(p, one.got)
  {
    hide ParseEscape;
    if s[0] == '\\' {
      p := EscapeSound(s[1..]);
      p := "\\" + p;
      assert s == ['\\'] + s[1..];
    } else {
      p := [s[0]];
      assert s == p + s[1..];
    }
  }

  lemma UnicodeComplete(w: string, c: char, rest: string)
    requires |w| == 6 && w[..2] == "\\u" && Codes(w[2..], c as int)
    ensures ParseUnicode(w[2..] + rest) == Read(c, rest)
  {
    hide Hex4Value, Codes;
    var s := w[2..] + rest;
    assert s[..4] == w[2..] && s[4..] == rest;
    CodesIs(s, c as int);
  }

  lemma CutPair(first: string, second: string, rest: string)
    requires |first| == |second| == 4
    ensures var s := first + "\\u" + second + rest;
            && |s| >= 10 && s[..4] == first && s[4] == '\\' && s[5] == 'u' && s[6..] == second + rest && s[10..] == rest
            && s[6..][..4] == second
  {
    var s := first + "\\u" + second + rest;
    assert s[6..] == second + rest;
    assert s[10..] == rest;
  }

  lemma PairComplete(first: string, second: string, c: char, rest: string)
    requires CodePair(first, second, c)
    ensures |first| == |second| == 4 && ParseUnicode(first + "\\u" + second + rest) == Read(c, rest)
  {
    var h: nat, l: nat :|
      && Codes(first, h) && Codes(second, l) && 0xD800 <= h < 0xDC00 && 0xDC00 <= l < 0xE000
      && c as int == 0x10000 + (h - 0xD800) * 0x400 + (l - 0xDC00);
    assert |first| == |second| == 4;
    hide Hex4Value, Codes, CodePair, ParseUnicode;
    CutPair(first, second, rest);
    var s := first + "\\u" + second + rest;
    CodesIs(s, h);
    CodesIs(s[6..], l);
    PairReads(s, h, l, c);
  }

  lemma PairReads(s: string, h: nat, l: nat, c: char)
    requires |s| >= 10 && Hex4Value(s) == h && s[4] == '\\' && s[5] == 'u' && Hex4Value(s[6..]) == l
    requires 0xD800 <= h < 0xDC00 && 0xDC00 <= l < 0xE000
    requires c as int == 0x10000 + (h - 0xD800) * 0x400 + (l - 0xDC00)
    ensures ParseUnicode(s) == Read(c, s[10..])
  {
    hide Hex4Value;
  }

  /** A way to write a character is read as that character. */
  lemma PieceComplete(p: string, c: char, rest: string)
    requires Writes(p, c)
    ensures |p| > 0 && p[0] >= ' ' && p[0] != '"'
    ensures (if p[0] == '\\' then ParseEscape((p + rest)[1..]) else Read(p[0], (p + rest)[1..])) == Read(c, rest)
  {
    hide ParseUnicode, Codes, CodePair;
    var s := p + rest;
    if |p| == 1 {
      assert s[1..] == rest;
    } else if |p| == 2 {
      assert s[1..] == [p[1]] + rest;
    } else if |p| == 6 {
      assert p[..2][0] == '\\' && p[..2][1] == 'u';
      UnicodeComplete(p, c, rest);
      assert s[1..] == ['u'] + (p[2..] + rest);
    } else {
      assert p[..2][0] == '\\' && p[..2][1] == 'u';
      PairComplete(p[2..6], p[8..], c, rest);
      assert p[2..] == p[2..6] + p[6..8] + p[8..];
      assert s[1..] == ['u'] + (p[2..6] + "\\u" + p[8..] + rest);
    }
  }

  lemma FirstPiece(s: string, t: string) returns (p: string, q: string)
    requires WritesAll(s, t) && t != ""
    ensures s == p + q && Writes(p, t[0]) && WritesAll(q, t[1..])
  {
    hide Writes;
    p, q :| s == p + q && Writes(p, t[0]) && WritesAll(q, t[1..]);
  }

  lemma {:induction false} CharsComplete(s: string, t: string, rest: string)
    requires WritesAll(s, t)
    ensures ParseChars(s + "\"" + rest) == Read(t, rest)
    decreases |t|
  {
    if t == "" {
      assert s + "\"" + rest == ['"'] + rest;
    } else {
      hide Writes, WritesAll, ParseChars;
      var p, q := FirstPiece(s, t);
      CharsComplete(q, t[1..], rest);
      OneMorePiece(p, t[0], q + "\"" + rest, t[1..], rest);
      Regroup(p, q, "\"", rest);
      HeadAndTail(t);
    }
  }

  lemma Regroup(a: string, b: string, c: string, d: string)
    ensures a + b + c + d == a + (b + c + d)
  {
  }

  lemma HeadAndTail(t: string)
    requires t != ""
    ensures [t[0]] + t[1..] == t
  {
  }

  lemma OneMorePiece(p: string, c: char, tail: string, t: string, rest: string)
    requires Writes(p, c) && ParseChars(tail) == Read(t, rest)
    ensures ParseChars(p + tail) == Read([c] + t, rest)
  {
    hide ParseEscape, Writes;
    PieceComplete(p, c, tail);
    assert (p + tail)[0] == p[0];
  }

  /* ---- What is read follows the grammar ---------------------------------------------------------------- */

  lemma {:induction false} SkipSound(s: string) returns (w: string)
    ensures s == w + Skip(s) && Blank(w)
  {
    if |s| > 0 && IsBlank(s[0]) {
      var more := SkipSound(s[1..]);
      w := [s[0]] + more;
      assert s == [s[0]] + s[1..];
    } else {
      w := "";
    }
  }

  lemma ScalarSound(s: string) returns (x: string)
    requires s != "" && ParseScalar(s).Read?
    ensures s == x + ParseScalar(s).left && Spells(x, ParseScalar(s).got)
  {
    hide ParseChars, NumberRun, IsNumber, Quotes;
    if s[0] == '"' {
      var q := CharsSound(s[1..]);
      x := "\"" + q + "\"";
      assert s == ['"'] + s[1..];
      QuotesIs(q, ParseChars(s[1..]).got);
    } else if s[0] == 'n' {
      x := s[..4];
    } else if s[0] == 't' {
      x := s[..4];
    } else if s[0] == 'f' {
      x := s[..5];
    } else {
      x := NumberRun(s).got;
    }
  }

  lemma QuotesIs(q: string, t: string)
    requires WritesAll(q, t)
    ensures Quotes("\"" + q + "\"", t)
  {
    hide WritesAll;
  }

  lemma PaddedIs(a: string, x: string, b: string, v: Value)
    requires Blank(a) && Spells(x, v) && Blank(b)
    ensures Padded(a + x + b, v)
  {
    hide Blank, Spells;
  }

  lemma ItemsAre(p: string, head: Value, q: string, tail: Items)
    requires Padded(p, head)
    ensures SpellsItems(p, Item(head, NoItems))
    ensures tail.Item? && SpellsItems(q, tail) ==> SpellsItems(p + "," + q, Item(head, tail))
  {
    hide Padded;
  }

  lemma ArrayIs(q: string, items: Items)
    requires SpellsItems(q, items)
    ensures Spells("[" + q + "]", Array(items))
  {
    hide SpellsItems;
  }

  lemma ObjectIs(q: string, members: Members)
    requires SpellsMembers(q, members)
    ensures Spells("{" + q + "}", Object(members))
  {
    hide SpellsMembers;
  }

  lemma BlanksJoin(w: string, a: string)
    requires Blank(w) && Blank(a)
    ensures Blank(w + a)
  {
  }

  lemma SplitPadded(s: string, v: Value) returns (a: string, x: string, b: string)
    requires Padded(s, v)
    ensures s == a + x + b && Blank(a) && Spells(x, v) && Blank(b)
  {
    hide Blank, Spells;
    a, x, b :| s == a + x + b && Blank(a) && Spells(x, v) && Blank(b);
  }

  lemma SplitItems(q: string, items: Items) returns (x: string, r: string)
    requires items.Item? && SpellsItems(q, items)
    ensures items.tail.NoItems? ==> Padded(q, items.head)
    ensures items.tail.Item? ==> q == x + "," + r && Padded(x, items.head) && SpellsItems(r, items.tail)
  {
    hide Padded;
    x, r := "", "";
    if items.tail.Item? {
      x, r :| q == x + "," + r && Padded(x, items.head) && SpellsItems(r, items.tail);
    }
  }

  lemma MoreInFront(w: string, a: string, b: string, c: string)
    ensures w + (a + b + c) == w + a + b + c
  {
  }

  lemma MorePadding(w: string, s: string, v: Value)
    requires Blank(w) && Padded(s, v)
    ensures Padded(w + s, v)
  {
    hide Blank, Spells, Padded;
    var a, x, b := SplitPadded(s, v);
    BlanksJoin(w, a);
    PaddedIs(w + a, x, b, v);
    MoreInFront(w, a, x, b);
  }

  /** White space may be added in front of the first item. */
  lemma ItemsAfterBlanks(w: string, q: string, items: Items)
    requires Blank(w) && items.Item? && SpellsItems(q, items)
    ensures SpellsItems(w + q, items)
  {
    hide Blank, Padded, SpellsItems;
    var x, r := SplitItems(q, items);
    if items.tail.NoItems? {
      MorePadding(w, q, items.head);
      ItemsAre(w + q, items.head, "", NoItems);
    } else {
      MorePadding(w, x, items.head);
      ItemsAre(w + x, items.head, r, items.tail);
      MoreInFront(w, x, ",", r);
    }
  }

  lemma NameIs(a: string, q: string, b: string, key: string)
    requires Blank(a) && WritesAll(q, key) && Blank(b)
    ensures PaddedName(a + ("\"" + q + "\"") + b, key)
  {
    hide Blank, WritesAll, Quotes;
    QuotesIs(q, key);
  }

  lemma MemberIs(k: string, key: string, x: string, v: Value)
    requires PaddedName(k, key) && Padded(x, v)
    ensures SpellsMember(k + ":" + x, key, v)
  {
    hide PaddedName, Padded;
  }

  lemma MembersAre(m: string, key: string, v: Value, q: string, more: Members)
    requires SpellsMember(m, key, v)
    ensures SpellsMembers(m, Member(key, v, NoMembers))
    ensures more.Member? && SpellsMembers(q, more) ==> SpellsMembers(m + "," + q, Member(key, v, more))
  {
    hide SpellsMember;
  }

  lemma SplitName(s: string, key: string) returns (a: string, x: string, b: string)
    requires PaddedName(s, key)
    ensures s == a + x + b && Blank(a) && Quotes(x, key) && Blank(b)
  {
    hide Blank, Quotes;
    a, x, b :| s == a + x + b && Blank(a) && Quotes(x, key) && Blank(b);
  }

  lemma SplitMember(m: string, key: string, v: Value) returns (k: string, x: string)
    requires SpellsMember(m, key, v)
    ensures m == k + ":" + x && PaddedName(k, key) && Padded(x, v)
  {
    hide PaddedName, Padded;
    k, x :| m == k + ":" + x && PaddedName(k, key) && Padded(x, v);
  }

  lemma SplitMembers(q: string, ms: Members) returns (m: string, r: string)
    requires ms.Member? && SpellsMembers(q, ms)
    ensures ms.rest.NoMembers? ==> SpellsMember(q, ms.key, ms.value)
    ensures ms.rest.Member? ==> q == m + "," + r && SpellsMember(m, ms.key, ms.value) && SpellsMembers(r, ms.rest)
  {
    hide SpellsMember;
    m, r := "", "";
    if ms.rest.Member? {
      m, r :| q == m + "," + r && SpellsMember(m, ms.key, ms.value) && SpellsMembers(r, ms.rest);
    }
  }

  lemma MemberAfterBlanks(w: string, m: string, key: string, v: Value)
    requires Blank(w) && SpellsMember(m, key, v)
    ensures SpellsMember(w + m, key, v)
  {
    hide Blank, Padded, Quotes, SpellsMember;
    var k, x := SplitMember(m, key, v);
    var a, name, b := SplitName(k, key);
    BlanksJoin(w, a);
    MoreInFront(w, a, name, b);
    assert PaddedName(w + k, key);
    hide PaddedName;
    MemberIs(w + k, key, x, v);
    MoreInFront(w, k, ":", x);
  }

  lemma MembersAfterBlanks(w: string, q: string, ms: Members)
    requires Blank(w) && ms.Member? && SpellsMembers(q, ms)
    ensures SpellsMembers(w + q, ms)
  {
    hide Blank, SpellsMember, SpellsMembers;
    var m, r := SplitMembers(q, ms);
    if ms.rest.NoMembers? {
      MemberAfterBlanks(w, q, ms.key, ms.value);
      MembersAre(w + q, ms.key, ms.value, "", NoMembers);
    } else {
      MemberAfterBlanks(w, m, ms.key, ms.value);
      MembersAre(w + m, ms.key, ms.value, r, ms.rest);
      MoreInFront(w, m, ",", r);
    }
  }

  /** A value that is read stands in front of what is left, after white space. */
  lemma {:induction false} ValueSound(s: string) returns (a: string, x: string)
    requires ParseValue(s).Read?
    ensures s == a + x + ParseValue(s).left && Blank(a) && Spells(x, ParseValue(s).got)
    decreases |s|, 1
  {
    hide Blank, Spells, SpellsItems, SpellsMembers, ParseScalar;
    a := SkipSound(s);
    var t := Skip(s);
    if t[0] == '[' {
      x := BracketsSound(t);
    } else if t[0] == '{' {
      x := BracesSound(t);
    } else {
      x := ScalarSound(t);
    }
    assert a + (x + ParseValue(s).left) == a + x + ParseValue(s).left;
  }

  lemma {:induction false} BracketsSound(t: string) returns (x: string)
    requires t != "" && t[0] == '[' && ParseValue(t).Read?
    ensures t == x + ParseValue(t).left && Spells(x, ParseValue(t).got)
    decreases |t|, 0
  {
    hide Blank, Spells, SpellsItems, ParseItems;
    var w := SkipSound(t[1..]);
    var u := Skip(t[1..]);
    Uncons(t);
    if u[0] == ']' {
      NoneBetween(w);
      ArrayIs(w, NoItems);
      x := "[" + w + "]";
      Uncons(u);
      Regroup("[", w, "]", u[1..]);
    } else {
      var q := ItemsSound(u);
      ItemsAfterBlanks(w, q, ParseItems(u).got);
      ArrayIs(w + q, ParseItems(u).got);
      x := "[" + (w + q) + "]";
      Enclosed("[", w, q, "]", ParseValue(t).left);
    }
  }

  lemma {:induction false} BracesSound(t: string) returns (x: string)
    requires t != "" && t[0] == '{' && ParseValue(t).Read?
    ensures t == x + ParseValue(t).left && Spells(x, ParseValue(t).got)
    decreases |t|, 0
  {
    hide Blank, Spells, SpellsMembers, ParseMembers;
    var w := SkipSound(t[1..]);
    var u := Skip(t[1..]);
    Uncons(t);
    if u[0] == '}' {
      NoneBetween(w);
      ObjectIs(w, NoMembers);
      x := "{" + w + "}";
      Uncons(u);
      Regroup("{", w, "}", u[1..]);
    } else {
      var q := MembersSound(u);
      MembersAfterBlanks(w, q, ParseMembers(u).got);
      ObjectIs(w + q, ParseMembers(u).got);
      x := "{" + (w + q) + "}";
      Enclosed("{", w, q, "}", ParseValue(t).left);
    }
  }

  lemma Enclosed(o: string, w: string, q: string, c: string, rest: string)
    ensures o + (w + (q + c + rest)) == o + (w + q) + c + rest
  {
  }

  lemma NoneBetween(w: string)
    requires Blank(w)
    ensures SpellsItems(w, NoItems) && SpellsMembers(w, NoMembers)
  {
  }

  lemma {:induction false} ItemsSound(s: string) returns (q: string)
    requires ParseItems(s).Read?
    ensures s == q + "]" + ParseItems(s).left && ParseItems(s).got.Item? && SpellsItems(q, ParseItems(s).got)
    decreases |s|, 2
  {
    hide Blank, Spells, SpellsItems, Padded, ParseValue, Skip;
    var value := ParseValue(s);
    var a, x := ValueSound(s);
    var w := SkipSound(value.left);
    var t := Skip(value.left);
    PaddedIs(a, x, w, value.got);
    var p := a + x + w;
    assert s == p + t;
    assert t == [t[0]] + t[1..];
    if t[0] == ']' {
      ItemsAre(p, value.got, "", NoItems);
      q := p;
    } else {
      var r := ItemsSound(t[1..]);
      ItemsAre(p, value.got, r, ParseItems(t[1..]).got);
      q := p + "," + r;
    }
  }

  /** The text of one member in front of what is left. */
  lemma MemberText(a: string, q: string, b: string, x: string, w: string)
    ensures a + (['"'] + (q + "\"" + (b + ([':'] + (x + w))))) == (a + ("\"" + q + "\"") + b) + ":" + x + w
  {
    var name := a + ("\"" + q + "\"") + b;
    assert a + (['"'] + (q + "\"" + (b + ([':'] + (x + w))))) == name + ([':'] + (x + w));
  }

  lemma Uncons(s: string)
    requires s != ""
    ensures s == [s[0]] + s[1..]
  {
  }

  /** Where the pieces of a first member are, and what follows it. */
  lemma FirstMember(s: string) returns (m: string, w: string)
    requires ParseMembers(s).Read?
    ensures var key := ParseChars(Skip(s)[1..]);
            var value := ParseValue(Skip(key.left)[1..]);
            w == Skip(value.left) && s == m + w && m != "" && SpellsMember(m, key.got, value.got)
    decreases |s|, 1
  {
    hide Blank, Spells, SpellsMember, PaddedName, Padded, ParseValue, ParseChars, Skip, WritesAll;
    var t := Skip(s);
    var key := ParseChars(t[1..]);
    var u := Skip(key.left);
    var value := ParseValue(u[1..]);
    w := Skip(value.left);
    hide ParseMembers;
    var a := SkipSound(s);
    var k := CharsSound(t[1..]);
    var b := SkipSound(key.left);
    var c, x := ValueSound(u[1..]);
    var d := SkipSound(value.left);
    NameIs(a, k, b, key.got);
    PaddedIs(c, x, d, value.got);
    var name, padded := a + ("\"" + k + "\"") + b, c + x + d;
    MemberIs(name, key.got, padded, value.got);
    m := name + ":" + padded;
    Uncons(t);
    Uncons(u);
    Regroup(c, x, d, w);
    MemberText(a, k, b, padded, w);
    assert c + x + (d + w) == padded + w;
  }

  lemma {:induction false} MembersSound(s: string) returns (q: string)
    requires ParseMembers(s).Read?
    ensures s == q + "}" + ParseMembers(s).left && ParseMembers(s).got.Member?
    ensures SpellsMembers(q, ParseMembers(s).got)
    decreases |s|, 2
  {
    hide SpellsMembers, SpellsMember, ParseValue, ParseChars, Skip;
    var m, w := FirstMember(s);
    var key := ParseChars(Skip(s)[1..]);
    var value := ParseValue(Skip(key.left)[1..]);
    q := LastSound(s, m, key.got, value.got, w);
  }

  lemma {:induction false} LastSound(s: string, m: string, key: string, v: Value, w: string) returns (q: string)
    requires s == m + w && m != "" && SpellsMember(m, key, v) && w != "" && (w[0] == '}' || w[0] == ',')
    requires w[0] == ',' ==> ParseMembers(w[1..]).Read?
    ensures w[0] == '}' ==> s == q + "}" + w[1..] && SpellsMembers(q, Member(key, v, NoMembers))
    ensures w[0] == ',' ==>
              var more := ParseMembers(w[1..]);
              s == q + "}" + more.left && SpellsMembers(q, Member(key, v, more.got))
    decreases |s|, 1
  {
    hide SpellsMembers, SpellsMember, ParseMembers;
    assert w == [w[0]] + w[1..];
    if w[0] == '}' {
      MembersAre(m, key, v, "", NoMembers);
      q := m;
    } else {
      var r := MembersSound(w[1..]);
      MembersAre(m, key, v, r, ParseMembers(w[1..]).got);
      q := m + "," + r;
    }
  }

  /* ---- What follows the grammar is read ------------------------------------------------------------------ */

  /** White space is skipped up to a text that does not start with any. */
  lemma {:induction false} SkipComplete(w: string, t: string)
    requires Blank(w) && (t == "" || !IsBlank(t[0]))
    ensures Skip(w + t) == t
  {
    if w == "" {
      assert w + t == t;
    } else {
      assert w[0] in w && forall c :: c in w[1..] ==> c in w;
      assert (w + t)[1..] == w[1..] + t;
      SkipComplete(w[1..], t);
    }
  }

  lemma DigitsAreNumberChars(s: string, n: nat)
    requires n <= |s| && AllDigits(s[..n])
    ensures forall k :: 0 <= k < n ==> IsNumberChar(s[k])
  {
    forall k | 0 <= k < n ensures IsNumberChar(s[k]) {
      assert s[k] == s[..n][k];
    }
  }

  lemma ExponentChars(s: string)
    requires IsExponent(s)
    ensures forall k :: 0 <= k < |s| ==> IsNumberChar(s[k])
  {
    if |s| > 0 && (s[0] == '+' || s[0] == '-') {
      forall k | 0 < k < |s| ensures IsNumberChar(s[k]) {
        assert s[k] == s[1..][k - 1];
      }
    }
  }

  lemma UnsignedChars(s: string)
    requires IsUnsigned(s)
    ensures |s| > 0 && '0' <= s[0] <= '9' && forall k :: 0 <= k < |s| ==> IsNumberChar(s[k])
  {
    hide IsNumberChar, IsExponent, AllDigits;
    var i: nat, j: nat :| i <= j <= |s| && SplitsAsNumber(s, i, j);
    IntegerStarts(s, i);
    DigitsAreNumberChars(s, i);
    if i < j {
      FractionChars(s, i, j);
    }
    if j < |s| {
      ExponentChars(s[j + 1..]);
      MarkIsNumberChar(s[j]);
      forall k | j < k < |s| ensures IsNumberChar(s[k]) {
        assert s[k] == s[j + 1..][k - (j + 1)];
      }
    }
  }

  lemma MarkIsNumberChar(c: char)
    requires c == 'e' || c == 'E' || c == '.' || c == '-'
    ensures IsNumberChar(c)
  {
  }

  lemma IntegerStarts(s: string, n: nat)
    requires n <= |s| && IsInteger(s[..n])
    ensures |s| > 0 && '0' <= s[0] <= '9' && AllDigits(s[..n])
  {
    assert s[..n][0] == s[0];
  }

  lemma FractionChars(s: string, i: nat, j: nat)
    requires i < j <= |s| && s[i] == '.' && AllDigits(s[i + 1..j])
    ensures forall k :: i <= k < j ==> IsNumberChar(s[k])
  {
    forall k | i < k < j ensures IsNumberChar(s[k]) {
      assert s[k] == s[i + 1..j][k - (i + 1)];
    }
  }

  lemma NumberChars(s: string)
    requires IsNumber(s)
    ensures |s| > 0 && (s[0] == '-' || '0' <= s[0] <= '9') && forall k :: 0 <= k < |s| ==> IsNumberChar(s[k])
  {
    hide IsUnsigned, IsNumberChar;
    if |s| > 0 && s[0] == '-' {
      UnsignedChars(s[1..]);
      MarkIsNumberChar(s[0]);
      forall k | 0 < k < |s| ensures IsNumberChar(s[k]) {
        assert s[k] == s[1..][k - 1];
      }
    } else {
      UnsignedChars(s);
    }
  }

  lemma {:induction false} RunComplete(s: string, rest: string)
    requires forall k :: 0 <= k < |s| ==> IsNumberChar(s[k])
    requires rest == "" || !IsNumberChar(rest[0])
    ensures NumberRun(s + rest) == Read(s, rest)
  {
    hide IsNumberChar;
    if s == "" {
      assert s + rest == rest;
    } else {
      assert (s + rest)[1..] == s[1..] + rest;
      RunComplete(s[1..], rest);
      Uncons(s);
    }
  }

  /** How a text of a value starts: with no white space, and with no bracket that closes. */
  lemma SpelledStart(x: string, v: Value)
    requires Spells(x, v)
    ensures x != "" && !IsBlank(x[0]) && x[0] != ']' && x[0] != '}'
    ensures x[0] == '[' <==> v.Array?
    ensures x[0] == '{' <==> v.Object?
    ensures x[0] == '"' <==> v.Text?
    ensures x[0] == 'n' <==> v.Null?
    ensures x[0] == 't' <==> v == Bool(true)
    ensures x[0] == 'f' <==> v == Bool(false)
  {
    hide SpellsItems, SpellsMembers, WritesAll, IsNumber;
    if v.Number? {
      NumberChars(x);
    }
  }

  lemma TextComplete(x: string, t: string, rest: string)
    requires Quotes(x, t)
    ensures x != "" && ParseScalar(x + rest) == Read(Text(t), rest)
  {
    hide ParseChars, Quotes, WritesAll;
    var q := Unquote(x, t);
    CharsComplete(q, t, rest);
    TailOfQuoted(q, rest);
  }

  lemma TailOfQuoted(q: string, rest: string)
    ensures var s := "\"" + q + "\"" + rest; s[0] == '"' && s[1..] == q + "\"" + rest
  {
  }

  lemma NumberComplete(x: string, rest: string)
    requires IsNumber(x) && (rest == "" || !IsNumberChar(rest[0]))
    ensures x != "" && ParseScalar(x + rest) == Read(Number(x), rest)
  {
    hide IsNumber, ParseChars, NumberRun, IsNumberChar;
    NumberChars(x);
    RunComplete(x, rest);
    assert (x + rest)[0] == x[0];
  }

  lemma WordComplete(x: string, v: Value, rest: string)
    requires (x == "null" && v == Null) || (x == "true" && v == Bool(true)) || (x == "false" && v == Bool(false))
    ensures ParseScalar(x + rest) == Read(v, rest)
  {
    hide ParseChars, ParseNumber;
    assert (x + rest)[0] == x[0];
    assert (x + rest)[..|x|] == x && (x + rest)[|x|..] == rest;
  }

  lemma ScalarComplete(x: string, v: Value, rest: string)
    requires Spells(x, v) && !v.Array? && !v.Object? && (v.Number? ==> rest == "" || !IsNumberChar(rest[0]))
    ensures ParseScalar(x + rest) == Read(v, rest)
  {
    hide IsNumber, ParseScalar, Quotes, IsNumberChar;
    match v
    case Text(t) => TextComplete(x, t, rest);
    case Number(text) => NumberComplete(text, rest);
    case _ => WordComplete(x, v, rest);
  }

  /** Reading skips white space first. */
  lemma SkipFirst(s: string)
    ensures ParseValue(Skip(s)) == ParseValue(s)
    ensures ParseItems(Skip(s)) == ParseItems(s)
    ensures ParseMembers(Skip(s)) == ParseMembers(s)
  {
    hide ParseScalar, ParseChars;
    assert Skip(Skip(s)) == Skip(s);
  }

  lemma EmptyIsNoNumber()
    ensures !IsNumber("")
  {
    if IsNumber("") {
      NumberChars("");
    }
  }

  lemma NoScalarThere(s: string)
    requires s != "" && (s[0] == ']' || s[0] == '}')
    ensures ParseScalar(s).Failed?
  {
    hide IsNumber, ParseChars;
    EmptyIsNoNumber();
    assert NumberRun(s).got == "";
  }

  /** No list starts with the bracket that closes it. */
  lemma ClosingFails(s: string)
    requires s != "" && (s[0] == ']' || s[0] == '}')
    ensures ParseItems(s).Failed? && ParseMembers(s).Failed?
  {
    NoScalarThere(s);
    hide ParseScalar, ParseChars;
    assert Skip(s) == s;
    assert ParseValue(s).Failed?;
  }

  lemma NoNumberAfter(b: string, c: char, rest: string)
    requires Blank(b) && (c == ',' || c == ']' || c == '}')
    ensures b + ([c] + rest) != "" && !IsNumberChar((b + ([c] + rest))[0])
    ensures Skip(b + ([c] + rest)) == [c] + rest
  {
    SkipComplete(b, [c] + rest);
    if b != "" {
      assert (b + ([c] + rest))[0] == b[0] && b[0] in b;
    } else {
      assert b + ([c] + rest) == [c] + rest;
    }
  }

  lemma {:induction false} ValueComplete(a: string, x: string, v: Value, rest: string)
    requires Blank(a) && Spells(x, v) && (v.Number? ==> rest == "" || !IsNumberChar(rest[0]))
    ensures ParseValue(a + (x + rest)) == Read(v, rest)
    decreases v, 0
  {
    hide Blank, IsNumberChar, ParseScalar, Skip, ParseItems, ParseMembers, WritesAll, SpellsItems, SpellsMembers;
    SpelledStart(x, v);
    var t := x + rest;
    assert t[0] == x[0];
    SkipComplete(a, t);
    match v
    case Array(items) =>
      var q :| x == "[" + q + "]" && SpellsItems(q, items);
      assert t[1..] == q + ("]" + rest);
      BracketsComplete(q, items, rest);
    case Object(members) =>
      var q :| x == "{" + q + "}" && SpellsMembers(q, members);
      assert t[1..] == q + ("}" + rest);
      BracesComplete(q, members, rest);
    case _ => ScalarComplete(x, v, rest);
  }

  lemma {:induction false} BracketsComplete(q: string, items: Items, rest: string)
    requires SpellsItems(q, items)
    ensures var u := Skip(q + ("]" + rest));
            && u != ""
            && (items.NoItems? ==> u == "]" + rest)
            && (items.Item? ==> u[0] != ']' && ParseItems(u) == Read(items, rest))
    decreases items, 1
  {
    var s := q + ("]" + rest);
    if items.NoItems? {
      NoNumberAfter(q, ']', rest);
    } else {
      hide SpellsItems, Skip, ParseValue;
      ItemsComplete(q, items, rest);
      SkipFirst(s);
      hide ParseItems;
      NothingToRead();
      if Skip(s) != "" && Skip(s)[0] == ']' {
        ClosingFails(Skip(s));
      }
    }
  }

  lemma NothingToRead()
    ensures ParseItems("").Failed? && ParseMembers("").Failed?
  {
  }

  lemma {:induction false} BracesComplete(q: string, ms: Members, rest: string)
    requires SpellsMembers(q, ms)
    ensures var u := Skip(q + ("}" + rest));
            && u != ""
            && (ms.NoMembers? ==> u == "}" + rest)
            && (ms.Member? ==> u[0] != '}' && ParseMembers(u) == Read(ms, rest))
    decreases ms, 1
  {
    var s := q + ("}" + rest);
    if ms.NoMembers? {
      NoNumberAfter(q, '}', rest);
    } else {
      hide SpellsMembers, Skip, ParseValue, ParseChars;
      MembersComplete(q, ms, rest);
      SkipFirst(s);
      hide ParseMembers;
      NothingToRead();
      if Skip(s) != "" && Skip(s)[0] == '}' {
        ClosingFails(Skip(s));
      }
    }
  }

  /** A padded value is read, and what is left is skipped up to the mark behind it. */
  lemma {:induction false} PaddedComplete(s: string, v: Value, c: char, rest: string)
    requires Padded(s, v) && (c == ',' || c == ']' || c == '}')
    ensures var r := ParseValue(s + ([c] + rest)); r.Read? && r.got == v && Skip(r.left) == [c] + rest
    decreases v, 1
  {
    hide Blank, Spells, Padded, ParseValue, Skip, IsNumberChar;
    var a, x, b := SplitPadded(s, v);
    NoNumberAfter(b, c, rest);
    ValueComplete(a, x, v, b + ([c] + rest));
    RegroupInner(a, x, b, [c] + rest);
  }

  lemma RegroupInner(a: string, b: string, c: string, d: string)
    ensures a + b + c + d == a + (b + (c + d))
  {
  }

  lemma {:induction false} ItemsComplete(q: string, items: Items, rest: string)
    requires items.Item? && SpellsItems(q, items)
    ensures ParseItems(q + ("]" + rest)) == Read(items, rest)
    decreases items, 0
  {
    hide Blank, Spells, SpellsItems, Padded, ParseValue, Skip;
    var x, r := SplitItems(q, items);
    if items.tail.NoItems? {
      PaddedComplete(q, items.head, ']', rest);
    } else {
      PaddedComplete(x, items.head, ',', r + ("]" + rest));
      ItemsComplete(r, items.tail, rest);
      RegroupInner(x, ",", r, "]" + rest);
      assert ([','] + (r + ("]" + rest)))[1..] == r + ("]" + rest);
    }
  }

  lemma QuoteIsNotBlank(s: string)
    ensures !IsBlank('"') && !IsBlank(':') && (['"'] + s)[1..] == s && ([':'] + s)[1..] == s
  {
  }

  /** A padded name is read up to its quote, and what is left is skipped up to the colon. */
  lemma NameComplete(s: string, key: string, rest: string)
    requires PaddedName(s, key)
    ensures var t := Skip(s + ([':'] + rest));
            && t != "" && t[0] == '"' && ParseChars(t[1..]).Read? && ParseChars(t[1..]).got == key
            && Skip(ParseChars(t[1..]).left) == [':'] + rest
  {
    hide Blank, Quotes, ParseChars, Skip, WritesAll, PaddedName, IsBlank;
    var a, x, b := SplitName(s, key);
    var q := Unquote(x, key);
    var after := b + ([':'] + rest);
    CharsComplete(q, key, after);
    QuoteIsNotBlank(q + "\"" + after);
    QuoteIsNotBlank(rest);
    SkipComplete(b, [':'] + rest);
    RegroupInner(a, x, b, [':'] + rest);
    assert x + after == ['"'] + (q + "\"" + after);
    SkipComplete(a, x + after);
  }

  lemma Unquote(x: string, key: string) returns (q: string)
    requires Quotes(x, key)
    ensures x == "\"" + q + "\"" && WritesAll(q, key)
  {
    hide WritesAll;
    q :| x == "\"" + q + "\"" && WritesAll(q, key);
  }

  lemma {:induction false} MemberComplete(m: string, key: string, v: Value, c: char, rest: string)
    requires SpellsMember(m, key, v) && (c == ',' || c == '}')
    ensures var s := m + ([c] + rest);
            && Skip(s) != "" && Skip(s)[0] == '"'
            && var name := ParseChars(Skip(s)[1..]);
            && name.Read? && name.got == key && Skip(name.left) != "" && Skip(name.left)[0] == ':'
            && var value := ParseValue(Skip(name.left)[1..]);
            value.Read? && value.got == v && Skip(value.left) == [c] + rest
    decreases v, 2
  {
    hide PaddedName, Padded, ParseChars, Skip, ParseValue, SpellsMember;
    var k, x := SplitMember(m, key, v);
    NameComplete(k, key, x + ([c] + rest));
    PaddedComplete(x, v, c, rest);
    RegroupInner(k, ":", x, [c] + rest);
    QuoteIsNotBlank(x + ([c] + rest));
  }

  lemma {:induction false} MembersComplete(q: string, ms: Members, rest: string)
    requires ms.Member? && SpellsMembers(q, ms)
    ensures ParseMembers(q + ("}" + rest)) == Read(ms, rest)
    decreases ms, 0
  {
    hide SpellsMembers, SpellsMember, ParseValue, ParseChars, Skip;
    var m, r := SplitMembers(q, ms);
    if ms.rest.NoMembers? {
      MemberComplete(q, ms.key, ms.value, '}', rest);
    } else {
      MemberComplete(m, ms.key, ms.value, ',', r + ("}" + rest));
      MembersComplete(r, ms.rest, rest);
      RegroupInner(m, ",", r, "}" + rest);
      assert ([','] + (r + ("}" + rest)))[1..] == r + ("}" + rest);
    }
  }

  /* ---- The reader decides the grammar ---------------------------------------------------------------------- */

  lemma NothingLeft(s: string)
    requires Skip(s) == ""
    ensures Blank(s)
  {
    var w := SkipSound(s);
    assert w + "" == w;
  }

  /**
   * A text is read as a value exactly if it is, by the grammar, a text of that value between white space:
   * nothing else is accepted, nothing of the grammar is refused, and no text has two values.
   */
  lemma DecodesIff(s: string, v: Value)
    ensures Decode(s) == Some(v) <==> Padded(s, v)
  {
    hide Blank, Spells, Padded, ParseValue, Skip, IsNumberChar;
    if Decode(s) == Some(v) {
      var a, x := ValueSound(s);
      NothingLeft(ParseValue(s).left);
      PaddedIs(a, x, ParseValue(s).left, v);
    }
    if Padded(s, v) {
      var a, x, b := SplitPadded(s, v);
      BlanksAlone(b);
      ValueComplete(a, x, v, b);
      assert a + (x + b) == s;
    }
  }

  lemma BlanksAlone(b: string)
    requires Blank(b)
    ensures Skip(b) == "" && (b == "" || !IsNumberChar(b[0]))
  {
    SkipComplete(b, "");
    assert b + "" == b;
    assert b != "" ==> b[0] in b;
  }
}
