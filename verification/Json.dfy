/**
 * The JSON text of journal lines: the writer's format (ASCII only, ", " and ": " as separators) and
 * a reader of sections 2 to 7 of RFC 8259. Numbers are kept as their text.
 */
module Json {
  import opened Models

  datatype Value =
    | Null
    | Bool(b: bool)
    | Number(text: string)
    | Text(s: string)
    | Array(items: Items)
    | Object(members: Members)

  datatype Items = NoItems | Item(head: Value, tail: Items)

  /** The members of an object in the order they are written. */
  datatype Members = NoMembers | Member(key: string, value: Value, rest: Members)

  /** What a parser read, and the text it left. */
  datatype Parsed<+T> = Failed | Read(got: T, left: string)

  /* ---- Characters ------------------------------------------------------------------------ */

  function HexDigit(n: nat): (c: char)
    requires n < 16
    ensures ' ' <= c <= '~'
  {
    "0123456789abcdef"[n]
  }

  function HexValue(c: char): (n: int)
    ensures -1 <= n < 16
  {
    if '0' <= c <= '9' then c as int - '0' as int
    else if 'a' <= c <= 'f' then c as int - 'a' as int + 10
    else if 'A' <= c <= 'F' then c as int - 'A' as int + 10
    else -1
  }

  function Hex4(n: nat): (s: string)
    requires n < 0x10000
    ensures |s| == 4 && forall k :: 0 <= k < 4 ==> ' ' <= s[k] <= '~'
  {
    [HexDigit(n / 16 / 16 / 16), HexDigit(n / 16 / 16 % 16), HexDigit(n / 16 % 16), HexDigit(n % 16)]
  }

  /** The number the first four characters spell, or -1. */
  function Hex4Value(s: string): (n: int)
    ensures -1 <= n < 0x10000 && (n >= 0 ==> |s| >= 4)
  {
    if |s| < 4 || HexValue(s[0]) < 0 || HexValue(s[1]) < 0 || HexValue(s[2]) < 0 || HexValue(s[3]) < 0 then -1
    else HexValue(s[0]) * 4096 + HexValue(s[1]) * 256 + HexValue(s[2]) * 16 + HexValue(s[3])
  }

  lemma HexRoundTrip(n: nat)
    requires n < 16
    ensures HexValue(HexDigit(n)) == n
  {
  }

  lemma Hex4RoundTrip(n: nat, rest: string)
    requires n < 0x10000
    ensures Hex4Value(Hex4(n) + rest) == n
  {
    hide HexDigit, HexValue;
    var a := n / 16;
    var b := a / 16;
    var c := b / 16;
    HexRoundTrip(n % 16);
    HexRoundTrip(a % 16);
    HexRoundTrip(b % 16);
    HexRoundTrip(c);
    assert n == 4096 * c + 256 * (b % 16) + 16 * (a % 16) + n % 16;
  }

  /** The letter that stands for a character after a backslash, or a space. */
  function ShortEscape(c: char): char {
    if c == '"' then '"'
    else if c == '\\' then '\\'
    else if c == '\n' then 'n'
    else if c == '\r' then 'r'
    else if c == '\t' then 't'
    else if c as int == 12 then 'f'
    else if c as int == 8 then 'b'
    else ' '
  }

  function HighSurrogate(n: nat): (h: nat)
    requires 0x10000 <= n < 0x110000
    ensures 0xD800 <= h < 0xDC00
  {
    0xD800 + (n - 0x10000) / 0x400
  }

  function LowSurrogate(n: nat): (l: nat)
    requires 0x10000 <= n < 0x110000
    ensures 0xDC00 <= l < 0xE000
  {
    0xDC00 + (n - 0x10000) % 0x400
  }

  /** How one character of a string is written. */
  function Escape(c: char): string {
    var n := c as int;
    if ShortEscape(c) != ' ' then ['\\', ShortEscape(c)]
    else if ' ' <= c <= '~' then [c]
    else if n < 0x10000 then "\\u" + Hex4(n)
    else "\\u" + Hex4(HighSurrogate(n)) + "\\u" + Hex4(LowSurrogate(n))
  }

  /** Reads one escaped character; s starts after the backslash. */
  function ParseEscape(s: string): (r: Parsed<char>)
    ensures r.Read? ==> |r.left| < |s|
  {
    if |s| == 0 then Failed
    else if s[0] == '"' || s[0] == '\\' || s[0] == '/' then Read(s[0], s[1..])
    else if s[0] == 'n' then Read('\n', s[1..])
    else if s[0] == 'r' then Read('\r', s[1..])
    else if s[0] == 't' then Read('\t', s[1..])
    else if s[0] == 'f' then Read(12 as char, s[1..])
    else if s[0] == 'b' then Read(8 as char, s[1..])
    else if s[0] == 'u' then ParseUnicode(s[1..])
    else Failed
  }

  /** Four hexadecimal digits, or a surrogate pair; a lone surrogate is an error. */
  function ParseUnicode(s: string): (r: Parsed<char>)
    ensures r.Read? ==> |r.left| < |s|
  {
    var n := Hex4Value(s);
    if n < 0 then Failed
    else if n < 0xD800 || 0xE000 <= n then Read(n as char, s[4..])
    else if n >= 0xDC00 || |s| < 6 || s[4] != '\\' || s[5] != 'u' then Failed
    else
      var m := Hex4Value(s[6..]);
      if 0xDC00 <= m < 0xE000 then Read((0x10000 + (n - 0xD800) * 0x400 + (m - 0xDC00)) as char, s[10..])
      else Failed
  }

  lemma SurrogatesJoin(n: nat)
    requires 0x10000 <= n < 0x110000
    ensures 0x10000 + (HighSurrogate(n) - 0xD800) * 0x400 + (LowSurrogate(n) - 0xDC00) == n
  {
  }

  /** Reading a surrogate pair. */
  lemma PairRoundTrip(high: nat, low: nat, c: char, rest: string)
    requires 0xD800 <= high < 0xDC00 && 0xDC00 <= low < 0xE000
    requires 0x10000 + (high - 0xD800) * 0x400 + (low - 0xDC00) == c as int
    ensures ParseUnicode(Hex4(high) + "\\u" + Hex4(low) + rest) == Read(c, rest)
  {
    hide Hex4, Hex4Value;
    var second := Hex4(low) + rest;
    var s := Hex4(high) + "\\u" + Hex4(low) + rest;
    assert s == Hex4(high) + ("\\u" + second);
    Hex4RoundTrip(high, "\\u" + second);
    Hex4RoundTrip(low, rest);
    assert s[4] == '\\' && s[5] == 'u' && s[6..] == second;
    assert s[10..] == rest;
  }

  lemma DropTwo(a: string, b: string, rest: string)
    requires |a| == 2
    ensures (a + b)[..2] == a && (a + b + rest)[2..] == b + rest
  {
  }

  lemma UnicodeRoundTrip(c: char, rest: string)
    requires ShortEscape(c) == ' ' && !(' ' <= c <= '~')
    ensures Escape(c)[..2] == "\\u"
    ensures ParseUnicode((Escape(c) + rest)[2..]) == Read(c, rest)
  {
    hide Hex4, Hex4Value, HighSurrogate, LowSurrogate;
    var n := c as int;
    if n < 0x10000 {
      Hex4RoundTrip(n, rest);
      DropTwo("\\u", Hex4(n), rest);
    } else {
      hide ParseUnicode;
      SurrogatesJoin(n);
      PairRoundTrip(HighSurrogate(n), LowSurrogate(n), c, rest);
      var pair := Hex4(HighSurrogate(n)) + "\\u" + Hex4(LowSurrogate(n));
      assert Escape(c) == "\\u" + pair;
      DropTwo("\\u", pair, rest);
    }
  }

  lemma EscapeRoundTrip(c: char, rest: string)
    requires Escape(c)[0] == '\\'
    ensures ParseEscape((Escape(c) + rest)[1..]) == Read(c, rest)
  {
    hide ParseUnicode, Hex4;
    var s := (Escape(c) + rest)[1..];
    if ShortEscape(c) != ' ' {
      assert s == [ShortEscape(c)] + rest;
    } else {
      UnicodeRoundTrip(c, rest);
      assert s[0] == Escape(c)[..2][1];
      assert s[1..] == (Escape(c) + rest)[2..];
    }
  }

  /* ---- Strings ----------------------------------------------------------------------------- */

  /** The characters of s as written, the closing quote, and then rest. */
  function CharsTo(s: string, rest: string): string {
    if |s| == 0 then ['"'] + rest else Escape(s[0]) + CharsTo(s[1..], rest)
  }

  /** Reads up to the closing quote; a raw control character is an error. */
  function ParseChars(s: string): (r: Parsed<string>)
    ensures r.Read? ==> |r.left| < |s|
    decreases |s|
  {
    if |s| == 0 then Failed
    else if s[0] == '"' then Read("", s[1..])
    else if s[0] < ' ' then Failed
    else
      var one := if s[0] == '\\' then ParseEscape(s[1..]) else Read(s[0], s[1..]);
      if one.Failed? then Failed
      else
        var more := ParseChars(one.left);
        if more.Failed? then Failed else Read([one.got] + more.got, more.left)
  }

  lemma PlainIsItself(c: char)
    requires Escape(c)[0] != '\\'
    ensures Escape(c) == [c] && ' ' <= c <= '~' && c != '"'
  {
  }

  lemma {:induction false} CharsRoundTrip(s: string, rest: string)
    ensures ParseChars(CharsTo(s, rest)) == Read(s, rest)
  {
    hide Escape, ParseEscape;
    if |s| > 0 {
      var tail := CharsTo(s[1..], rest);
      CharsRoundTrip(s[1..], rest);
      assert [s[0]] + s[1..] == s;
      EscapeNotEmpty(s[0]);
      var text := CharsTo(s, rest);
      assert text == Escape(s[0]) + tail;
      if Escape(s[0])[0] == '\\' {
        EscapeRoundTrip(s[0], tail);
      } else {
        PlainIsItself(s[0]);
      }
    }
  }

  lemma EscapeNotEmpty(c: char)
    ensures |Escape(c)| > 0 && Escape(c)[0] != '"'
    ensures forall k :: 0 <= k < |Escape(c)| ==> ' ' <= Escape(c)[k] <= '~'
  {
    hide Hex4, HexDigit;
  }

  /* ---- Values ------------------------------------------------------------------------------ */

  predicate IsNumberChar(c: char) {
    '0' <= c <= '9' || c == '-' || c == '+' || c == '.' || c == 'e' || c == 'E'
  }

  /** The longest run of characters a number can contain. */
  function NumberRun(s: string): (r: Parsed<string>)
    ensures r.Read? && r.got + r.left == s
    ensures |r.left| > 0 ==> !IsNumberChar(r.left[0])
    ensures forall c :: c in r.got ==> IsNumberChar(c)
  {
    if |s| == 0 || !IsNumberChar(s[0]) then Read("", s)
    else
      var more := NumberRun(s[1..]);
      Read([s[0]] + more.got, more.left)
  }

  predicate AllDigits(s: string) {
    |s| > 0 && forall k :: 0 <= k < |s| ==> '0' <= s[k] <= '9'
  }

  /** int = zero / ( digit1-9 *DIGIT ) */
  predicate IsInteger(s: string) {
    AllDigits(s) && (|s| == 1 || s[0] != '0')
  }

  predicate IsExponent(s: string) {
    if |s| > 0 && (s[0] == '+' || s[0] == '-') then AllDigits(s[1..]) else AllDigits(s)
  }

  /** An integer part, then optionally a fraction and an exponent (section 6). */
  predicate IsUnsigned(s: string) {
    exists i, j :: 0 <= i <= j <= |s| && SplitsAsNumber(s, i, j)
  }

  predicate SplitsAsNumber(s: string, i: nat, j: nat)
    requires i <= j <= |s|
  {
    && IsInteger(s[..i])
    && (i == j || (s[i] == '.' && AllDigits(s[i + 1..j])))
    && (j == |s| || ((s[j] == 'e' || s[j] == 'E') && IsExponent(s[j + 1..])))
  }

  predicate IsNumber(s: string) {
    if |s| > 0 && s[0] == '-' then IsUnsigned(s[1..]) else IsUnsigned(s)
  }

  predicate IsBlank(c: char) {
    c == ' ' || c == '\t' || c == '\n' || c == '\r'
  }

  /** Drops leading white space (section 2). */
  function Skip(s: string): (r: string)
    ensures |r| <= |s| && (|r| > 0 ==> !IsBlank(r[0]))
    ensures (|s| > 0 && !IsBlank(s[0])) ==> r == s
  {
    if |s| > 0 && IsBlank(s[0]) then Skip(s[1..]) else s
  }

  /** Every number in the value has the text of a number. */
  predicate WellFormed(v: Value) {
    match v
    case Number(text) => IsNumber(text) && (forall c :: c in text ==> IsNumberChar(c))
    case Array(items) => WellFormedItems(items)
    case Object(members) => WellFormedMembers(members)
    case _ => true
  }

  predicate WellFormedItems(xs: Items) {
    match xs
    case NoItems => true
    case Item(head, tail) => WellFormed(head) && WellFormedItems(tail)
  }

  predicate WellFormedMembers(ms: Members) {
    match ms
    case NoMembers => true
    case Member(_, value, rest) => WellFormed(value) && WellFormedMembers(rest)
  }

  /** The text of v, followed by rest. */
  function ValueTo(v: Value, rest: string): string {
    match v
    case Null => "null" + rest
    case Bool(b) => (if b then "true" else "false") + rest
    case Number(text) => text + rest
    case Text(s) => ['"'] + CharsTo(s, rest)
    case Array(items) => ['['] + ItemsTo(items, [']'] + rest)
    case Object(members) => ['{'] + MembersTo(members, ['}'] + rest)
  }

  function ItemsTo(xs: Items, rest: string): string {
    match xs
    case NoItems => rest
    case Item(head, tail) => ValueTo(head, if tail.NoItems? then rest else ", " + ItemsTo(tail, rest))
  }

  function MembersTo(ms: Members, rest: string): string {
    match ms
    case NoMembers => rest
    case Member(key, value, more) =>
      ['"'] + CharsTo(key, ": " + ValueTo(value, if more.NoMembers? then rest else ", " + MembersTo(more, rest)))
  }

  /** The text of one value. */
  function Encode(v: Value): string {
    ValueTo(v, "")
  }

  function ParseNumber(s: string): (r: Parsed<Value>)
    ensures r.Read? ==> |r.left| < |s|
  {
    var run := NumberRun(s);
    if IsNumber(run.got) then NumberNotEmpty(run.got); Read(Number(run.got), run.left) else Failed
  }

  lemma NumberNotEmpty(s: string)
    requires IsNumber(s)
    ensures |s| > 0
  {
  }

  function ParseWord(s: string, word: string, v: Value): (r: Parsed<Value>)
    requires word != ""
    ensures r.Read? ==> |r.left| < |s|
  {
    if |s| >= |word| && s[..|word|] == word then Read(v, s[|word|..]) else Failed
  }

  function ParseText(s: string): (r: Parsed<Value>)
    requires s != ""
    ensures r.Read? ==> |r.left| < |s|
  {
    var chars := ParseChars(s[1..]);
    if chars.Failed? then Failed else Read(Text(chars.got), chars.left)
  }

  function ParseScalar(s: string): (r: Parsed<Value>)
    requires s != ""
    ensures r.Read? ==> |r.left| < |s|
  {
    if s[0] == '"' then ParseText(s)
    else if s[0] == 'n' then ParseWord(s, "null", Null)
    else if s[0] == 't' then ParseWord(s, "true", Bool(true))
    else if s[0] == 'f' then ParseWord(s, "false", Bool(false))
    else ParseNumber(s)
  }

  function ParseValue(s: string): (r: Parsed<Value>)
    ensures r.Read? ==> |r.left| < |s|
    decreases |s|, 1
  {
    var t := Skip(s);
    if t == "" then Failed
    else if t[0] == '[' then
      var u := Skip(t[1..]);
      if u != "" && u[0] == ']' then Read(Array(NoItems), u[1..])
      else
        var items := ParseItems(u);
        if items.Failed? then Failed else Read(Array(items.got), items.left)
    else if t[0] == '{' then
      var u := Skip(t[1..]);
      if u != "" && u[0] == '}' then Read(Object(NoMembers), u[1..])
      else
        var members := ParseMembers(u);
        if members.Failed? then Failed else Read(Object(members.got), members.left)
    else ParseScalar(t)
  }

  /** One or more items and the closing bracket. */
  function ParseItems(s: string): (r: Parsed<Items>)
    ensures r.Read? ==> |r.left| < |s|
    decreases |s|, 2
  {
    var value := ParseValue(s);
    if value.Failed? then Failed
    else
      var t := Skip(value.left);
      if |t| == 0 then Failed
      else if t[0] == ']' then Read(Item(value.got, NoItems), t[1..])
      else if t[0] != ',' then Failed
      else
        var more := ParseItems(t[1..]);
        if more.Failed? then Failed else Read(Item(value.got, more.got), more.left)
  }

  /** One or more members and the closing brace. */
  function ParseMembers(s: string): (r: Parsed<Members>)
    ensures r.Read? ==> |r.left| < |s|
    decreases |s|, 2
  {
    var t := Skip(s);
    if |t| == 0 || t[0] != '"' then Failed
    else
      var key := ParseChars(t[1..]);
      if key.Failed? then Failed
      else
        var u := Skip(key.left);
        if |u| == 0 || u[0] != ':' then Failed
        else
          var value := ParseValue(u[1..]);
          if value.Failed? then Failed
          else
            var w := Skip(value.left);
            if |w| == 0 then Failed
            else if w[0] == '}' then Read(Member(key.got, value.got, NoMembers), w[1..])
            else if w[0] != ',' then Failed
            else
              var more := ParseMembers(w[1..]);
              if more.Failed? then Failed else Read(Member(key.got, value.got, more.got), more.left)
  }

  /** A whole text that is one value between white space. */
  function Decode(s: string): Option<Value> {
    var r := ParseValue(s);
    if r.Read? && Skip(r.left) == "" then Some(r.got) else None
  }
}
