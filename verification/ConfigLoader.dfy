/** load_config: which files are laid over which, and what the early pass of the profile is for. */
module ConfigLoader {
  import opened Models
  import opened ConfigMerge

  /** The files under the configuration root; None or absent where there is no file. */
  datatype Files = Files(
    base: Option<Dict>,
    risk: Option<Dict>,
    strategy: Option<Dict>,
    profile: Option<Dict>,
    fees: map<string, Dict>,
    diversification: Option<Dict>,
    streaming: Option<Dict>,
    session: map<string, Dict>)

  /** Python's truth value. */
  predicate Truthy(t: Tree) {
    match t
    case Node(children) => |children| > 0
    case Leaf(Null) => false
    case Leaf(Flag(on)) => on
    case Leaf(Number(value)) => value != 0.0
    case Leaf(Str(text)) => |text| > 0
    case Leaf(List(items)) => |items| > 0
  }

  predicate TruthyAt(d: Dict, key: string) {
    key in d && Truthy(d[key])
  }

  /** str(): a text is itself; how other values read is left open. */
  ghost predicate IsStr(str: Tree -> string) {
    forall s :: str(Leaf(Str(s))) == s
  }

  /** str.upper() as far as a comparison with an adapter name can tell: the dotless i is an I, too. */
  function Upper(s: string): string {
    if |s| == 0 then ""
    else
      var c := s[0];
      [if 'a' <= c <= 'z' then (c as int - 32) as char else if c as int == 0x131 then 'I' else c] + Upper(s[1..])
  }

  /* ---- Picking the overlays ------------------------------------------------------------------ */

  /** d.get(key, {}) where the result is asked for an entry; None where that raises. */
  function Section(d: Dict, key: string): Option<Dict> {
    if key !in d then Some(map[])
    else if d[key].Node? then Some(d[key].children)
    else None
  }

  /** The venue adapter in upper case, "IB" by default. */
  function Adapter(d: Dict, str: Tree -> string): Option<string> {
    match Section(d, "venue")
    case None => None
    case Some(venue) => Some(if "adapter" in venue then Upper(str(venue["adapter"])) else "IB")
  }

  /** _fee_overlay_name; None where it raises. */
  function FeeOverlayName(d: Dict, str: Tree -> string): Option<Option<string>> {
    if TruthyAt(d, "fees_overlay") then Some(Some(str(d["fees_overlay"])))
    else
      match Adapter(d, str)
      case None => None
      case Some(a) =>
        Some(if a == "DERIBIT" then Some("deribit_options") else if a == "IB" then Some("ib_options") else None)
  }

  const SESSION_KEY := "session_overlay"

  /** The session overlay of the venue adapter; None where asking for the adapter raises. */
  function DefaultSession(d: Dict, str: Tree -> string): Option<string> {
    match Adapter(d, str)
    case None => None
    case Some(a) => Some(if a == "DERIBIT" then "crypto_deribit" else "us_equity")
  }

  /** _session_overlay_name; None where it raises. */
  function SessionOverlayName(d: Dict, str: Tree -> string): Option<string> {
    if TruthyAt(d, SESSION_KEY) then Some(str(d[SESSION_KEY])) else DefaultSession(d, str)
  }

  /** The text is the word in letters of either case; a dotless i counts as an I. */
  predicate SpelledLike(text: string, word: string) {
    && |text| == |word|
    && forall k :: 0 <= k < |text| ==>
         || (text[k] == word[k] && !('a' <= text[k] <= 'z') && text[k] as int != 0x131)
         || ('a' <= text[k] <= 'z' && text[k] as int - 'a' as int == word[k] as int - 'A' as int)
         || (text[k] as int == 0x131 && word[k] == 'I')
  }

  lemma {:induction false} UpperIff(text: string, word: string)
    ensures Upper(text) == word <==> SpelledLike(text, word)
  {
    if |text| > 0 {
      UpperIff(text[1..], if |word| > 0 then word[1..] else "");
      if |word| > 0 {
        assert word == [word[0]] + word[1..];
        assert SpelledLike(text, word) <==> SpelledLike([text[0]], [word[0]]) && SpelledLike(text[1..], word[1..]) by {
          if SpelledLike([text[0]], [word[0]]) && SpelledLike(text[1..], word[1..]) {
            forall k | 0 <= k < |text|
              ensures k == 0 || (text[k] == text[1..][k - 1] && word[k] == word[1..][k - 1])
            {
            }
          }
        }
      }
    }
  }

  /** The adapter a configuration gives as a text. */
  ghost predicate AdapterIs(d: Dict, text: string) {
    && "venue" in d && d["venue"].Node? && "adapter" in d["venue"].children
    && d["venue"].children["adapter"] == Leaf(Str(text))
  }

  /** The overlays where none is named: those of the venue adapter, in any case of letters. */
  lemma OverlaysOfAdapter(d: Dict, str: Tree -> string, text: string)
    requires IsStr(str) && AdapterIs(d, text)
    requires !TruthyAt(d, "fees_overlay") && !TruthyAt(d, SESSION_KEY)
    ensures FeeOverlayName(d, str) == Some(if SpelledLike(text, "DERIBIT") then Some("deribit_options")
                                           else if SpelledLike(text, "IB") then Some("ib_options") else None)
    ensures SessionOverlayName(d, str) == Some(if SpelledLike(text, "DERIBIT") then "crypto_deribit" else "us_equity")
  {
    UpperIff(text, "DERIBIT");
    UpperIff(text, "IB");
    hide Upper, SpelledLike;
    assert str(Leaf(Str(text))) == text;
  }

  /** Without an adapter they are those of Interactive Brokers; a venue that is no dictionary is an error. */
  lemma OverlaysWithoutAdapter(d: Dict, str: Tree -> string)
    requires !TruthyAt(d, "fees_overlay") && !TruthyAt(d, SESSION_KEY)
    ensures "venue" !in d || (d["venue"].Node? && "adapter" !in d["venue"].children) ==>
              FeeOverlayName(d, str) == Some(Some("ib_options")) && SessionOverlayName(d, str) == Some("us_equity")
    ensures "venue" in d && d["venue"].Leaf? ==>
              FeeOverlayName(d, str).None? && SessionOverlayName(d, str).None?
  {
    assert "IB"[0] == 'I' && "DERIBIT"[0] == 'D';
  }

  function Optional(d: Option<Dict>): seq<Dict> {
    if d.Some? then [d.value] else []
  }

  /** Of a fee file only a non-empty "fees" entry is laid over. */
  function FeeLayer(files: Files, name: Option<string>): Option<Dict> {
    if name.Some? && name.value in files.fees && TruthyAt(files.fees[name.value], "fees") then
      Some(map["fees" := files.fees[name.value]["fees"]])
    else None
  }

  /** The diversification file, if it is wanted; None where asking raises. */
  function DiversificationLayer(files: Files, d: Dict): Option<Option<Dict>> {
    if files.diversification.None? then Some(None)
    else if TruthyAt(d, "strategies") then Some(files.diversification)
    else
      match Section(d, "diversification")
      case None => None
      case Some(section) => Some(if TruthyAt(section, "enabled") then files.diversification else None)
  }

  /** What Python takes for false: None, False, zero, and anything empty. */
  lemma FalsyValues(t: Tree)
    ensures !Truthy(t) <==> t in {Leaf(Null), Leaf(Flag(false)), Leaf(Number(0.0)), Leaf(Str("")), Leaf(List([])),
                                  Node(map[])}
  {
    if t.Node? && |t.children| == 0 {
      assert t.children == map[];
    }
  }

  /**
   * The diversification file is laid over exactly if it exists and strategies are listed or diversification
   * is switched on; asking whether it is raises where no strategies are listed and its entry is no dictionary.
   */
  lemma DiversificationIff(files: Files, d: Dict)
    requires files.diversification.Some?
    ensures DiversificationLayer(files, d) == Some(files.diversification) <==>
            || TruthyAt(d, "strategies")
            || ("diversification" in d && d["diversification"].Node? &&
                TruthyAt(d["diversification"].children, "enabled"))
    ensures DiversificationLayer(files, d).None? <==>
            !TruthyAt(d, "strategies") && "diversification" in d && d["diversification"].Leaf?
  {
  }

  /** Of a fee file nothing but a non-empty fees entry reaches the configuration. */
  lemma FeesOnly(files: Files, name: Option<string>, key: string)
    ensures match FeeLayer(files, name)
            case None => name.None? || name.value !in files.fees || !TruthyAt(files.fees[name.value], "fees")
            case Some(layer) =>
              && name.Some? && name.value in files.fees && TruthyAt(files.fees[name.value], "fees")
              && (key in layer <==> key == "fees") && layer["fees"] == files.fees[name.value]["fees"]
  {
  }

  function SessionLayer(files: Files, name: string): Option<Dict> {
    if name in files.session then Some(files.session[name]) else None
  }

  /** The layers before the profile. */
  function Defaults(files: Files): seq<Dict> {
    Optional(files.base) + Optional(files.risk) + Optional(files.strategy)
  }

  /** The diversification layer picked after the first pass; None where picking it or the fees raises. */
  function PickedDiversification(files: Files, str: Tree -> string, first: Dict): Option<Option<Dict>> {
    match FeeOverlayName(first, str)
    case None => None
    case Some(feeName) => DiversificationLayer(files, MergeAll(first, Optional(FeeLayer(files, feeName))))
  }

  /** The layers between the first pass and the session overlay; None where picking them raises. */
  function EarlyLayers(files: Files, str: Tree -> string, first: Dict): Option<seq<Dict>> {
    match FeeOverlayName(first, str)
    case None => None
    case Some(feeName) =>
      match PickedDiversification(files, str, first)
      case None => None
      case Some(div) => Some(Optional(FeeLayer(files, feeName)) + Optional(div) + Optional(files.streaming))
  }

  /** The layers picked after the first pass, each from what had been merged by then; None where picking raises. */
  function Overlays(files: Files, str: Tree -> string, first: Dict): Option<seq<Dict>> {
    match EarlyLayers(files, str, first)
    case None => None
    case Some(early) =>
      match SessionOverlayName(MergeAll(first, early), str)
      case None => None
      case Some(name) => Some(early + Optional(SessionLayer(files, name)))
  }

  const MARKERS: set<string> := {SESSION_KEY, "fees_overlay"}

  /* ---- Merging the layers ---------------------------------------------------------------------- */

  lemma {:induction false} MergeAllConcat(base: Dict, a: seq<Dict>, b: seq<Dict>)
    ensures MergeAll(base, a + b) == MergeAll(MergeAll(base, a), b)
  {
    hide DeepMerge;
    if |b| == 0 {
      assert a + b == a;
    } else {
      assert (a + b)[..|a + b| - 1] == a + b[..|b| - 1];
      MergeAllConcat(base, a, b[..|b| - 1]);
    }
  }

  lemma MergeOne(base: Dict, overlay: Dict)
    ensures MergeAll(base, [overlay]) == DeepMerge(base, overlay)
    ensures MergeAll(base, []) == base
  {
    hide DeepMerge;
    assert [overlay][..0] == [];
  }

  /** Lay one optional file over what has been merged. */
  method LayOver(merged: Dict, layer: Option<Dict>) returns (r: Dict)
    ensures r == MergeAll(merged, Optional(layer))
  {
    hide DeepMerge;
    r := merged;
    if layer.Some? {
      r := DeepMergeInPlace(merged, layer.value);
      MergeOne(merged, layer.value);
    }
  }

  /** The first pass: defaults, then the profile. */
  function FirstPass(files: Files): Dict {
    MergeAll(map[], Defaults(files) + Optional(files.profile))
  }

  /** load_config up to the environment overrides; None where picking an overlay raises. */
  method LoadConfig(files: Files, str: Tree -> string) returns (r: Option<Dict>)
    ensures r == match Overlays(files, str, FirstPass(files))
                 case None => None
                 case Some(picked) =>
                   Some(MergeAll(MergeAll(FirstPass(files), picked), Optional(files.profile)) - MARKERS)
  {
    hide DeepMerge, MergeAll, FeeLayer, FeeOverlayName, DiversificationLayer, SessionOverlayName, SessionLayer;
    var merged := LayOver(map[], files.base);
    merged := LayOver(merged, files.risk);
    merged := LayOver(merged, files.strategy);
    merged := LayOver(merged, files.profile);
    FirstPassInSteps(files);
    ghost var first := merged;
    var feeName := FeeOverlayName(merged, str);
    if feeName.None? {
      return None;
    }
    var fee := FeeLayer(files, feeName.value);
    merged := LayOver(merged, fee);
    var div := DiversificationLayer(files, merged);
    if div.None? {
      return None;
    }
    merged := LayOver(merged, div.value);
    merged := LayOver(merged, files.streaming);
    MergeInSteps(first, Optional(fee), Optional(div.value), Optional(files.streaming));
    var name := SessionOverlayName(merged, str);
    if name.None? {
      return None;
    }
    var session := SessionLayer(files, name.value);
    merged := LayOver(merged, session);
    MergeAllConcat(first, Optional(fee) + Optional(div.value) + Optional(files.streaming), Optional(session));
    merged := LayOver(merged, files.profile);
    r := Some(merged - MARKERS);
  }

  lemma MergeInSteps(base: Dict, a: seq<Dict>, b: seq<Dict>, c: seq<Dict>)
    ensures MergeAll(base, a + b + c) == MergeAll(MergeAll(MergeAll(base, a), b), c)
  {
    hide MergeAll;
    MergeAllConcat(base, a, b);
    MergeAllConcat(base, a + b, c);
  }

  lemma FirstPassInSteps(files: Files)
    ensures FirstPass(files) ==
            MergeAll(MergeAll(MergeAll(MergeAll(map[], Optional(files.base)), Optional(files.risk)),
                              Optional(files.strategy)), Optional(files.profile))
  {
    hide MergeAll, Optional;
    MergeInSteps(map[], Optional(files.base), Optional(files.risk), Optional(files.strategy));
    MergeAllConcat(map[], Defaults(files), Optional(files.profile));
  }

  /**
   * The early pass of the profile affects only which overlays are picked: the loaded configuration is
   * the defaults, the picked overlays and the profile, in this order.
   */
  lemma EarlyPassOnlyPicks(files: Files, str: Tree -> string)
    ensures match Overlays(files, str, FirstPass(files))
            case None => true
            case Some(picked) =>
              MergeAll(MergeAll(FirstPass(files), picked), Optional(files.profile)) ==
              MergeAll(map[], Defaults(files) + picked + Optional(files.profile))
  {
    hide Overlays;
    match Overlays(files, str, FirstPass(files))
    case None =>
    case Some(picked) => EarlyPassIsHidden(files, picked);
  }

  lemma EarlyPassIsHidden(files: Files, picked: seq<Dict>)
    ensures MergeAll(MergeAll(FirstPass(files), picked), Optional(files.profile)) ==
            MergeAll(map[], Defaults(files) + picked + Optional(files.profile))
  {
    hide DeepMerge, MergeAll, Defaults;
    var defaults := MergeAll(map[], Defaults(files));
    MergeAllConcat(map[], Defaults(files), Optional(files.profile));
    MergeInSteps(map[], Defaults(files), picked, Optional(files.profile));
    MergeOne(defaults, map[]);
    if files.profile.Some? {
      var p := files.profile.value;
      MergeOne(defaults, p);
      MergeOne(MergeAll(FirstPass(files), picked), p);
      MergeOne(MergeAll(defaults, picked), p);
      EarlyProfileIsHidden(defaults, p, picked);
    }
  }

  /** Every scalar of the profile is in the loaded configuration, the two overlay names aside. */
  lemma ProfileSurvivesLoading(files: Files, picked: seq<Dict>, path: seq<string>, v: Scalar)
    requires files.profile.Some? && |path| > 0 && path[0] !in MARKERS
    requires HasLeaf(Some(Node(files.profile.value)), path, v)
    ensures var loaded := MergeAll(MergeAll(FirstPass(files), picked), Optional(files.profile)) - MARKERS;
            HasLeaf(Some(Node(loaded)), path, v)
  {
    hide DeepMerge, MergeAll, FirstPass;
    var before := MergeAll(FirstPass(files), picked);
    MergeOne(before, files.profile.value);
    ProfileWins(before, files.profile.value, path, v);
    var merged := DeepMerge(before, files.profile.value);
    assert At(Some(Node(merged - MARKERS)), path[0]) == At(Some(Node(merged)), path[0]);
  }

  /* ---- What becomes of the overlay names a profile gives ----------------------------------------- */

  /** What a layer holds at a key of its top level. */
  function TopLevel(layer: Option<Dict>, key: string): Option<Tree> {
    if layer.Some? && key in layer.value then Some(layer.value[key]) else None
  }

  lemma LayeredAt(base: Dict, layer: Option<Dict>, key: string)
    ensures At(Some(Node(MergeAll(base, Optional(layer)))), key) ==
            MergeAt(At(Some(Node(base)), key), TopLevel(layer, key))
  {
    hide DeepMerge, MergeAll;
    match layer
    case None => MergeOne(base, map[]);
    case Some(overlay) =>
      MergeOne(base, overlay);
      MergeOfNodes(Node(base), Node(overlay));
      MergeByKey(Some(Node(base)), Node(overlay), key);
  }

  /** At a key where the base holds no dictionary, three layers leave what they hold there among them. */
  lemma ThreeLayersAt(base: Dict, a: Option<Dict>, b: Option<Dict>, c: Option<Dict>, key: string)
    requires key in base && base[key].Leaf? && TopLevel(a, key).None?
    ensures At(Some(Node(MergeAll(base, Optional(a) + Optional(b) + Optional(c)))), key) ==
            match MergeAt(TopLevel(b, key), TopLevel(c, key))
            case None => Some(base[key])
            case Some(t) => Some(t)
  {
    hide DeepMerge, MergeAll, Optional, TopLevel;
    MergeInSteps(base, Optional(a), Optional(b), Optional(c));
    var one := MergeAll(base, Optional(a));
    var two := MergeAll(one, Optional(b));
    LayeredAt(base, a, key);
    LayeredAt(one, b, key);
    LayeredAt(two, c, key);
  }

  /** What the profile says at a key of its top level is there after the first pass. */
  lemma ProfileAfterFirstPass(files: Files, key: string, v: Scalar)
    requires TopLevel(files.profile, key) == Some(Leaf(v))
    ensures key in FirstPass(files) && FirstPass(files)[key] == Leaf(v)
  {
    hide MergeAll, DeepMerge, Defaults;
    MergeAllConcat(map[], Defaults(files), Optional(files.profile));
    LayeredAt(MergeAll(map[], Defaults(files)), files.profile, key);
  }

  /**
   * The fee overlay a profile names is the one picked. The session overlay is picked later: the one the
   * profile names is picked exactly when the diversification and streaming layers between hold no other name.
   */
  lemma NamedOverlays(files: Files, str: Tree -> string, fees: string, session: string)
    requires IsStr(str) && fees != "" && session != ""
    requires TopLevel(files.profile, "fees_overlay") == Some(Leaf(Str(fees)))
    requires TopLevel(files.profile, SESSION_KEY) == Some(Leaf(Str(session)))
    ensures FeeOverlayName(FirstPass(files), str) == Some(Some(fees))
    ensures match PickedDiversification(files, str, FirstPass(files))
            case None => EarlyLayers(files, str, FirstPass(files)).None?
            case Some(div) =>
              && EarlyLayers(files, str, FirstPass(files)).Some?
              && var merged := MergeAll(FirstPass(files), EarlyLayers(files, str, FirstPass(files)).value);
              SessionOverlayName(merged, str) == Some(session) <==>
                match MergeAt(TopLevel(div, SESSION_KEY), TopLevel(files.streaming, SESSION_KEY))
                case None => true
                case Some(t) => if Truthy(t) then str(t) == session else DefaultSession(merged, str) == Some(session)
  {
    hide MergeAll, MergeAt, DiversificationLayer, DefaultSession, FirstPass;
    ProfileAfterFirstPass(files, "fees_overlay", Str(fees));
    ProfileAfterFirstPass(files, SESSION_KEY, Str(session));
    var first := FirstPass(files);
    match PickedDiversification(files, str, first)
    case None =>
    case Some(div) => ThreeLayersAt(first, FeeLayer(files, Some(fees)), div, files.streaming, SESSION_KEY);
  }

  /** A session overlay the streaming file names is picked, whatever the profile and the other files name. */
  lemma StreamingNamesSession(files: Files, str: Tree -> string, name: string)
    requires IsStr(str) && name != "" && TopLevel(files.streaming, SESSION_KEY) == Some(Leaf(Str(name)))
    ensures match EarlyLayers(files, str, FirstPass(files))
            case None => true
            case Some(early) =>
              Overlays(files, str, FirstPass(files)) == Some(early + Optional(SessionLayer(files, name)))
  {
    hide MergeAll, DiversificationLayer, DefaultSession, FirstPass, SessionLayer, FeeLayer;
    var first := FirstPass(files);
    match EarlyLayers(files, str, first)
    case None =>
    case Some(early) =>
      var fee := Optional(FeeLayer(files, FeeOverlayName(first, str).value));
      var div := Optional(PickedDiversification(files, str, first).value);
      MergeAllConcat(first, fee + div, Optional(files.streaming));
      LayeredAt(MergeAll(first, fee + div), files.streaming, SESSION_KEY);
  }

  /** Files whose profile names one session overlay and whose streaming file another. */
  function TwoSessions(mine: Dict, other: Dict): Files {
    Files(None, None, None, Some(map[SESSION_KEY := Leaf(Str("mine")), "fees_overlay" := Leaf(Str("none"))]),
          map[], None, Some(map[SESSION_KEY := Leaf(Str("other"))]), map["mine" := mine, "other" := other])
  }

  /** The session overlay such a profile names is not laid over anything; the other one is. */
  lemma NamedSessionIsReplaced(str: Tree -> string, mine: Dict, other: Dict)
    requires IsStr(str)
    ensures var files := TwoSessions(mine, other);
            Overlays(files, str, FirstPass(files)) == Some([files.streaming.value, other])
  {
    hide MergeAll, DefaultSession, FirstPass;
    var files := TwoSessions(mine, other);
    ProfileAfterFirstPass(files, "fees_overlay", Str("none"));
    StreamingNamesSession(files, str, "other");
    var first := FirstPass(files);
    assert FeeOverlayName(first, str) == Some(Some("none"));
    var none: seq<Dict> := Optional(None);
    assert none + none + Optional(files.streaming) == [files.streaming.value];
    assert PickedDiversification(files, str, first) == Some(None);
    assert EarlyLayers(files, str, first) == Some([files.streaming.value]);
    assert [files.streaming.value] + Optional(SessionLayer(files, "other")) == [files.streaming.value, other];
  }

  /* ---- The last layer that speaks decides --------------------------------------------------------- */

  function AllOf(layers: seq<Option<Dict>>): seq<Dict> {
    if |layers| == 0 then [] else AllOf(layers[..|layers| - 1]) + Optional(layers[|layers| - 1])
  }

  function TreeOf(layer: Option<Dict>): Option<Tree> {
    if layer.Some? then Some(Node(layer.value)) else None
  }

  /** Layer k holds v at the path, and no later layer says anything there. */
  ghost predicate HasLastWord(layers: seq<Option<Dict>>, k: int, path: seq<string>, v: Scalar) {
    && 0 <= k < |layers| && HasLeaf(TreeOf(layers[k]), path, v)
    && forall later :: k < later < |layers| ==> Silent(TreeOf(layers[later]), path)
  }

  ghost predicate SomeLastWord(layers: seq<Option<Dict>>, path: seq<string>, v: Scalar) {
    exists k :: HasLastWord(layers, k, path, v)
  }

  lemma {:induction false} LastWordOfLayers(layers: seq<Option<Dict>>, path: seq<string>, v: Scalar)
    requires |path| > 0
    ensures HasLeaf(Some(Node(MergeAll(map[], AllOf(layers)))), path, v) <==>
            SomeLastWord(layers, path, v)
  {
    hide MergeAll, DeepMerge, HasLeaf, Silent;
    if |layers| == 0 {
      NothingLoaded(path, v);
    } else {
      var init, last := layers[..|layers| - 1], layers[|layers| - 1];
      LastWordOfLayers(init, path, v);
      MergeAllConcat(map[], AllOf(init), Optional(last));
      OneMoreLayer(MergeAll(map[], AllOf(init)), last, path, v);
      OneMoreWord(init, last, path, v);
      assert layers == init + [last];
    }
  }

  lemma NothingLoaded(path: seq<string>, v: Scalar)
    requires |path| > 0
    ensures !HasLeaf(Some(Node(MergeAll(map[], AllOf([])))), path, v)
  {
    NothingBelow(path[1..], v);
  }

  /** One more layer: what it holds, and what was there where it is silent. */
  lemma OneMoreLayer(base: Dict, layer: Option<Dict>, path: seq<string>, v: Scalar)
    ensures HasLeaf(Some(Node(MergeAll(base, Optional(layer)))), path, v) <==>
            HasLeaf(TreeOf(layer), path, v) || (Silent(TreeOf(layer), path) && HasLeaf(Some(Node(base)), path, v))
  {
    hide MergeAll, DeepMerge, MergeAt, HasLeaf;
    MergeOne(base, map[]);
    NothingBelow(path, v);
    if layer.Some? {
      MergeOne(base, layer.value);
      DeepMergeIsMergeAt(base, layer.value);
      LeavesOfMerge(Some(Node(base)), TreeOf(layer), path, v);
    } else {
      NothingSaid(path);
    }
  }

  lemma NothingSaid(path: seq<string>)
    ensures Silent(None, path)
  {
  }

  lemma OneMoreWord(init: seq<Option<Dict>>, last: Option<Dict>, path: seq<string>, v: Scalar)
    ensures (exists k :: HasLastWord(init + [last], k, path, v)) <==>
            || HasLeaf(TreeOf(last), path, v)
            || (Silent(TreeOf(last), path) && exists k :: HasLastWord(init, k, path, v))
  {
    hide HasLeaf, Silent, TreeOf;
    var layers, n := init + [last], |init|;
    if exists k :: HasLastWord(layers, k, path, v) {
      var k :| HasLastWord(layers, k, path, v);
      assert layers[n] == last;
      if k < n {
        forall later | k < later < n ensures Silent(TreeOf(init[later]), path) {
          assert layers[later] == init[later];
        }
        assert HasLastWord(init, k, path, v);
      }
    }
    if HasLeaf(TreeOf(last), path, v) {
      assert HasLastWord(layers, n, path, v);
    }
    if Silent(TreeOf(last), path) && exists k :: HasLastWord(init, k, path, v) {
      var k :| HasLastWord(init, k, path, v);
      forall later | k < later < |layers| ensures Silent(TreeOf(layers[later]), path) {
        assert later < n ==> layers[later] == init[later];
      }
      assert HasLastWord(layers, k, path, v);
    }
  }

  /** The files of a loaded configuration, each laid over the ones before it. */
  function Layers(files: Files, fees: Option<Dict>, diversification: Option<Dict>, session: Option<Dict>)
    : seq<Option<Dict>>
  {
    [files.base, files.risk, files.strategy, fees, diversification, files.streaming, session, files.profile]
  }

  lemma {:induction false} AllOfConcat(a: seq<Option<Dict>>, b: seq<Option<Dict>>)
    ensures AllOf(a + b) == AllOf(a) + AllOf(b)
  {
    hide Optional;
    if |b| == 0 {
      assert a + b == a;
    } else {
      assert (a + b)[..|a + b| - 1] == a + b[..|b| - 1];
      AllOfConcat(a, b[..|b| - 1]);
    }
  }

  lemma AllOfOne(a: Option<Dict>)
    ensures AllOf([a]) == Optional(a)
  {
    hide Optional;
    assert [a][..0] == [] && AllOf([]) == [];
  }

  lemma AllOfThree(a: Option<Dict>, b: Option<Dict>, c: Option<Dict>)
    ensures AllOf([a, b, c]) == Optional(a) + Optional(b) + Optional(c)
  {
    hide AllOf, Optional;
    AllOfConcat([a], [b]);
    AllOfConcat([a] + [b], [c]);
    AllOfOne(a);
    AllOfOne(b);
    AllOfOne(c);
    assert [a] + [b] + [c] == [a, b, c];
  }

  lemma LayersInOrder(files: Files, fees: Option<Dict>, div: Option<Dict>, session: Option<Dict>)
    ensures AllOf(Layers(files, fees, div, session)) ==
            Defaults(files) + (Optional(fees) + Optional(div) + Optional(files.streaming) + Optional(session)) +
            Optional(files.profile)
  {
    hide AllOf, Optional;
    var a, b := [files.base, files.risk, files.strategy], [fees, div, files.streaming];
    AllOfThree(files.base, files.risk, files.strategy);
    AllOfThree(fees, div, files.streaming);
    AllOfOne(session);
    AllOfOne(files.profile);
    AllOfConcat(b, [session]);
    AllOfConcat(a, b + [session]);
    AllOfConcat(a + (b + [session]), [files.profile]);
    assert a + (b + [session]) + [files.profile] == Layers(files, fees, div, session);
  }

  /**
   * What is loaded, value by value: for some choice of the three optional overlays the configuration holds v
   * at a path exactly if the last file that says anything there says v, and never one of the two markers.
   */
  lemma LastLayerDecides(files: Files, str: Tree -> string, path: seq<string>, v: Scalar)
    requires |path| > 0 && Overlays(files, str, FirstPass(files)).Some?
    ensures var loaded := MergeAll(MergeAll(FirstPass(files), Overlays(files, str, FirstPass(files)).value),
                                   Optional(files.profile)) - MARKERS;
            var fees := FeeLayer(files, FeeOverlayName(FirstPass(files), str).value);
            var div := PickedDiversification(files, str, FirstPass(files)).value;
            var early := EarlyLayers(files, str, FirstPass(files)).value;
            var session := SessionLayer(files, SessionOverlayName(MergeAll(FirstPass(files), early), str).value);
            HasLeaf(Some(Node(loaded)), path, v) <==>
            && path[0] != "session_overlay" && path[0] != "fees_overlay"
            && SomeLastWord(Layers(files, fees, div, session), path, v)
  {
    hide MergeAll, DeepMerge, FirstPass, FeeLayer, FeeOverlayName, DiversificationLayer, SessionOverlayName,
         SessionLayer, Optional, AllOf;
    var first := FirstPass(files);
    var fees := FeeLayer(files, FeeOverlayName(first, str).value);
    var div := PickedDiversification(files, str, first).value;
    var early := EarlyLayers(files, str, first).value;
    var session := SessionLayer(files, SessionOverlayName(MergeAll(first, early), str).value);
    EarlyPassIsHidden(files, Overlays(files, str, first).value);
    assert Overlays(files, str, first).value ==
           Optional(fees) + Optional(div) + Optional(files.streaming) + Optional(session);
    LayersInOrder(files, fees, div, session);
    hide Overlays, EarlyLayers, PickedDiversification, Defaults;
    hide Layers, SomeLastWord, HasLeaf;
    var layers := Layers(files, fees, div, session);
    LastWordOfLayers(layers, path, v);
    WithoutMarkers(MergeAll(map[], AllOf(layers)), path, v);
  }

  lemma WithoutMarkers(merged: Dict, path: seq<string>, v: Scalar)
    requires |path| > 0
    ensures HasLeaf(Some(Node(merged - MARKERS)), path, v) <==>
            path[0] != "session_overlay" && path[0] != "fees_overlay" && HasLeaf(Some(Node(merged)), path, v)
  {
    var key, rest := path[0], path[1..];
    var kept := merged - MARKERS;
    assert HasLeaf(Some(Node(kept)), path, v) == HasLeaf(At(Some(Node(kept)), key), rest, v);
    assert HasLeaf(Some(Node(merged)), path, v) == HasLeaf(At(Some(Node(merged)), key), rest, v);
    NothingBelow(rest, v);
    hide HasLeaf;
    assert key in MARKERS <==> key == "session_overlay" || key == "fees_overlay";
    assert At(Some(Node(kept)), key) == if key in MARKERS then None else At(Some(Node(merged)), key);
  }
}
