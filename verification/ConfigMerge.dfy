/** Layered configuration: merging nested dictionaries, the laws of merging, and the order of the layers. */
module ConfigMerge {
  import opened Models

  datatype Scalar = Null | Flag(on: bool) | Number(value: real) | Str(text: string) | List(items: seq<string>)

  /** A value of a loaded file: a dictionary, or anything else. */
  datatype Tree = Leaf(value: Scalar) | Node(children: Dict)

  type Dict = map<string, Tree>

  /** Overlay wins, except that two dictionaries merge key by key. */
  function Merge(base: Tree, overlay: Tree): Tree
    decreases overlay
  {
    if base.Node? && overlay.Node? then
      Node(map k | k in base.children.Keys + overlay.children.Keys ::
             if k !in overlay.children then base.children[k]
             else if k in base.children then Merge(base.children[k], overlay.children[k])
             else overlay.children[k])
    else overlay
  }

  function DeepMerge(base: Dict, overlay: Dict): Dict {
    Merge(Node(base), Node(overlay)).children
  }

  /** The value a merge puts at a key of the overlay. */
  function MergedValue(base: Dict, overlay: Dict, key: string): Tree
    requires key in overlay
  {
    if key in base then Merge(base[key], overlay[key]) else overlay[key]
  }

  /** `merged` is base with the keys of `done` merged in. */
  ghost predicate MergedUpTo(base: Dict, overlay: Dict, done: set<string>, merged: Dict)
    requires done <= overlay.Keys
  {
    && merged.Keys == base.Keys + done
    && forall k :: k in merged ==> merged[k] == if k in done then MergedValue(base, overlay, k) else base[k]
  }

  lemma MergedAll(base: Dict, overlay: Dict, merged: Dict)
    requires MergedUpTo(base, overlay, overlay.Keys, merged)
    ensures merged == DeepMerge(base, overlay)
  {
    hide Merge;
    var r := DeepMerge(base, overlay);
    KeysOfMerge(base, overlay);
    forall k | k in r ensures k in merged && merged[k] == r[k] {
      KeyOfMerge(base, overlay, k);
    }
  }

  lemma KeysOfMerge(base: Dict, overlay: Dict)
    ensures Merge(Node(base), Node(overlay)).Node? && DeepMerge(base, overlay).Keys == base.Keys + overlay.Keys
  {
  }

  lemma KeyOfMerge(base: Dict, overlay: Dict, k: string)
    requires k in base || k in overlay
    ensures k in DeepMerge(base, overlay)
    ensures DeepMerge(base, overlay)[k] == if k in overlay then MergedValue(base, overlay, k) else base[k]
  {
  }

  lemma MergeOfNodes(a: Tree, b: Tree)
    ensures a.Node? && b.Node? ==> Merge(a, b) == Node(DeepMerge(a.children, b.children))
    ensures !(a.Node? && b.Node?) ==> Merge(a, b) == b
  {
    if a.Node? && b.Node? {
      KeysOfMerge(a.children, b.children);
    }
  }

  /** A key not yet merged still has its base value, and merging it brings the loop one key further. */
  lemma OneMoreKey(base: Dict, overlay: Dict, done: set<string>, merged: Dict, key: string)
    requires done <= overlay.Keys && key in overlay && key !in done && MergedUpTo(base, overlay, done, merged)
    ensures key in merged <==> key in base
    ensures key in merged ==> merged[key] == base[key]
    ensures MergedUpTo(base, overlay, done + {key}, merged[key := MergedValue(base, overlay, key)])
  {
    hide MergedValue;
  }

  /** _deep_merge: a copy of the base, updated in a loop over the overlay's items. */
  method DeepMergeInPlace(base: Dict, overlay: Dict) returns (merged: Dict)
    ensures merged == DeepMerge(base, overlay)
    decreases Node(overlay)
  {
    hide Merge, DeepMerge, MergedUpTo;
    merged := base;
    var todo := overlay.Keys;
    ghost var done: set<string> := {};
    NothingMerged(base, overlay);
    while todo != {}
      invariant done + todo == overlay.Keys && done !! todo
      invariant MergedUpTo(base, overlay, done, merged)
      decreases |todo|
    {
      var key :| key in todo;
      var value := overlay[key];
      OneMoreKey(base, overlay, done, merged, key);
      assert Node(overlay).children[key] < Node(overlay);
      if key in merged {
        MergeOfNodes(merged[key], value);
      }
      if key in merged && merged[key].Node? && value.Node? {
        var inner := DeepMergeInPlace(merged[key].children, value.children);
        merged := merged[key := Node(inner)];
      } else {
        merged := merged[key := value];
      }
      todo, done := todo - {key}, done + {key};
    }
    assert done == overlay.Keys;
    MergedAll(base, overlay, merged);
  }

  lemma NothingMerged(base: Dict, overlay: Dict)
    ensures MergedUpTo(base, overlay, {}, base)
  {
  }

  /* ---- Absent or present ------------------------------------------------------------------- */

  function At(t: Option<Tree>, key: string): Option<Tree> {
    if t.Some? && t.value.Node? && key in t.value.children then Some(t.value.children[key]) else None
  }

  /** Merging where either side may be absent. */
  function MergeAt(a: Option<Tree>, b: Option<Tree>): Option<Tree> {
    if b.None? then a
    else if a.None? then b
    else Some(Merge(a.value, b.value))
  }

  /** A dictionary overlay merges key by key, whatever it is laid over. */
  lemma MergeByKey(a: Option<Tree>, b: Tree, key: string)
    requires b.Node?
    ensures MergeAt(a, Some(b)).Some? && MergeAt(a, Some(b)).value.Node?
    ensures At(MergeAt(a, Some(b)), key) == MergeAt(At(a, key), At(Some(b), key))
  {
  }

  /** Dictionaries with the same value at every key are the same. */
  lemma SameChildren(a: Tree, b: Tree)
    requires a.Node? && b.Node? && forall k :: At(Some(a), k) == At(Some(b), k)
    ensures a == b
  {
    forall k ensures k in a.children <==> k in b.children {
      assert At(Some(a), k) == At(Some(b), k);
    }
    forall k | k in a.children ensures a.children[k] == b.children[k] {
      assert At(Some(a), k) == At(Some(b), k);
    }
  }

  /* ---- Laws ---------------------------------------------------------------------------------- */

  /** Merging the same overlay twice changes nothing. */
  lemma {:induction false} MergeTwice(a: Option<Tree>, p: Tree)
    ensures MergeAt(MergeAt(a, Some(p)), Some(p)) == MergeAt(a, Some(p))
    decreases p
  {
    if p.Node? {
      var once := MergeAt(a, Some(p)).value;
      var twice := MergeAt(Some(once), Some(p)).value;
      forall k ensures At(Some(twice), k) == At(Some(once), k) {
        MergeByKey(a, p, k);
        MergeByKey(Some(once), p, k);
        if k in p.children {
          MergeTwice(At(a, k), p.children[k]);
        }
      }
      MergeByKey(a, p, "");
      MergeByKey(Some(once), p, "");
      SameChildren(twice, once);
    }
  }

  /**
   * If two bases agree once p is laid over them, they still do when s is laid over each in between:
   * what p hides stays hidden.
   */
  lemma {:induction false} Congruence(x: Option<Tree>, y: Option<Tree>, s: Option<Tree>, p: Tree)
    requires MergeAt(x, Some(p)) == MergeAt(y, Some(p))
    ensures MergeAt(MergeAt(x, s), Some(p)) == MergeAt(MergeAt(y, s), Some(p))
    decreases p
  {
    hide Merge;
    if p.Node? && s.Some? && s.value.Node? {
      var xs, ys := MergeAt(x, s), MergeAt(y, s);
      forall k ensures At(MergeAt(xs, Some(p)), k) == At(MergeAt(ys, Some(p)), k) {
        MergeByKey(x, p, k);
        MergeByKey(y, p, k);
        MergeByKey(x, s.value, k);
        MergeByKey(y, s.value, k);
        MergeByKey(xs, p, k);
        MergeByKey(ys, p, k);
        if k in p.children {
          Congruence(At(x, k), At(y, k), At(s, k), p.children[k]);
        }
      }
      MergeByKey(xs, p, "");
      MergeByKey(ys, p, "");
      SameChildren(MergeAt(xs, Some(p)).value, MergeAt(ys, Some(p)).value);
    } else {
      LeafWins(x, s);
      LeafWins(y, s);
      LeafWins(MergeAt(x, s), Some(p));
      LeafWins(MergeAt(y, s), Some(p));
    }
  }

  lemma LeafWins(a: Option<Tree>, b: Option<Tree>)
    ensures b.Some? && b.value.Leaf? ==> MergeAt(a, b) == b
  {
  }

  /** The overlays laid over a base one after another. */
  function MergeAll(base: Dict, overlays: seq<Dict>): Dict {
    if |overlays| == 0 then base else DeepMerge(MergeAll(base, overlays[..|overlays| - 1]), overlays[|overlays| - 1])
  }

  lemma DeepMergeIsMergeAt(a: Dict, b: Dict)
    ensures Some(Node(DeepMerge(a, b))) == MergeAt(Some(Node(a)), Some(Node(b)))
  {
  }

  lemma {:induction false} CongruenceAll(x: Dict, y: Dict, overlays: seq<Dict>, p: Dict)
    requires DeepMerge(x, p) == DeepMerge(y, p)
    ensures DeepMerge(MergeAll(x, overlays), p) == DeepMerge(MergeAll(y, overlays), p)
  {
    hide DeepMerge, Merge;
    if |overlays| > 0 {
      var init, s := overlays[..|overlays| - 1], overlays[|overlays| - 1];
      CongruenceAll(x, y, init, p);
      var xi, yi := MergeAll(x, init), MergeAll(y, init);
      DeepMergeIsMergeAt(xi, p);
      DeepMergeIsMergeAt(yi, p);
      DeepMergeIsMergeAt(xi, s);
      DeepMergeIsMergeAt(yi, s);
      DeepMergeIsMergeAt(DeepMerge(xi, s), p);
      DeepMergeIsMergeAt(DeepMerge(yi, s), p);
      Congruence(Some(Node(xi)), Some(Node(yi)), Some(Node(s)), Node(p));
    }
  }

  /**
   * Laying the profile early as well as last gives the same as laying it last only, for any base
   * and any overlays in between.
   */
  lemma EarlyProfileIsHidden(base: Dict, profile: Dict, overlays: seq<Dict>)
    ensures DeepMerge(MergeAll(DeepMerge(base, profile), overlays), profile) ==
            DeepMerge(MergeAll(base, overlays), profile)
  {
    hide DeepMerge, Merge;
    MergeTwice(Some(Node(base)), Node(profile));
    DeepMergeIsMergeAt(base, profile);
    DeepMergeIsMergeAt(DeepMerge(base, profile), profile);
    CongruenceAll(DeepMerge(base, profile), base, overlays, profile);
  }

  /* ---- What a merged tree holds ------------------------------------------------------------- */

  ghost predicate HasLeaf(t: Option<Tree>, path: seq<string>, v: Scalar)
    decreases |path|
  {
    if |path| == 0 then t == Some(Leaf(v)) else HasLeaf(At(t, path[0]), path[1..], v)
  }

  /** p says nothing at the path: it is absent there and puts no other value on the way. */
  predicate Silent(p: Option<Tree>, path: seq<string>)
    decreases |path|
  {
    || p.None?
    || (p.value.Node? && |path| > 0 && Silent(At(p, path[0]), path[1..]))
  }

  /** A leaf of the merged tree is a leaf of the overlay, or one of the base where the overlay is silent. */
  lemma {:induction false} LeavesOfMerge(x: Option<Tree>, p: Option<Tree>, path: seq<string>, v: Scalar)
    ensures HasLeaf(MergeAt(x, p), path, v) <==> HasLeaf(p, path, v) || (Silent(p, path) && HasLeaf(x, path, v))
    decreases |path|
  {
    hide Merge;
    LeafWins(x, p);
    NothingBelow(path, v);
    if p.Some? && p.value.Node? {
      if |path| == 0 {
        MergeByKey(x, p.value, "");
      } else {
        MergeByKey(x, p.value, path[0]);
        LeavesOfMerge(At(x, path[0]), At(p, path[0]), path[1..], v);
      }
    } else if p.Some? && |path| > 0 {
      NothingBelow(path[1..], v);
    }
  }

  lemma {:induction false} NothingBelow(path: seq<string>, v: Scalar)
    ensures !HasLeaf(None, path, v)
  {
    if |path| > 0 {
      NothingBelow(path[1..], v);
    }
  }

  /** Every scalar of the profile survives, whatever was loaded before it. */
  lemma ProfileWins(base: Dict, profile: Dict, path: seq<string>, v: Scalar)
    requires HasLeaf(Some(Node(profile)), path, v)
    ensures HasLeaf(Some(Node(DeepMerge(base, profile))), path, v)
  {
    hide DeepMerge, HasLeaf, MergeAt;
    DeepMergeIsMergeAt(base, profile);
    LeavesOfMerge(Some(Node(base)), Some(Node(profile)), path, v);
  }

  /* ---- Associativity ---------------------------------------------------------------------------- */

  /** Every key of a is in c, and where both hold dictionaries the same is true of these. */
  ghost predicate Covers(a: Tree, c: Tree)
    decreases c
  {
    a.Node? && c.Node? ==>
      forall k :: k in a.children ==> k in c.children && Covers(a.children[k], c.children[k])
  }

  /** An overlay hides its base entirely exactly when it covers it. */
  lemma {:induction false} CoversIff(a: Tree, c: Tree)
    ensures Merge(a, c) == c <==> Covers(a, c)
    decreases c
  {
    MergeOfNodes(a, c);
    if a.Node? && c.Node? {
      hide Merge, DeepMerge;
      var m := DeepMerge(a.children, c.children);
      KeysOfMerge(a.children, c.children);
      forall k | k in c.children
        ensures k in m && (m[k] == c.children[k] <==> (k in a.children ==> Covers(a.children[k], c.children[k])))
      {
        KeyOfMerge(a.children, c.children, k);
        if k in a.children {
          CoversIff(a.children[k], c.children[k]);
        }
      }
      if Covers(a, c) {
        assert m.Keys == c.children.Keys;
        assert m == c.children;
      } else {
        var k :| k in a.children && !(k in c.children && Covers(a.children[k], c.children[k]));
        assert k in m;
        assert m != c.children;
      }
    }
  }

  /** Nowhere does b replace by a scalar what c then turns back into a dictionary that lacks part of a. */
  ghost predicate Associates(a: Option<Tree>, b: Tree, c: Option<Tree>)
    decreases b
  {
    if a.None? || c.None? || c.value.Leaf? || a.value.Leaf? then true
    else if b.Leaf? then Covers(a.value, c.value)
    else forall k :: k in b.children ==> Associates(At(a, k), b.children[k], At(c, k))
  }

  /** Merging is associative exactly there. */
  lemma {:induction false} AssociativeIff(a: Option<Tree>, b: Tree, c: Option<Tree>)
    ensures MergeAt(MergeAt(a, Some(b)), c) == MergeAt(a, MergeAt(Some(b), c)) <==> Associates(a, b, c)
    decreases b
  {
    hide Merge;
    if a.Some? && c.Some? && c.value.Node? && a.value.Node? && b.Node? {
      AssociativeByKey(a.value, b, c.value);
    } else {
      LeafWins(a, Some(b));
      LeafWins(Some(b), c);
      LeafWins(a, c);
      LeafWins(MergeAt(a, Some(b)), c);
      OverALeaf(a, Some(b));
      OverALeaf(Some(b), c);
      OverALeaf(a, MergeAt(Some(b), c));
      if a.Some? && c.Some? {
        CoversIff(a.value, c.value);
      }
    }
  }

  lemma {:induction false} AssociativeByKey(a: Tree, b: Tree, c: Tree)
    requires a.Node? && b.Node? && c.Node?
    ensures MergeAt(MergeAt(Some(a), Some(b)), Some(c)) == MergeAt(Some(a), MergeAt(Some(b), Some(c))) <==>
            Associates(Some(a), b, Some(c))
    decreases b, 0
  {
    hide Merge;
    var ab, bc := MergeAt(Some(a), Some(b)), MergeAt(Some(b), Some(c));
    MergeByKey(Some(a), b, "");
    MergeByKey(Some(b), c, "");
    MergeByKey(ab, c, "");
    MergeByKey(Some(a), bc.value, "");
    var left, right := MergeAt(ab, Some(c)), MergeAt(Some(a), bc);
    forall k
      ensures At(left, k) == At(right, k) <==>
              (k in b.children ==> Associates(At(Some(a), k), b.children[k], At(Some(c), k)))
    {
      MergeByKey(Some(a), b, k);
      MergeByKey(Some(b), c, k);
      MergeByKey(ab, c, k);
      MergeByKey(Some(a), bc.value, k);
      if k in b.children {
        AssociativeIff(At(Some(a), k), b.children[k], At(Some(c), k));
      }
    }
    if forall k :: At(left, k) == At(right, k) {
      SameChildren(left.value, right.value);
    }
  }

  lemma OverALeaf(a: Option<Tree>, b: Option<Tree>)
    ensures a.Some? && a.value.Leaf? && b.Some? ==> MergeAt(a, b) == b
  {
  }

  /** An input for which merging is not associative. */
  lemma NotAssociative()
    ensures var a := Node(map["ib" := Node(map["host" := Leaf(Str("a")), "port" := Leaf(Number(1.0))])]);
            var b := Node(map["ib" := Leaf(Null)]);
            var c := Node(map["ib" := Node(map["host" := Leaf(Str("c"))])]);
            MergeAt(MergeAt(Some(a), Some(b)), Some(c)) != MergeAt(Some(a), MergeAt(Some(b), Some(c)))
  {
    hide Merge;
    var ai := Node(map["host" := Leaf(Str("a")), "port" := Leaf(Number(1.0))]);
    var ci := Node(map["host" := Leaf(Str("c"))]);
    var a, b, c := Node(map["ib" := ai]), Node(map["ib" := Leaf(Null)]), Node(map["ib" := ci]);
    AssociativeIff(Some(a), b, Some(c));
    assert "port"[0] != "host"[0];
    assert "port" in ai.children && "port" !in ci.children;
    assert !Covers(ai, ci);
    assert !Associates(At(Some(a), "ib"), b.children["ib"], At(Some(c), "ib"));
  }
}
