/** The regime tag, and the actor that publishes it only when it changes. */
module Regime {
  import opened Models
  import opened Messages
  import opened StrategyFsm
  import opened StrategyTheorems

  datatype Thresholds = Thresholds(trendMovePct: real, chopRangePct: real, pinProximityPct: real)

  const WINDOW: nat := 20

  function MaxOf(xs: seq<real>): (m: real)
    requires |xs| > 0
    ensures m in xs && forall x :: x in xs ==> x <= m
  {
    if |xs| == 1 then xs[0]
    else
      assert xs == xs[..|xs| - 1] + [xs[|xs| - 1]];
      Max(MaxOf(xs[..|xs| - 1]), xs[|xs| - 1])
  }

  function MinOf(xs: seq<real>): (m: real)
    requires |xs| > 0
    ensures m in xs && forall x :: x in xs ==> m <= x
  {
    if |xs| == 1 then xs[0]
    else
      assert xs == xs[..|xs| - 1] + [xs[|xs| - 1]];
      Min(MinOf(xs[..|xs| - 1]), xs[|xs| - 1])
  }

  /** compute_regime_tag; an absent or zero opening price rules out a trend. */
  function ComputeTag(mid: real, open: real, recent: seq<real>, t: Thresholds): RegimeTag {
    if open != 0.0 && Abs(mid - open) / open >= t.trendMovePct then TREND
    else if |recent| >= 5 && mid > 0.0 && (MaxOf(recent) - MinOf(recent)) / mid <= t.chopRangePct then CHOP
    else if mid > 0.0 && Abs(mid - RoundHalfEven(mid) as real) / mid <= t.pinProximityPct then PIN_RISK
    else UNKNOWN
  }

  /* ---- What a tag means ------------------------------------------------------------------------ */

  /** The mid is away from the opening price by at least the share of it that makes a trend. */
  predicate Trends(mid: real, open: real, t: Thresholds) {
    || (open > 0.0 && Abs(mid - open) >= t.trendMovePct * open)
    || (open < 0.0 && Abs(mid - open) <= t.trendMovePct * open)
  }

  /** Any two of the prices are apart by at most this share of the mid. */
  ghost predicate WithinShare(prices: seq<real>, share: real, mid: real) {
    forall x, y :: x in prices && y in prices ==> x - y <= share * mid
  }

  /** At least five mids, within the share of the last one that makes a range. */
  ghost predicate Ranges(mid: real, recent: seq<real>, t: Thresholds) {
    |recent| >= 5 && WithinShare(recent, t.chopRangePct, mid)
  }

  predicate NearWhole(mid: real, n: int, share: real) {
    Abs(mid - n as real) <= share * mid
  }

  /** Some whole number is within this share of the mid from it. */
  ghost predicate Pins(mid: real, share: real) {
    exists n :: NearWhole(mid, n, share)
  }

  /** The tag a price calls for, by what it means: a trend comes before a range, and a range before a pin. */
  ghost predicate Means(tag: RegimeTag, mid: real, open: real, recent: seq<real>, t: Thresholds) {
    match tag
    case TREND => Trends(mid, open, t)
    case CHOP => !Trends(mid, open, t) && mid > 0.0 && Ranges(mid, recent, t)
    case PIN_RISK => !Trends(mid, open, t) && mid > 0.0 && !Ranges(mid, recent, t) && Pins(mid, t.pinProximityPct)
    case UNKNOWN =>
      !Trends(mid, open, t) &&
      (mid <= 0.0 || (!Ranges(mid, recent, t) && !Pins(mid, t.pinProximityPct)))
  }

  lemma QuotientAtLeast(x: real, d: real, limit: real)
    requires d > 0.0
    ensures x / d >= limit <==> x >= limit * d
    ensures x / d <= limit <==> x <= limit * d
  {
    var q := x / d;
    assert q * d == x;
    if q > limit {
      assert (q - limit) * d > 0.0;
    } else if q < limit {
      assert (limit - q) * d > 0.0;
    }
  }

  lemma TrendsIff(mid: real, open: real, t: Thresholds)
    ensures Trends(mid, open, t) <==> open != 0.0 && Abs(mid - open) / open >= t.trendMovePct
  {
    if open > 0.0 {
      QuotientAtLeast(Abs(mid - open), open, t.trendMovePct);
    } else if open < 0.0 {
      QuotientAtLeast(Abs(mid - open), -open, -t.trendMovePct);
      assert Abs(mid - open) / open == -(Abs(mid - open) / -open);
      assert -t.trendMovePct * -open == t.trendMovePct * open;
    }
  }

  lemma WithinIff(prices: seq<real>, share: real, mid: real)
    requires |prices| > 0
    ensures WithinShare(prices, share, mid) <==> MaxOf(prices) - MinOf(prices) <= share * mid
  {
    assert MaxOf(prices) in prices && MinOf(prices) in prices;
    var limit := share * mid;
    assert MaxOf(prices) - MinOf(prices) <= limit ==>
             forall x, y :: x in prices && y in prices ==> x - y <= limit;
  }

  lemma RangesIff(mid: real, recent: seq<real>, t: Thresholds)
    requires mid > 0.0
    ensures Ranges(mid, recent, t) <==>
            |recent| >= 5 && (MaxOf(recent) - MinOf(recent)) / mid <= t.chopRangePct
  {
    hide WithinShare, MaxOf, MinOf;
    if |recent| >= 5 {
      WithinIff(recent, t.chopRangePct, mid);
      QuotientAtLeast(MaxOf(recent) - MinOf(recent), mid, t.chopRangePct);
    }
  }

  /** No whole number is nearer than the rounded one. */
  lemma RoundedIsNearest(mid: real, n: int)
    ensures Abs(mid - RoundHalfEven(mid) as real) <= Abs(mid - n as real)
  {
    var r := RoundHalfEven(mid);
    if n > r {
      assert n as real >= r as real + 1.0;
    } else if n < r {
      assert n as real <= r as real - 1.0;
    }
  }

  lemma PinsAtNearest(mid: real, share: real)
    ensures Pins(mid, share) <==> NearWhole(mid, RoundHalfEven(mid), share)
  {
    hide RoundHalfEven, Abs;
    if Pins(mid, share) {
      var n :| NearWhole(mid, n, share);
      RoundedIsNearest(mid, n);
    }
  }

  lemma PinsIff(mid: real, t: Thresholds)
    requires mid > 0.0
    ensures Pins(mid, t.pinProximityPct) <==> Abs(mid - RoundHalfEven(mid) as real) / mid <= t.pinProximityPct
  {
    hide Pins, RoundHalfEven, Abs;
    PinsAtNearest(mid, t.pinProximityPct);
    QuotientAtLeast(Abs(mid - RoundHalfEven(mid) as real), mid, t.pinProximityPct);
  }

  /** The computed tag is the one that fits, and no other does. */
  lemma TagMeans(tag: RegimeTag, mid: real, open: real, recent: seq<real>, t: Thresholds)
    ensures tag == ComputeTag(mid, open, recent, t) <==> Means(tag, mid, open, recent, t)
  {
    hide Abs, RoundHalfEven, MaxOf, MinOf, Ranges, Pins, Trends;
    TrendsIff(mid, open, t);
    if mid > 0.0 {
      RangesIff(mid, recent, t);
      PinsIff(mid, t);
    }
  }

  /** The tag fits the first mid, the last mid and the last twenty mids. */
  ghost predicate Fits(tag: RegimeTag, mids: seq<real>, t: Thresholds) {
    |mids| > 0 && Means(tag, mids[|mids| - 1], mids[0], if |mids| > 20 then mids[|mids| - 20..] else mids, t)
  }

  /** The last `n` elements. */
  function LastN(xs: seq<real>, n: nat): (r: seq<real>)
    ensures |r| == if |xs| <= n then |xs| else n
  {
    if |xs| <= n then xs else xs[|xs| - n..]
  }

  /** The tag recomputed from scratch on a whole history of mids. */
  function TagAfter(mids: seq<real>, t: Thresholds): RegimeTag
    requires |mids| > 0
  {
    ComputeTag(mids[|mids| - 1], mids[0], LastN(mids, WINDOW), t)
  }

  lemma TagFits(mids: seq<real>, t: Thresholds)
    requires |mids| > 0
    ensures Fits(TagAfter(mids, t), mids, t)
  {
    hide Means, ComputeTag;
    TagMeans(TagAfter(mids, t), mids[|mids| - 1], mids[0], LastN(mids, WINDOW), t);
  }

  /** The tags of all prefixes, with immediate repetitions left out. */
  function Changes(mids: seq<real>, t: Thresholds): seq<RegimeTag> {
    if |mids| == 0 then []
    else
      var before := Changes(mids[..|mids| - 1], t);
      if |before| > 0 && before[|before| - 1] == TagAfter(mids, t) then before else before + [TagAfter(mids, t)]
  }

  /** Appending to a bounded deque keeps the last WINDOW elements of the history. */
  lemma WindowSlides(history: seq<real>, mid: real)
    ensures LastN(LastN(history, WINDOW) + [mid], WINDOW) == LastN(history + [mid], WINDOW)
  {
  }

  /** RegimeActor: a bounded deque of mids, the opening mid and the last tag it published. */
  class RegimeActor {
    const thresholds: Thresholds
    var prices: seq<real>
    var openPrice: Option<real>
    var lastTag: Option<RegimeTag>
    var published: seq<RegimeTag>
    ghost var history: seq<real>

    ghost predicate Valid()
      reads this
    {
      && prices == LastN(history, WINDOW)
      && openPrice == (if |history| == 0 then None else Some(history[0]))
      && published == Changes(history, thresholds)
      && lastTag == (if |published| == 0 then None else Some(published[|published| - 1]))
      && (|history| > 0 ==> |published| > 0)
    }

    constructor (thresholds: Thresholds)
      ensures Valid() && history == [] && this.thresholds == thresholds
    {
      this.thresholds := thresholds;
      prices, openPrice, lastTag, published, history := [], None, None, [], [];
    }

    /** The tag of the current window; UNKNOWN before the first tick. */
    method CurrentTag() returns (tag: RegimeTag)
      requires Valid()
      ensures tag == if |history| == 0 then UNKNOWN else TagAfter(history, thresholds)
      ensures |history| > 0 ==> Fits(tag, history, thresholds)
    {
      hide Fits;
      if |prices| == 0 {
        return UNKNOWN;
      }
      tag := ComputeTag(prices[|prices| - 1], openPrice.value, prices, thresholds);
      TagFits(history, thresholds);
    }

    method OnQuoteTick(bid: real, ask: real)
      requires Valid()
      modifies this
      ensures Valid()
      ensures history == old(history) + [(bid + ask) / 2.0]
      ensures published == Changes(history, thresholds)
      ensures |published| > 0 && Fits(published[|published| - 1], history, thresholds)
    {
      hide Fits, ComputeTag;
      var mid := (bid + ask) / 2.0;
      WindowSlides(history, mid);
      assert (history + [mid])[..|history|] == history;
      history := history + [mid];
      if openPrice.None? {
        openPrice := Some(mid);
      }
      prices := LastN(prices + [mid], WINDOW);
      TagFits(history, thresholds);
      var tag := ComputeTag(mid, openPrice.value, prices, thresholds);
      if Some(tag) == lastTag {
        return;
      }
      lastTag := Some(tag);
      published := published + [tag];
    }
  }

  /** Nothing is lost by publishing changes only: the last publication is the recomputed tag. */
  lemma LastPublicationIsCurrent(mids: seq<real>, t: Thresholds)
    requires |mids| > 0
    ensures |Changes(mids, t)| > 0 && Changes(mids, t)[|Changes(mids, t)| - 1] == TagAfter(mids, t)
  {
  }

  /** No tag is published twice in a row. */
  lemma {:induction false} NeverTwice(mids: seq<real>, t: Thresholds)
    ensures |Changes(mids, t)| <= |mids|
    ensures forall k :: 0 < k < |Changes(mids, t)| ==> Changes(mids, t)[k] != Changes(mids, t)[k - 1]
  {
    hide TagAfter;
    if |mids| > 0 {
      NeverTwice(mids[..|mids| - 1], t);
    }
  }

  /** The tag was the current one at some time. */
  ghost predicate WasCurrent(tag: RegimeTag, mids: seq<real>, t: Thresholds) {
    exists n :: 0 < n <= |mids| && tag == TagAfter(mids[..n], t)
  }

  lemma StillWasCurrent(tag: RegimeTag, mids: seq<real>, t: Thresholds)
    requires |mids| > 0 && WasCurrent(tag, mids[..|mids| - 1], t)
    ensures WasCurrent(tag, mids, t)
  {
    hide TagAfter;
    var init := mids[..|mids| - 1];
    var n :| 0 < n <= |init| && tag == TagAfter(init[..n], t);
    assert init[..n] == mids[..n];
  }

  lemma IsCurrent(mids: seq<real>, t: Thresholds)
    requires |mids| > 0
    ensures WasCurrent(TagAfter(mids, t), mids, t)
  {
    hide TagAfter;
    assert mids[..|mids|] == mids;
  }

  lemma {:induction false} EachWasCurrent(mids: seq<real>, t: Thresholds, k: nat)
    requires k < |Changes(mids, t)|
    ensures WasCurrent(Changes(mids, t)[k], mids, t)
  {
    hide TagAfter, WasCurrent;
    var init := mids[..|mids| - 1];
    if k < |Changes(init, t)| {
      EachWasCurrent(init, t, k);
      StillWasCurrent(Changes(init, t)[k], mids, t);
    } else {
      IsCurrent(mids, t);
    }
  }

  /** No tag is published twice in a row, and every publication was the tag of some prefix. */
  lemma PublicationsAreChanges(mids: seq<real>, t: Thresholds)
    ensures var p := Changes(mids, t);
            && |p| <= |mids|
            && (forall k :: 0 < k < |p| ==> p[k] != p[k - 1])
            && (forall k :: 0 <= k < |p| ==> WasCurrent(p[k], mids, t))
  {
    hide Changes, WasCurrent;
    NeverTwice(mids, t);
    forall k | 0 <= k < |Changes(mids, t)| ensures WasCurrent(Changes(mids, t)[k], mids, t) {
      EachWasCurrent(mids, t, k);
    }
  }

  /** The regime texts among the messages a strategy received, in order. */
  function RegimeTexts(events: seq<Event>): seq<string> {
    if |events| == 0 then []
    else
      RegimeTexts(events[..|events| - 1]) +
      match events[|events| - 1]
      case RegimeMessage(text) => [text]
      case _ => []
  }

  function TextsOf(tags: seq<RegimeTag>): seq<string> {
    seq(|tags|, i requires 0 <= i < |tags| => TagText(tags[i]))
  }

  /** If every text received is the text of a tag, the remembered tag is the last one's. */
  lemma {:induction false} LastRegimeOfTexts(events: seq<Event>, tags: seq<RegimeTag>)
    requires RegimeTexts(events) == TextsOf(tags)
    ensures LastRegime(events) == if |tags| == 0 then None else Some(tags[|tags| - 1])
  {
    if |events| > 0 {
      var before := events[..|events| - 1];
      match events[|events| - 1]
      case RegimeMessage(text) =>
        assert |TextsOf(tags)| == |RegimeTexts(before)| + 1;
        var n := |tags| - 1;
        assert TextsOf(tags)[n] == text;
        TagRoundTrip(tags[n]);
      case _ =>
        assert RegimeTexts(before) == TextsOf(tags);
        LastRegimeOfTexts(before, tags);
    } else {
      assert |TextsOf(tags)| == 0;
    }
  }

  /**
   * A strategy that received the actor's publications, among any other events, holds the tag
   * recomputed from the first mid, the last mid and the last twenty mids.
   */
  lemma SubscriberIsUpToDate(cfg: Config, events: seq<Event>, mids: seq<real>, t: Thresholds)
    requires |mids| > 0 && RegimeTexts(events) == TextsOf(Changes(mids, t))
    ensures var s := Run(Initial(cfg), events);
            s.regimeReceived && s.regimeTag == TagAfter(mids, t) && Fits(s.regimeTag, mids, t)
  {
    hide Run, ComputeTag, Changes, Fits;
    TagFits(mids, t);
    LastPublicationIsCurrent(mids, t);
    LastRegimeOfTexts(events, Changes(mids, t));
    RunRemembers(cfg, events);
  }
}
