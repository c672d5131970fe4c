/** Message-bus payloads, and the conversions between intents and their snapshots. */
module Messages {
  import opened Models

  datatype TradeIntentSnapshot = TradeIntentSnapshot(
    intentId: IntentId,
    strategyId: string,
    instrumentId: string,
    edge: real,
    liquidity: real,
    regimeTag: string,
    projectedGreeks: map<string, real>,
    rationale: Rationale)

  datatype ApprovedSnapshot = ApprovedSnapshot(snapshot: TradeIntentSnapshot, actorKind: ActorKind)

  datatype RejectedSnapshot = RejectedSnapshot(intentId: IntentId, strategyId: string)

  /** RegimeTag.value. */
  function TagText(tag: RegimeTag): string {
    match tag
    case CHOP => "CHOP"
    case TREND => "TREND"
    case PIN_RISK => "PIN_RISK"
    case UNKNOWN => "UNKNOWN"
  }

  lemma TagNames()
    ensures TagText(CHOP) == "CHOP" && TagText(TREND) == "TREND" && TagText(PIN_RISK) == "PIN_RISK"
    ensures TagText(UNKNOWN) == "UNKNOWN"
  {
  }

  /** RegimeTag(text), which raises ValueError on any other text. */
  function ParseTag(text: string): Option<RegimeTag> {
    if text == "CHOP" then Some(CHOP)
    else if text == "TREND" then Some(TREND)
    else if text == "PIN_RISK" then Some(PIN_RISK)
    else if text == "UNKNOWN" then Some(UNKNOWN)
    else None
  }

  function ToSnapshot(intent: TradeIntent): TradeIntentSnapshot {
    TradeIntentSnapshot(intent.intentId, intent.strategyId, intent.instrumentId, intent.edge, intent.liquidity,
                        TagText(intent.regimeTag), intent.projectedGreeks, intent.rationale)
  }

  /** snapshot_to_trade_intent and approved_snapshot_to_trade_intent; None where they raise. */
  function FromSnapshot(m: TradeIntentSnapshot): Option<TradeIntent> {
    match ParseTag(m.regimeTag)
    case Some(tag) =>
      Some(TradeIntent(m.intentId, m.strategyId, m.instrumentId, m.edge, m.liquidity, tag, m.projectedGreeks,
                       m.rationale))
    case None => None
  }

  lemma TagRoundTrip(tag: RegimeTag)
    ensures ParseTag(TagText(tag)) == Some(tag)
  {
    assert "CHOP"[0] == 'C' && "TREND"[0] == 'T' && "PIN_RISK"[0] == 'P' && "UNKNOWN"[0] == 'U';
  }

  /** The two conversions undo each other: no field is lost, added or changed on the bus. */
  lemma SnapshotRoundTrip(intent: TradeIntent, m: TradeIntentSnapshot)
    ensures FromSnapshot(ToSnapshot(intent)) == Some(intent)
    ensures FromSnapshot(m) == Some(intent) <==> m == ToSnapshot(intent)
  {
    TagRoundTrip(intent.regimeTag);
    match ParseTag(m.regimeTag)
    case Some(tag) => TagRoundTrip(tag);
    case None =>
  }
}
