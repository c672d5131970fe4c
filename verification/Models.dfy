/** Values passed between the components: tags, intents and the rationale they carry. */
module Models {

  datatype Option<+T> = None | Some(value: T)

  datatype Result<+T, +E> = Ok(value: T) | Err(error: E)

  /** Stands for the text of a UUID: all that is used of it is equality and its order. */
  type IntentId = nat

  datatype RegimeTag = CHOP | TREND | PIN_RISK | UNKNOWN

  datatype StrategyState = Flat | Evaluating | PendingApproval | PendingEntry | InPosition | Exiting

  datatype GateStage =
    | EDGE | LIQUIDITY | REGIME | SESSION | GREEK | OPERATIONAL | RISK_ENGINE
    | LIFECYCLE | FILL | PNL | LEARNING

  datatype ActorKind = HUMAN | AUTOMATION

  datatype Side = BUY | SELL

  /** The entries of a rationale dictionary that some branch of the program reads. */
  datatype Rationale = Rationale(
    source: string,
    netDebit: Option<real>,
    notional: Option<real>,
    underlyingMid: Option<real>,
    legIds: seq<string>)

  datatype TradeIntent = TradeIntent(
    intentId: IntentId,
    strategyId: string,
    instrumentId: string,
    edge: real,
    liquidity: real,
    regimeTag: RegimeTag,
    projectedGreeks: map<string, real>,
    rationale: Rationale)

  /** Python's max(0, x), the effective size of an integer cap. */
  function NonNegative(x: int): (r: nat)
    ensures r >= x && (r == x || r == 0)
  {
    if x < 0 then 0 else x
  }

  /** Python's int(x): truncation toward zero. */
  function Truncate(x: real): (r: int)
    ensures x >= 0.0 ==> r as real <= x < r as real + 1.0
    ensures x <= 0.0 ==> r as real - 1.0 < x <= r as real
  {
    if x >= 0.0 then x.Floor else -((-x).Floor)
  }

  function Max(x: real, y: real): (r: real)
    ensures r >= x && r >= y && (r == x || r == y)
  {
    if x >= y then x else y
  }

  function Min(x: real, y: real): (r: real)
    ensures r <= x && r <= y && (r == x || r == y)
  {
    if x <= y then x else y
  }

  function Abs(x: real): (r: real)
    ensures r >= 0.0 && (r == x || r == -x)
  {
    if x >= 0.0 then x else -x
  }

  /** Python's round(x): to the nearest integer, a tie going to the even one. */
  function RoundHalfEven(x: real): (r: int)
    ensures x - 0.5 <= r as real <= x + 0.5
    ensures (x - 0.5 == r as real || x + 0.5 == r as real) ==> r % 2 == 0
  {
    var f := x.Floor;
    var d := x - f as real;
    if d < 0.5 then f
    else if d > 0.5 then f + 1
    else if f % 2 == 0 then f else f + 1
  }

  /** Decimal text of an integer. */
  function Decimal(n: int): string
    decreases n < 0, if n < 0 then -n else n
  {
    if n < 0 then "-" + Decimal(-n)
    else if n < 10 then ["0123456789"[n]]
    else Decimal(n / 10) + ["0123456789"[n % 10]]
  }

  /** The number a text of digits spells. */
  function Spelled(digits: string): int {
    if |digits| == 0 then 0
    else Spelled(digits[..|digits| - 1]) * 10 + (digits[|digits| - 1] as int - '0' as int)
  }

  lemma DigitSpells(d: nat)
    requires d < 10
    ensures var c := "0123456789"[d];
            '0' <= c <= '9' && c as int - '0' as int == d && (c == '0' <==> d == 0) && Spelled([c]) == d
  {
    var c := "0123456789"[d];
    assert [c][..0] == [];
    assert Spelled([]) == 0;
  }

  lemma SpelledOneMore(t: string, c: char)
    ensures Spelled(t + [c]) == Spelled(t) * 10 + (c as int - '0' as int)
  {
    assert (t + [c])[..|t|] == t;
  }

  /** One more digit behind the text of a positive number. */
  lemma DecimalOneMore(n: nat)
    requires n >= 10
    ensures Decimal(n) == Decimal(n / 10) + ["0123456789"[n % 10]]
  {
  }

  /** A decimal text spells its number, in digits without leading zeros. */
  lemma {:induction false} DecimalSpells(n: nat)
    ensures Spelled(Decimal(n)) == n && |Decimal(n)| > 0 && (Decimal(n)[0] == '0' <==> n == 0)
    ensures forall c :: c in Decimal(n) ==> '0' <= c <= '9'
  {
    DigitSpells(n % 10);
    if n >= 10 {
      DecimalSpells(n / 10);
      DecimalOneMore(n);
      hide Decimal;
      SpelledOneMore(Decimal(n / 10), "0123456789"[n % 10]);
    } else {
      assert Decimal(n) == ["0123456789"[n]];
    }
  }

  lemma NegativeDecimal(n: int)
    requires n > 0
    ensures Decimal(-n) == "-" + Decimal(n)
  {
  }
}
