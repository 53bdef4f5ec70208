/** The records of types.ts that the modelled logic reads or produces. */
module Types {

  /** The closed set of recommendations the analysis backend may return (types.ts:39). */
  datatype Action = StrongBuy | Buy | Wait | Sell | StrongSell

  /** Setup quality (types.ts:41). */
  datatype Quality = Safe | Unsafe

  /**
   * A trade signal as parsed from the backend's JSON (types.ts:36-46).
   * The score is documented as 0..100, but nothing enforces it, so any integer is allowed.
   */
  datatype TradeSignal = TradeSignal(
    pair: string,
    score: int,
    action: Action,
    reasoning: seq<string>,
    quality: Quality,
    tp: real,
    sl: real,
    smtDivergence: bool,
    adrExhausted: bool)

  /** Long/short retail positioning for one pair, in percent (types.ts:8-12). */
  datatype MarketSentiment = MarketSentiment(pair: string, long: int, short: int)

  /** Average-daily-range usage (types.ts:30-34). */
  datatype AdrInfo = AdrInfo(currentPips: int, averagePips: int, percentageUsed: int)

  /**
   * The market snapshot, reduced to the fields the modelled logic touches
   * (types.ts:48-59); currencies, news, dxy and liquidity zones are display data.
   */
  datatype MarketState = MarketState(sentiment: seq<MarketSentiment>, volatility: int, adr: AdrInfo)

  /** The display text of each action, as it appears in the backend schema. */
  function ActionName(a: Action): (name: string)
    ensures |name| >= 3
  {
    match a
    case StrongBuy => "STRONG BUY"
    case Buy => "BUY"
    case Wait => "WAIT"
    case Sell => "SELL"
    case StrongSell => "STRONG SELL"
  }
}
