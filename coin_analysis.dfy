/**
 * The market analysis shown for a searched coin: a verdict drawn from its
 * 24-hour and 7-day price changes (in percent), and the key price levels
 * derived from its current price.
 */
module CoinAnalysis {
  import opened Numbers

  /** The analysis sentence of each verdict. */
  datatype Outlook =
    | StrongBullish        // strong bullish momentum across multiple timeframes
    | SignificantDownturn  // significant downward pressure, high risk
    | Consolidating        // consolidating, waiting for breakout direction
    | ModerateVolatility   // moderate volatility, monitor key levels

  datatype Recommendation = ConsiderBuying | AvoidSetStopLoss | HoldWait | Hold

  datatype Confidence = High | Medium

  /** The three values the analysis panel displays. */
  datatype Analysis = Analysis(outlook: Outlook, recommendation: Recommendation, confidence: Confidence)

  /** Both timeframes rise strongly: more than 10% over 24h and more than 15% over 7 days. */
  predicate StrongRise(change24h: real, change7d: real) {
    change24h > 10.0 && change7d > 15.0
  }

  /** Both timeframes fall sharply: more than 8% over 24h and more than 12% over 7 days. */
  predicate SharpFall(change24h: real, change7d: real) {
    change24h < -8.0 && change7d < -12.0
  }

  /** The 24-hour change stays within 3% either way. */
  predicate Flat(change24h: real) {
    Abs(change24h) < 3.0
  }

  /**
   * The first-match ladder of the analysis: a strong rise, then a sharp
   * fall, then a flat day, else moderate volatility. Each verdict comes with
   * its own recommendation and confidence.
   */
  function Analyze(change24h: real, change7d: real): (a: Analysis)
    ensures a.outlook == StrongBullish <==> StrongRise(change24h, change7d)
    ensures a.outlook == SignificantDownturn <==> SharpFall(change24h, change7d)
    ensures a.outlook == Consolidating <==>
              !StrongRise(change24h, change7d) && !SharpFall(change24h, change7d) && Flat(change24h)
    ensures a.outlook == ModerateVolatility <==>
              !StrongRise(change24h, change7d) && !SharpFall(change24h, change7d) && !Flat(change24h)
    ensures a.recommendation == ConsiderBuying <==> a.outlook == StrongBullish
    ensures a.recommendation == AvoidSetStopLoss <==> a.outlook == SignificantDownturn
    ensures a.recommendation == HoldWait <==> a.outlook == Consolidating
    ensures a.recommendation == Hold <==> a.outlook == ModerateVolatility
    ensures a.confidence == High <==> StrongRise(change24h, change7d) || SharpFall(change24h, change7d)
  {
    if StrongRise(change24h, change7d) then
      Analysis(StrongBullish, ConsiderBuying, High)
    else if SharpFall(change24h, change7d) then
      Analysis(SignificantDownturn, AvoidSetStopLoss, High)
    else if Flat(change24h) then
      Analysis(Consolidating, HoldWait, Medium)
    else
      Analysis(ModerateVolatility, Hold, Medium)
  }

  /** The first two rungs of the ladder never compete: a day cannot both rise strongly and fall sharply. */
  lemma StrongCasesExclusive(change24h: real, change7d: real)
    ensures !(StrongRise(change24h, change7d) && SharpFall(change24h, change7d))
  {
  }

  /**
   * A flat 24-hour change always yields "hold / wait", whatever the 7-day
   * change: a flat day can reach neither strong rung.
   */
  lemma FlatDayMeansWait(change24h: real, change7d: real)
    requires Flat(change24h)
    ensures Analyze(change24h, change7d) == Analysis(Consolidating, HoldWait, Medium)
  {
  }

  /** The entry zone, take-profit and stop-loss levels shown beside the analysis. */
  datatype KeyLevels = KeyLevels(entryLow: real, entryHigh: real, takeProfit: real, stopLoss: real)

  /**
   * Key levels at the current price: the entry zone spans 2% either side,
   * the take profit is 8% above and the stop loss 6% below, as the panel's
   * "(+8%)" and "(-6%)" captions say.
   */
  function LevelsAt(price: real): (l: KeyLevels)
    ensures l.entryLow + l.entryHigh == 2.0 * price
    ensures l.entryHigh - l.entryLow == price * 4.0 / 100.0
    ensures l.takeProfit - price == price * 8.0 / 100.0
    ensures price - l.stopLoss == price * 6.0 / 100.0
    ensures price > 0.0 ==> l.stopLoss < l.entryLow < price < l.entryHigh < l.takeProfit
    ensures price == 0.0 ==> l == KeyLevels(0.0, 0.0, 0.0, 0.0)
  {
    KeyLevels(price * 0.98, price * 1.02, price * 1.08, price * 0.94)
  }
}
