/** The overbought / oversold classification shown next to each RSI. */
module Badges {
  import opened Wrappers
  import Rsi

  datatype Badge = NoData | Overbought | Oversold | Neutral

  /** Strictly above this the market reads as overbought. */
  const OverboughtAbove: real := 70.0
  /** Strictly below this the market reads as oversold. */
  const OversoldBelow: real := 30.0

  /** Classifies an RSI; a missing RSI shows as "no data". The two
      thresholds are exclusive, so 30 and 70 themselves are neutral. */
  function RsiBadge(rsi: Option<real>): (b: Badge)
    ensures b == NoData <==> rsi.None?
    ensures b == Overbought <==> rsi.Some? && rsi.value > OverboughtAbove
    ensures b == Oversold <==> rsi.Some? && rsi.value < OversoldBelow
    ensures b == Neutral <==> rsi.Some? && OversoldBelow <= rsi.value <= OverboughtAbove
  {
    match rsi
    case None => NoData
    case Some(v) =>
      if v > OverboughtAbove then Overbought
      else if v < OversoldBelow then Oversold
      else Neutral
  }

  /** The badge of a computed RSI: "no data" exactly when the series is not
      longer than the window, and overbought for a series that never drops. */
  lemma BadgeOfSeries(prices: seq<real>, period: nat)
    requires period >= 1
    ensures RsiBadge(Rsi.CalculateRsi(prices, period)) == NoData <==> |prices| <= period
    ensures |prices| > period && Rsi.NonDecreasing(prices)
            ==> RsiBadge(Rsi.CalculateRsi(prices, period)) == Overbought
    ensures |prices| > period && Rsi.StrictlyDecreasing(prices)
            ==> RsiBadge(Rsi.CalculateRsi(prices, period)) == Oversold
  {
    if |prices| > period && Rsi.NonDecreasing(prices) {
      Rsi.NoDropSaturates(prices, period);
    }
    if |prices| > period && Rsi.StrictlyDecreasing(prices) {
      Rsi.FallingBottomsOut(prices, period);
    }
  }
}
