/**
 * The trading signal of one output row, decided from its xG difference,
 * momentum score and share of games played. BUY is tried first, then SELL;
 * everything else is HOLD. All comparisons are strict.
 */
module Signals {

  datatype Signal = Buy | Sell | Hold

  /** Underperforming: scoring fewer goals than the chances were worth. */
  const UnderperformanceLimit: real := -0.5
  /** A rising, steady trend of the reliability-weighted slope. */
  const RisingMomentumLimit: real := 0.005
  /** A regular starter plays in more than half of the window. */
  const RegularStarterShare: real := 0.5
  /** Overperforming: more goals than the chances were worth. */
  const OverperformanceLimit: real := 0.8
  /** A falling, steady trend. */
  const FallingMomentumLimit: real := -0.005
  /** Rotation risk: playing in fewer than 30% of the window. */
  const RotationRiskShare: real := 0.3
  /** Overperformance extreme enough to sell a rotation risk. */
  const ExtremeOverperformanceLimit: real := 1.0

  /** Underperforming, improving and steady, and a regular starter. */
  predicate BuyRule(xgDiff: real, momentum: real, gamesPlayedPct: real)
  {
    xgDiff < UnderperformanceLimit && momentum > RisingMomentumLimit && gamesPlayedPct > RegularStarterShare
  }

  /** Overperforming while the underlying trend declines. */
  predicate DecliningOverperformer(xgDiff: real, momentum: real)
  {
    xgDiff > OverperformanceLimit && momentum < FallingMomentumLimit
  }

  /** Rarely playing yet far ahead of expectation. */
  predicate RotationRisk(xgDiff: real, gamesPlayedPct: real)
  {
    gamesPlayedPct < RotationRiskShare && xgDiff > ExtremeOverperformanceLimit
  }

  predicate SellRule(xgDiff: real, momentum: real, gamesPlayedPct: real)
  {
    DecliningOverperformer(xgDiff, momentum) || RotationRisk(xgDiff, gamesPlayedPct)
  }

  /**
   * The buy and sell rules never both hold (their xG difference ranges are
   * apart), so the order in which they are tried does not matter.
   */
  lemma RulesExclusive(xgDiff: real, momentum: real, gamesPlayedPct: real)
    ensures !(BuyRule(xgDiff, momentum, gamesPlayedPct) && SellRule(xgDiff, momentum, gamesPlayedPct))
  {
  }

  /** BUY when the buy rule holds, else SELL when the sell rule holds, else HOLD. */
  function Classify(xgDiff: real, momentum: real, gamesPlayedPct: real): (s: Signal)
    ensures s == Buy <==> BuyRule(xgDiff, momentum, gamesPlayedPct)
    ensures s == Sell <==> SellRule(xgDiff, momentum, gamesPlayedPct)
    ensures s == Hold <==> !BuyRule(xgDiff, momentum, gamesPlayedPct) && !SellRule(xgDiff, momentum, gamesPlayedPct)
    ensures s == Buy ==> xgDiff < UnderperformanceLimit
    ensures s == Sell ==> xgDiff > OverperformanceLimit
  {
    RulesExclusive(xgDiff, momentum, gamesPlayedPct);
    if BuyRule(xgDiff, momentum, gamesPlayedPct) then Buy
    else if SellRule(xgDiff, momentum, gamesPlayedPct) then Sell
    else Hold
  }

  /**
   * A BUY stays a BUY when the player underperforms more, trends up more
   * steeply or plays more often.
   */
  lemma BuyMonotone(x: real, m: real, g: real, x': real, m': real, g': real)
    requires Classify(x, m, g) == Buy
    requires x' <= x && m' >= m && g' >= g
    ensures Classify(x', m', g') == Buy
  {
  }

  /**
   * A SELL stays a SELL when the player overperforms more, trends down more
   * steeply or plays less often.
   */
  lemma SellMonotone(x: real, m: real, g: real, x': real, m': real, g': real)
    requires Classify(x, m, g) == Sell
    requires x' >= x && m' <= m && g' <= g
    ensures Classify(x', m', g') == Sell
  {
  }

  /** Without any trend only the rotation-risk rule can fire. */
  lemma FlatMomentumSignal(xgDiff: real, gamesPlayedPct: real)
    ensures Classify(xgDiff, 0.0, gamesPlayedPct) != Buy
    ensures Classify(xgDiff, 0.0, gamesPlayedPct) == Sell <==> RotationRisk(xgDiff, gamesPlayedPct)
  {
  }

  /** Every threshold is strict: a value exactly on a limit does not trigger its rule. */
  lemma LimitsAreExclusive()
    ensures Classify(-0.5, 0.01, 1.0) == Hold
    ensures Classify(-0.6, 0.005, 1.0) == Hold
    ensures Classify(-0.6, 0.01, 0.5) == Hold
    ensures Classify(-0.6, 0.01, 0.6) == Buy
    ensures Classify(0.8, -0.01, 1.0) == Hold
    ensures Classify(0.9, -0.005, 1.0) == Hold
    ensures Classify(0.9, -0.01, 1.0) == Sell
    ensures Classify(1.0, 0.0, 0.2) == Hold
    ensures Classify(1.1, 0.0, 0.3) == Hold
    ensures Classify(1.1, 0.0, 0.2) == Sell
  {
  }
}
