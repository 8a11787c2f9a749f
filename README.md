# Momentum analysis of Fantasy Premier League players

This project models the momentum analysis engine of fpl-momentum-tracker
(`src/scripts/analyze_momentum.py`), in Dafny, and proves properties of it.

For every player and each window size w of 4, 6 and 10 gameweeks, the
engine does four things:

- It computes the per-game expected goal involvement per 90 minutes
  (xGI/90). A game without minutes gives 0.
- It sums the counting statistics over the player's last w games that had
  minutes. These are xG, goals, xGC, clean sheets, goals conceded, tackles,
  recoveries, CBI, saves and minutes.
- It takes the raw xGI/90 values of the last w gameweeks and counts how many
  of those gameweeks were played.
- It derives rates and shares from those sums, scores the trend of the
  xGI/90 window, and classifies the row as BUY, SELL or HOLD.

The tables of the three window sizes are concatenated in window order.

The trend score is a reliability-weighted slope. It is the ordinary
least-squares slope of value against position, multiplied by r².
Missing entries are dropped, but every surviving entry keeps its original
position as its x-coordinate. The score is 0 in three cases:

- fewer than three entries;
- fewer than three present values;
- a degenerate fit.

All arithmetic is on Dafny `real` (exact rationals). The fit is written
with centred sums:

- Sxx, Sxy and Syy are the sums of products of deviations from the means;
- slope = Sxy / Sxx;
- r² = Sxy² / (Sxx · Syy).

So no square root is needed, and "degenerate" means Sxx = 0 or Syy = 0.

Modules, in dependency order:

- `optional.dfy`, module `Optional`: the `Option` type. A missing or NaN
  entry is `None`.
- `real_sums.dfy`, module `RealSums`: sums, means, deviations, sums of
  products and residual sums of squares. It also holds the algebra behind
  the least-squares fit: the residual expansion, Cauchy–Schwarz, and the
  behaviour of affine data.
- `momentum_score.dfy`, module `MomentumScore`: the trend scorer
  `calculate_momentum_score`.
- `gameweek.dfy`, module `Gameweek`: gameweek records, per-game xGI/90 and
  the window aggregation.
- `derived_metrics.dfy`, module `DerivedMetrics`: the derived columns (xG
  difference, the per-90 rates, the shares, DEFCON).
- `signal.dfy`, module `Signals`: the BUY/SELL/HOLD classifier.
- `momentum_analysis.dfy`, module `MomentumAnalysis`: one output row per
  player and window, the window loop and the concatenation.

The input is one `PlayerHistory` per player: the player's columns plus
their gameweek records in round order. This is the table after the join of
history with players and the sort by player and round. The output rows of
one window follow the order of the players in the input.

Because the source builds its groups from an inner join and a group_by on
the player id, every player it sees has at least one gameweek record, and no
two players share an id. With such an input of n players the output has the
3n rows that AnalysisRows describes. The model's results hold for every
input, including histories without records and repeated ids, which the
source never produces.

## Model

| member | source | states |
|---|---|---|
| MomentumScore.PresentCount | src/scripts/analyze_momentum.py:23-25 | the number of present entries never exceeds the length of the series |
| MomentumScore.ValidPoints | src/scripts/analyze_momentum.py:23-25 | it yields one point per present entry, in increasing position order; each point's x is the entry's original position and its value is the entry's value |
| MomentumScore.ValidPointsComplete | src/scripts/analyze_momentum.py:23-25 | no present entry is dropped: each one appears among the points, with its own position |
| MomentumScore.ThreePresentEntries | src/scripts/analyze_momentum.py:27-28 | three present entries anywhere in the series are enough to pass the three-points guard |
| MomentumScore.Slope | src/scripts/analyze_momentum.py:35 | the least-squares slope b satisfies the normal equation b · Sxx = Sxy |
| MomentumScore.RSquared | src/scripts/analyze_momentum.py:42 | r² lies in [0, 1], and it is positive whenever the covariance Sxy is nonzero |
| MomentumScore.RSquaredTimesSpread | src/scripts/analyze_momentum.py:42 | r² · Syy = slope · Sxy: r² times the spread of the values is the part of that spread the line explains |
| MomentumScore.RSquaredBounds | src/scripts/analyze_momentum.py:35 | Sxx ≥ 0 and Syy ≥ 0; Sxy² ≤ Sxx · Syy (Cauchy–Schwarz), which is what keeps r² at or below 1 |
| MomentumScore.Fit | src/scripts/analyze_momentum.py:35-39 | the fit exists exactly when Sxx ≠ 0 and Syy ≠ 0, and then it carries the least-squares slope and r² |
| MomentumScore.Score | src/scripts/analyze_momentum.py:12-47 | the score is 0 when the series has fewer than three entries, or fewer than three present values |
| MomentumScore.WeightedSlope | src/scripts/analyze_momentum.py:45 | slope × r²: equal to the slope when r² = 1, and 0 when r² or the slope is 0 |
| MomentumScore.ScoreIsWeightedSlope | src/scripts/analyze_momentum.py:35-45 | with at least three present values, Sxx > 0. With no spread in the values, the score, Sxy and the slope are all 0. Otherwise the score is slope × r² |
| MomentumScore.ScoreBoundedBySlope | src/scripts/analyze_momentum.py:41-45 | the score has the sign of the slope, is zero only when the slope is, and is no larger in magnitude |
| MomentumScore.WeightedSlopeArithmetic | src/scripts/analyze_momentum.py:42-45 | a slope of positive Sxx, weighted by an r² in [0, 1] that is positive whenever Sxy is, keeps its sign and shrinks towards zero |
| MomentumScore.SxxPositive | src/scripts/analyze_momentum.py:31 | two or more distinct positions give Sxx > 0, so the fit is never degenerate in x |
| MomentumScore.NoSpreadNoCovariance | src/scripts/analyze_momentum.py:37-39 | Syy = 0 forces Sxy = 0 |
| MomentumScore.DegenerateIffConstant | src/scripts/analyze_momentum.py:37-39 | for ordered points, the fit is degenerate exactly when every value is the same |
| MomentumScore.ConstantSeriesScoresZero | src/scripts/analyze_momentum.py:37-39 | any series whose present values are all equal scores exactly 0 |
| MomentumScore.SlopeMinimisesResiduals | src/scripts/analyze_momentum.py:35 | the least-squares slope leaves no larger residual sum of squares than any other slope |
| MomentumScore.ResidualIsQuadratic | src/scripts/analyze_momentum.py:35 | the residual sum of squares of slope b equals Syy − 2b·Sxy + b²·Sxx |
| MomentumScore.QuadraticMinimum | src/scripts/analyze_momentum.py:35 | with Sxx ≥ 0, that quadratic is smallest at the b that solves b·Sxx = Sxy |
| MomentumScore.RSquaredIsExplainedVariance | src/scripts/analyze_momentum.py:42 | the residual sum of squares at the least-squares slope is (1 − r²) · Syy |
| MomentumScore.CollinearFit | src/scripts/analyze_momentum.py:35-45 | points exactly on a line of slope b give a degenerate fit when b = 0, and otherwise a fit of slope b with r² = 1 |
| MomentumScore.CollinearSeriesScoresSlope | src/scripts/analyze_momentum.py:23-45 | when at least three present values lie on a + b · position, with any entries missing between them, the score is exactly b |
| MomentumScore.CollinearValuesScoreSlope | src/scripts/analyze_momentum.py:20-45 | a gap-free series of at least three values on a + b · position scores exactly b |
| MomentumScore.AllPresentCount | src/scripts/analyze_momentum.py:23-25 | a series with no missing entry has all of its entries present |
| MomentumScore.RisingSeriesScoresOne | tests/test_analyze_momentum.py:20-28 | [1, 2, 3, 4, 5] scores exactly 1.0 |
| MomentumScore.FallingSeriesScoresMinusOne | tests/test_analyze_momentum.py:30-35 | [5, 4, 3, 2, 1] scores exactly −1.0 |
| MomentumScore.NoTrendScoresZero | tests/test_analyze_momentum.py:37-71 | each of these scores exactly 0.0: a flat series, a two-element series, the empty series, and an all-missing series |
| MomentumScore.GapsKeepPositions | tests/test_analyze_momentum.py:73-84 | [1, −, 2, −, 3] is regressed on x = 0, 2, 4 and scores exactly 0.5 |
| MomentumScore.AlternatingGapsScoreHalf | tests/test_analyze_momentum.py:55-59 | 1..5 with a missing entry between each pair scores exactly 0.5, which is positive |
| RealSums.Centered | src/scripts/analyze_momentum.py:35 | the deviations have the length of the input, and each deviation plus the mean is the original element |
| RealSums.ResidualExpansion | src/scripts/analyze_momentum.py:35 | Σ(b − t·a)² = Σb² − 2t·Σab + t²·Σa², by induction over the points |
| RealSums.CauchySchwarz | src/scripts/analyze_momentum.py:42 | (Σab)² ≤ Σa² · Σb² |
| RealSums.CenteredAffine | src/scripts/analyze_momentum.py:35 | when y = p + q·x pointwise, the deviations of y are q times the deviations of x |
| Gameweek.Per90 | src/scripts/analyze_momentum.py:87-92 | a rate per 90 minutes is 0 without minutes; otherwise it is the amount r with r · minutes = amount · 90 |
| Gameweek.XgiPer90 | src/scripts/analyze_momentum.py:87-92 | per-game xGI/90 is 0 for a game not played; otherwise r · minutes = xGI · 90 |
| Gameweek.FullGameXgiPer90 | src/scripts/analyze_momentum.py:87-92 | at exactly 90 minutes, xGI/90 is the game's xGI |
| Gameweek.PlayedGames | src/scripts/analyze_momentum.py:113-126 | the filtered games are exactly the played games of the history: nothing is added, and no played game is lost |
| Gameweek.PlayedGamesConcat | src/scripts/analyze_momentum.py:113-126 | filtering keeps chronological order: the filter of a + b is the filter of a followed by the filter of b |
| Gameweek.CountPlayed | src/scripts/analyze_momentum.py:130 | the sum of the minutes > 0 flags of the raw window, which is at most the window's length |
| Gameweek.CountPlayedIsPlayedGames | src/scripts/analyze_momentum.py:130 | summing the minutes > 0 flags counts the played games |
| Gameweek.Tail | src/scripts/analyze_momentum.py:113-128 | the tail is the last w elements, or all of them when there are fewer, and the history is what precedes it followed by the tail |
| Gameweek.SumTotals | src/scripts/analyze_momentum.py:113-126 | defined as the column-by-column sums (xG, goals, xGC, clean sheets, goals conceded, tackles, recoveries, CBI, saves, minutes) of a run of games; SumTotalsConcat is its additivity |
| Gameweek.SumTotalsConcat | src/scripts/analyze_momentum.py:113-126 | the column sums of two runs of games add up |
| Gameweek.SummedGames | src/scripts/analyze_momentum.py:113-126 | the sums run over the last min(w, number of played games) played games: all played, a suffix of the played games |
| Gameweek.PlayedInWindowAreSummed | src/scripts/analyze_momentum.py:113-130 | the played games of the raw window are the most recent of the summed games, so games_played_in_window never exceeds the number of summed games |
| Gameweek.FullWindowSumsRawGames | src/scripts/analyze_momentum.py:113-126 | when each of the last w gameweeks was played, the sums run over exactly those gameweeks |
| Gameweek.UnplayedGameIgnored | src/scripts/analyze_momentum.py:113-126 | a game without minutes never reaches the sums, wherever it sits in the history |
| Gameweek.UnplayedGameLeavesSums | src/scripts/analyze_momentum.py:112-126 | removing a game without minutes from anywhere in the history leaves every rolling sum of the window unchanged |
| Gameweek.RollingMinutesPositive | src/scripts/analyze_momentum.py:126 | rolling minutes are ≥ 0, and > 0 exactly when w > 0 and the player has played at least once |
| Gameweek.XgiWindow | src/scripts/analyze_momentum.py:128 | the trend window holds the xGI/90 of each of the last w raw gameweeks, with unplayed ones included as 0 |
| Gameweek.Aggregate | src/scripts/analyze_momentum.py:106-132 | the ten rolling sums are the column sums of the summed games (the last w played games). games_played_in_window is the number of played games among the last w raw gameweeks; it is at most w and at most the number of summed games. Rolling minutes are ≥ 0, and > 0 exactly when w > 0 and the player has ever played. The sequence is the raw xGI/90 window |
| DerivedMetrics.Derive | src/scripts/analyze_momentum.py:135-171 | xg_diff = actual − xG; the three per-90 rates are guarded rates of the sums; games_played_pct · w = games played; minutes_pct · 90w = rolling minutes; DEFCON = tackles + recoveries/4 + CBI |
| DerivedMetrics.DefconScore | src/scripts/analyze_momentum.py:157-161 | tackles + recoveries / 4 + CBI; it is never negative for nonnegative counts, and with no tackles and no CBI, four times the score is the recoveries |
| DerivedMetrics.DefconAdditive | src/scripts/analyze_momentum.py:157-161 | the DEFCON score of the summed window is the sum of the per-game DEFCON scores |
| DerivedMetrics.SharesOfAggregate | src/scripts/analyze_momentum.py:152-153 | each share lies in [0, 1] when its numerator fits the window; it is 1 when the numerator fills the window, and 0 when the numerator is 0 (games played, or rolling minutes) |
| DerivedMetrics.GamesPlayedPctBounds | src/scripts/analyze_momentum.py:130-152 | games_played_pct lies in [0, 1] |
| DerivedMetrics.MinutesPctBounds | src/scripts/analyze_momentum.py:126-153 | minutes_pct lies in [0, 1] when no game lasts more than 90 minutes |
| DerivedMetrics.FullWindowShares | src/scripts/analyze_momentum.py:126-153 | with the last w gameweeks all played in full, both shares are exactly 1 |
| DerivedMetrics.FullWindowAggregate | src/scripts/analyze_momentum.py:126-130 | with the last w gameweeks all played in full, w games count as played and the rolling minutes are 90w |
| DerivedMetrics.XgDiffPer90IsDifferenceOfRates | src/scripts/analyze_momentum.py:139-150 | xg_diff_per_90 is the goals-per-90 rate minus xg_per_90 |
| DerivedMetrics.Per90OfDifference | src/scripts/analyze_momentum.py:139-145 | rates per 90 of the same minutes subtract like the amounts do |
| DerivedMetrics.NeverPlayedIsAllZero | src/scripts/analyze_momentum.py:135-171 | a player who never played gets 0 for every derived metric |
| Signals.BuyRule | src/scripts/analyze_momentum.py:196-200 | defined as xg_diff < −0.5, momentum > 0.005 and games_played_pct > 0.5, all strict; Classify's contract ties BUY to it |
| Signals.SellRule | src/scripts/analyze_momentum.py:202-208 | defined as (xg_diff > 0.8 and momentum < −0.005) or (games_played_pct < 0.3 and xg_diff > 1.0); Classify's contract ties SELL to it |
| Signals.Classify | src/scripts/analyze_momentum.py:195-212 | BUY exactly when the buy rule holds; SELL exactly when the sell rule holds; HOLD exactly when neither does; a BUY underperforms and a SELL overperforms |
| Signals.RulesExclusive | src/scripts/analyze_momentum.py:196-208 | the buy and sell rules never both hold, so trying BUY first decides nothing |
| Signals.BuyMonotone | src/scripts/analyze_momentum.py:196-201 | a BUY stays a BUY with a lower xG difference, a higher momentum or a higher share of games |
| Signals.SellMonotone | src/scripts/analyze_momentum.py:202-209 | a SELL stays a SELL with a higher xG difference, a lower momentum or a lower share of games |
| Signals.FlatMomentumSignal | src/scripts/analyze_momentum.py:195-212 | with momentum 0 a row is never a BUY, and it is a SELL exactly under the rotation-risk rule |
| Signals.LimitsAreExclusive | src/scripts/analyze_momentum.py:197-207 | a value exactly on any threshold does not trigger its rule, and one just past it does |
| MomentumAnalysis.Momentum | src/scripts/analyze_momentum.py:175-179 | the momentum is the trend score of the raw xGI/90 window, every entry present; a window shorter than three gameweeks gives 0 |
| MomentumAnalysis.PlayerRow | src/scripts/analyze_momentum.py:106-214 | a row keeps the player's columns and the window size; games played ≤ w; the share lies in [0, 1]; xg_diff = actual − xG; fewer than three gameweeks gives momentum 0; the sums and games played are those of the window aggregate, the metrics are derived from it and the momentum is the trend of its raw window; the signal is BUY or SELL exactly when the rule holds |
| MomentumAnalysis.WindowTable | src/scripts/analyze_momentum.py:106-214 | defined as the row of each player for one window size, in player order; WindowTableRows states its length and rows |
| MomentumAnalysis.AnalysisTable | src/scripts/analyze_momentum.py:214-218 | defined as the tables of windows 4, 6 and 10 concatenated; AnalysisRows states where each player's rows sit and Analyze computes it with the loop |
| MomentumAnalysis.WindowTableRows | src/scripts/analyze_momentum.py:106-214 | the table of one window has one row per player, in player order |
| MomentumAnalysis.Analyze | src/scripts/analyze_momentum.py:99-218 | the loop over windows 4, 6 and 10, which appends each window's table and then concatenates them, produces the analysis table |
| MomentumAnalysis.AnalysisRows | src/scripts/analyze_momentum.py:214-218 | with n players the output has 3n rows; rows i, n + i and 2n + i are player i under windows 4, 6 and 10 |
| MomentumAnalysis.IdleWindowAggregate | src/scripts/analyze_momentum.py:128-130 | with no game played in the last w gameweeks, no game counts as played and the momentum is 0 |
| MomentumAnalysis.IdleWindowSignal | src/scripts/analyze_momentum.py:128-212 | such a player has share 0 and is never a BUY; the sums still reach back to older played games, so the player is a SELL exactly when xg_diff > 1.0 |
| MomentumAnalysis.SteadyRiseMomentum | src/scripts/analyze_momentum.py:87-179 | when the last w ≥ 3 gameweeks are full games whose xGI rises by b per game, the momentum is exactly b |

## Left out

- Reading and writing parquet files, and all printing: the file checks, the
  output file, the progress lines and the top-5 BUY display. This is I/O.
- The join of history with players and the sort by player and round. The
  input is already grouped per player and in round order.
- The group order of the per-window tables. The dataframe library does not
  fix the order of groups. The model emits rows in input player order.
- The decimal-comma string cast of the metric columns. Inputs are modelled
  as numbers already. influence, creativity, threat, ict_index and
  expected_assists are only cast by the source, never used by the analysis,
  so they are not modelled.
- Floating point. All arithmetic is on exact rationals. The source's
  `(actual − xg) / (minutes / 90)` and `xg / minutes * 90` are therefore the
  same value as amount · 90 / minutes.
- NaN, and scipy's `linregress`. A missing value and a NaN are both `None`.
  The regression is written with explicit centred sums. Each of scipy's
  degenerate outcomes is the degenerate fit, Sxx = 0 or Syy = 0, which scores
  0:
  - the exception on identical x values;
  - a NaN slope or r;
  - r = 0 for constant y.

  In the analysis itself every xGI/90 value is present.
- The `xg_sequence` column. It is aggregated but dropped before output
  without being read.
- MomentumAnalysis.PlayerRow: requires w > 0. The source only ever uses
  windows 4, 6 and 10, and games_played_pct divides by w.
- The text of the signal column ("BUY", "SELL", "HOLD"). The model keeps the
  signal as the three-valued `Signal` type, one value per literal.
- The trend scorer runs on the raw last w gameweeks, zeros included. The
  sums run over the last w played games. The model keeps this difference, as
  the source has it (see IdleWindowSignal).
