/**
 * The metrics derived from one player's window aggregate: finishing over
 * or under expectation (xG difference), rates per 90 minutes, how much of
 * the window the player took part in, and the DEFCON defensive score.
 */
module DerivedMetrics {
  import opened Gameweek
  import opened RealSums

  /** The derived columns of one output row. */
  datatype Metrics = Metrics(
    xgDiff: real,
    xgDiffPer90: real,
    xgPer90: real,
    gamesPlayedPct: real,
    minutesPct: real,
    defconScore: real,
    defconPer90: real)

  /** Defensive contribution: tackles and CBI count in full, recoveries a quarter. */
  function DefconScore(t: WindowTotals): (r: real)
    ensures t.tackles >= 0 && t.recoveries >= 0 && t.cbi >= 0 ==> r >= 0.0
    ensures t.tackles + t.cbi == 0 ==> r * 4.0 == t.recoveries as real
  {
    t.tackles as real + t.recoveries as real / 4.0 + t.cbi as real
  }

  /** The DEFCON scores of the games one by one, added up. */
  function DefconOfGames(gs: seq<GameweekRecord>): real
  {
    if gs == [] then 0.0 else DefconScore(GameTotals(gs[0])) + DefconOfGames(gs[1..])
  }

  /**
   * DEFCON is linear: the score of the summed window is the sum of the
   * per-game scores.
   */
  lemma {:induction false} DefconAdditive(gs: seq<GameweekRecord>)
    ensures DefconScore(SumTotals(gs)) == DefconOfGames(gs)
  {
    if gs != [] {
      DefconAdditive(gs[1..]);
    }
  }

  /** The derived metrics of one aggregate for window size `w`. */
  function Derive(a: WindowAggregate, w: nat): (m: Metrics)
    requires w > 0
    ensures m.xgDiff == a.totals.actual as real - a.totals.xg
    ensures m.xgDiffPer90 == Per90(m.xgDiff, a.totals.minutes)
    ensures m.xgPer90 == Per90(a.totals.xg, a.totals.minutes)
    ensures m.gamesPlayedPct * (w as real) == a.gamesPlayedInWindow as real
    ensures m.minutesPct * (w as real * 90.0) == a.totals.minutes as real
    ensures m.defconScore == DefconScore(a.totals)
    ensures m.defconPer90 == Per90(m.defconScore, a.totals.minutes)
  {
    var t := a.totals;
    var xgDiff := t.actual as real - t.xg;
    var defcon := DefconScore(t);
    Metrics(
      xgDiff,
      Per90(xgDiff, t.minutes),
      Per90(t.xg, t.minutes),
      a.gamesPlayedInWindow as real / w as real,
      t.minutes as real / (w as real * 90.0),
      defcon,
      Per90(defcon, t.minutes))
  }

  /** The derived metrics of a player's history for window size `w`. */
  function WindowMetrics(h: seq<GameweekRecord>, w: nat): Metrics
    requires w > 0
  {
    Derive(Aggregate(h, w), w)
  }

  /**
   * A quotient num / den with den > 0 lies in [0, 1] when num lies between 0
   * and den; it is 1 when num is den and 0 when num is 0.
   */
  lemma ShareArithmetic(q: real, num: real, den: real)
    requires den > 0.0 && q * den == num
    ensures 0.0 <= num <= den ==> 0.0 <= q <= 1.0
    ensures num == den ==> q == 1.0
    ensures num == 0.0 ==> q == 0.0
  {
    if num == den {
      assert q * den == 1.0 * den;
      CancelFactor(q, 1.0, den);
    }
    if num == 0.0 {
      assert q * den == 0.0 * den;
      CancelFactor(q, 0.0, den);
    }
  }

  /**
   * Both shares of an aggregate are fractions when their numerators fit the
   * window, exactly 1 when they fill it and 0 when they are 0.
   */
  lemma SharesOfAggregate(a: WindowAggregate, w: nat)
    requires w > 0
    ensures a.gamesPlayedInWindow <= w ==> 0.0 <= Derive(a, w).gamesPlayedPct <= 1.0
    ensures 0 <= a.totals.minutes <= 90 * w ==> 0.0 <= Derive(a, w).minutesPct <= 1.0
    ensures a.gamesPlayedInWindow == w ==> Derive(a, w).gamesPlayedPct == 1.0
    ensures a.gamesPlayedInWindow == 0 ==> Derive(a, w).gamesPlayedPct == 0.0
    ensures a.totals.minutes == 90 * w ==> Derive(a, w).minutesPct == 1.0
    ensures a.totals.minutes == 0 ==> Derive(a, w).minutesPct == 0.0
  {
    var m := Derive(a, w);
    var full := w as real * 90.0;
    assert (90 * w) as real == full;
    ShareArithmetic(m.gamesPlayedPct, a.gamesPlayedInWindow as real, w as real);
    ShareArithmetic(m.minutesPct, a.totals.minutes as real, full);
  }

  /** The share of games played in the window is a fraction of the window. */
  lemma GamesPlayedPctBounds(h: seq<GameweekRecord>, w: nat)
    requires w > 0
    ensures 0.0 <= WindowMetrics(h, w).gamesPlayedPct <= 1.0
  {
    SharesOfAggregate(Aggregate(h, w), w);
  }

  /** Games of at most 90 minutes sum to at most 90 minutes each. */
  lemma {:induction false} SumTotalsMinutesAtMost(gs: seq<GameweekRecord>)
    requires forall k :: 0 <= k < |gs| ==> gs[k].minutes <= 90
    ensures SumTotals(gs).minutes <= 90 * |gs|
  {
    if gs != [] {
      SumTotalsMinutesAtMost(gs[1..]);
    }
  }

  /**
   * The minutes share lies in [0, 1] when no game lasts more than 90
   * minutes: at most `w` games are summed.
   */
  lemma MinutesPctBounds(h: seq<GameweekRecord>, w: nat)
    requires w > 0
    requires forall k :: 0 <= k < |h| ==> h[k].minutes <= 90
    ensures 0.0 <= WindowMetrics(h, w).minutesPct <= 1.0
  {
    var s := SummedGames(h, w);
    var p := PlayedGames(h);
    forall k | 0 <= k < |s| ensures s[k].minutes <= 90 {
      assert s[k] == p[|p| - |s| + k];
      assert p[|p| - |s| + k] in p;
    }
    SumTotalsMinutesAtMost(s);
    RollingMinutesPositive(h, w);
    SharesOfAggregate(Aggregate(h, w), w);
  }

  /**
   * A regular starter: when each of the last `w` games was played in full,
   * both shares are exactly 1.
   */
  lemma FullWindowShares(h: seq<GameweekRecord>, w: nat)
    requires 0 < w <= |h|
    requires forall k :: |h| - w <= k < |h| ==> h[k].minutes == 90
    ensures WindowMetrics(h, w).gamesPlayedPct == 1.0
    ensures WindowMetrics(h, w).minutesPct == 1.0
  {
    FullWindowAggregate(h, w);
    SharesOfAggregate(Aggregate(h, w), w);
  }

  /** Each of the last `w` games played in full: `w` games and 90 * `w` minutes. */
  lemma FullWindowAggregate(h: seq<GameweekRecord>, w: nat)
    requires w <= |h|
    requires forall k :: |h| - w <= k < |h| ==> h[k].minutes == 90
    ensures Aggregate(h, w).gamesPlayedInWindow == w
    ensures Aggregate(h, w).totals.minutes == 90 * w
  {
    var raw := Tail(h, w);
    assert forall k :: 0 <= k < |raw| ==> raw[k] == h[|h| - w + k];
    FullWindowSumsRawGames(h, w);
    AllFullGames(raw);
    CountAllPlayed(raw);
  }

  lemma {:induction false} AllFullGames(gs: seq<GameweekRecord>)
    requires forall k :: 0 <= k < |gs| ==> gs[k].minutes == 90
    ensures SumTotals(gs).minutes == 90 * |gs|
  {
    if gs != [] {
      AllFullGames(gs[1..]);
    }
  }

  lemma {:induction false} CountAllPlayed(gs: seq<GameweekRecord>)
    requires forall k :: 0 <= k < |gs| ==> Played(gs[k])
    ensures CountPlayed(gs) == |gs|
  {
    if gs != [] {
      CountAllPlayed(gs[1..]);
    }
  }

  /**
   * The xG difference per 90 is the goals-per-90 rate minus the xG-per-90
   * rate, the two rates the window's columns are made of.
   */
  lemma XgDiffPer90IsDifferenceOfRates(a: WindowAggregate, w: nat)
    requires w > 0
    ensures Derive(a, w).xgDiffPer90 == Per90(a.totals.actual as real, a.totals.minutes) - Derive(a, w).xgPer90
  {
    var t := a.totals;
    var m := Derive(a, w);
    Per90OfDifference(t.actual as real, t.xg, t.minutes);
  }

  /** Rates per 90 minutes of the same minutes subtract like the amounts do. */
  lemma Per90OfDifference(x: real, y: real, minutes: int)
    ensures Per90(x - y, minutes) == Per90(x, minutes) - Per90(y, minutes)
  {
    if minutes > 0 {
      var mins := minutes as real;
      assert (Per90(x, minutes) - Per90(y, minutes)) * mins == (x - y) * 90.0;
      CancelFactor(Per90(x - y, minutes), Per90(x, minutes) - Per90(y, minutes), mins);
    }
  }

  /**
   * A player who has never played gets no credit at all: every sum, rate
   * and share is 0.
   */
  lemma NeverPlayedIsAllZero(h: seq<GameweekRecord>, w: nat)
    requires w > 0
    requires forall k :: 0 <= k < |h| ==> !Played(h[k])
    ensures WindowMetrics(h, w) == Metrics(0.0, 0.0, 0.0, 0.0, 0.0, 0.0, 0.0)
  {
    NothingPlayed(h);
    assert SummedGames(h, w) == [];
    assert Aggregate(h, w).gamesPlayedInWindow == 0;
  }
}
