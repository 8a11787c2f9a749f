/**
 * The analysis run: for each window size in turn, one row per player with
 * the window's sums, the derived metrics, the momentum score of the raw
 * xGI/90 window and the signal; the per-window tables are concatenated in
 * window order.
 */
module MomentumAnalysis {
  import opened Gameweek
  import opened DerivedMetrics
  import opened MomentumScore
  import opened Signals

  /** The player columns carried into every output row. */
  datatype PlayerInfo = PlayerInfo(
    id: int,
    webName: string,
    position: string,
    teamName: string,
    nowCost: int)

  /** One player and their gameweek records in round order. */
  datatype PlayerHistory = PlayerHistory(info: PlayerInfo, games: seq<GameweekRecord>)

  /** One row of the output table. */
  datatype MomentumRow = MomentumRow(
    info: PlayerInfo,
    totals: WindowTotals,
    gamesPlayedInWindow: nat,
    metrics: Metrics,
    momentumScore: real,
    signal: Signal,
    windowSize: nat)

  /** The window sizes, in the order their tables are concatenated. */
  const Windows: seq<nat> := [4, 6, 10]

  /** Reliability-weighted slope of the xGI/90 values of the last `w` raw games. */
  function Momentum(h: seq<GameweekRecord>, w: nat): (r: real)
    ensures r == Score(AllPresent(XgiWindow(h, w)))
    ensures |Tail(h, w)| < MinPoints ==> r == 0.0
  {
    Score(AllPresent(Aggregate(h, w).xgiPer90Sequence))
  }

  /** The output row of one player for window size `w`. */
  function PlayerRow(p: PlayerHistory, w: nat): (r: MomentumRow)
    requires w > 0
    ensures r.info == p.info && r.windowSize == w
    ensures r.totals == Aggregate(p.games, w).totals
    ensures r.gamesPlayedInWindow == Aggregate(p.games, w).gamesPlayedInWindow
    ensures r.metrics == Derive(Aggregate(p.games, w), w)
    ensures r.momentumScore == Momentum(p.games, w)
    ensures r.gamesPlayedInWindow <= w
    ensures 0.0 <= r.metrics.gamesPlayedPct <= 1.0
    ensures r.metrics.xgDiff == r.totals.actual as real - r.totals.xg
    ensures |p.games| < MinPoints ==> r.momentumScore == 0.0
    ensures r.signal == Buy <==> BuyRule(r.metrics.xgDiff, r.momentumScore, r.metrics.gamesPlayedPct)
    ensures r.signal == Sell <==> SellRule(r.metrics.xgDiff, r.momentumScore, r.metrics.gamesPlayedPct)
  {
    var a := Aggregate(p.games, w);
    var m := Derive(a, w);
    var momentum := Momentum(p.games, w);
    GamesPlayedPctBounds(p.games, w);
    MomentumRow(p.info, a.totals, a.gamesPlayedInWindow, m, momentum,
      Classify(m.xgDiff, momentum, m.gamesPlayedPct), w)
  }

  /** The table of one window size: one row per player, in player order. */
  function WindowTable(players: seq<PlayerHistory>, w: nat): seq<MomentumRow>
    requires w > 0
  {
    seq(|players|, i requires 0 <= i < |players| => PlayerRow(players[i], w))
  }

  /** The tables one after the other. */
  function Concat<T>(tables: seq<seq<T>>): seq<T>
  {
    if tables == [] then [] else tables[0] + Concat(tables[1..])
  }

  lemma {:induction false} ConcatAppend<T>(tables: seq<seq<T>>, t: seq<T>)
    ensures Concat(tables + [t]) == Concat(tables) + t
  {
    if tables == [] {
      assert [] + [t] == [t];
      assert Concat([t]) == t + Concat([]);
    } else {
      assert (tables + [t])[0] == tables[0];
      assert (tables + [t])[1..] == tables[1..] + [t];
      ConcatAppend(tables[1..], t);
    }
  }

  /** Three tables concatenate to the first, then the second, then the third. */
  lemma ConcatThree<T>(tables: seq<seq<T>>)
    requires |tables| == 3
    ensures Concat(tables) == tables[0] + tables[1] + tables[2]
  {
    var a, b, c := tables[0], tables[1], tables[2];
    assert tables == [a, b] + [c];
    assert [a, b] == [a] + [b];
    assert [a] == [] + [a];
    ConcatAppend([a, b], c);
    ConcatAppend([a], b);
    ConcatAppend([], a);
  }

  /** Three tables of equal length `n` sit at offsets 0, n and 2n. */
  lemma ThreeBlocks<T>(a: seq<T>, b: seq<T>, c: seq<T>)
    requires |a| == |b| == |c|
    ensures forall i :: 0 <= i < |a| ==>
      (a + b + c)[i] == a[i] && (a + b + c)[|a| + i] == b[i] && (a + b + c)[2 * |a| + i] == c[i]
  {
  }

  /** The table of each window size, in window order. */
  function WindowTables(players: seq<PlayerHistory>): (ts: seq<seq<MomentumRow>>)
    ensures |ts| == |Windows|
  {
    [WindowTable(players, 4), WindowTable(players, 6), WindowTable(players, 10)]
  }

  /** The output of the analysis: the tables of all window sizes, one after the other. */
  function AnalysisTable(players: seq<PlayerHistory>): seq<MomentumRow>
  {
    Concat(WindowTables(players))
  }

  /**
   * With n players the output has 3n rows, and rows i, n + i and 2n + i
   * are player i under window sizes 4, 6 and 10.
   */
  lemma AnalysisRows(players: seq<PlayerHistory>)
    ensures |AnalysisTable(players)| == |Windows| * |players|
    ensures forall i :: 0 <= i < |players| ==>
      AnalysisTable(players)[i] == PlayerRow(players[i], 4) &&
      AnalysisTable(players)[|players| + i] == PlayerRow(players[i], 6) &&
      AnalysisTable(players)[2 * |players| + i] == PlayerRow(players[i], 10)
  {
    WindowTableRows(players, 4);
    WindowTableRows(players, 6);
    WindowTableRows(players, 10);
    ConcatThreeBlocks(WindowTables(players), |players|);
  }

  /** Three tables of `n` rows each: rows i, n + i and 2n + i come from the first, second and third. */
  lemma ConcatThreeBlocks<T>(tables: seq<seq<T>>, n: nat)
    requires |tables| == 3 && |tables[0]| == |tables[1]| == |tables[2]| == n
    ensures |Concat(tables)| == 3 * n
    ensures forall i :: 0 <= i < n ==>
      Concat(tables)[i] == tables[0][i] &&
      Concat(tables)[n + i] == tables[1][i] &&
      Concat(tables)[2 * n + i] == tables[2][i]
  {
    ConcatThree(tables);
    ThreeBlocks(tables[0], tables[1], tables[2]);
  }

  /** The table of one window size has one row per player, in player order. */
  lemma WindowTableRows(players: seq<PlayerHistory>, w: nat)
    requires w > 0
    ensures |WindowTable(players, w)| == |players|
    ensures forall i :: 0 <= i < |players| ==> WindowTable(players, w)[i] == PlayerRow(players[i], w)
  {
  }

  /** A prefix of `ts` grown by the next element is the next prefix. */
  lemma PrefixStep<T>(prefix: seq<T>, ts: seq<T>, j: nat)
    requires j < |ts| && prefix == ts[..j]
    ensures prefix + [ts[j]] == ts[..j + 1]
  {
  }

  /**
   * The whole analysis: the table of each window size in turn, collected
   * in a list and then concatenated.
   */
  method Analyze(players: seq<PlayerHistory>) returns (table: seq<MomentumRow>)
    ensures table == AnalysisTable(players)
  {
    ghost var tables := WindowTables(players);
    var results: seq<seq<MomentumRow>> := [];
    var j := 0;
    while j < |Windows|
      invariant 0 <= j <= |Windows|
      invariant results == tables[..j]
    {
      var w := Windows[j];
      PrefixStep(results, tables, j);
      results := results + [WindowTable(players, w)];
      j := j + 1;
    }
    assert tables[..j] == tables;
    table := Concat(results);
  }

  /**
   * No game played among the last `w`: the raw window is all zeros, so
   * there is no trend, and no game counts as played in it.
   */
  lemma IdleWindowAggregate(h: seq<GameweekRecord>, w: nat)
    requires forall k :: 0 <= k < |Tail(h, w)| ==> !Played(Tail(h, w)[k])
    ensures Aggregate(h, w).gamesPlayedInWindow == 0
    ensures Momentum(h, w) == 0.0
  {
    var raw := Tail(h, w);
    var xs := Aggregate(h, w).xgiPer90Sequence;
    NothingPlayed(raw);
    CountPlayedIsPlayedGames(raw);
    ConstantSeriesScoresZero(AllPresent(xs), 0.0);
  }

  /**
   * A player who did not play in any of the last `w` gameweeks has no trend
   * and no share of the window, so is never a BUY; the sums still reach back
   * to the last `w` games they did play, so an extreme overperformance there
   * makes them a SELL.
   */
  lemma IdleWindowSignal(p: PlayerHistory, w: nat)
    requires w > 0
    requires forall k :: 0 <= k < |Tail(p.games, w)| ==> !Played(Tail(p.games, w)[k])
    ensures PlayerRow(p, w).momentumScore == 0.0
    ensures PlayerRow(p, w).metrics.gamesPlayedPct == 0.0
    ensures PlayerRow(p, w).signal != Buy
    ensures PlayerRow(p, w).signal == Sell <==> PlayerRow(p, w).metrics.xgDiff > ExtremeOverperformanceLimit
  {
    IdleWindowAggregate(p.games, w);
    var a := Aggregate(p.games, w);
    SharesOfAggregate(a, w);
    var m := Derive(a, w);
    FlatMomentumSignal(m.xgDiff, m.gamesPlayedPct);
  }

  /**
   * A steady trend: when each of the last `w` (at least three) games was
   * played in full and the xGI rose by `b` from one game to the next, the
   * momentum score is exactly `b`.
   */
  lemma SteadyRiseMomentum(h: seq<GameweekRecord>, w: nat, a: real, b: real)
    requires MinPoints <= w <= |h|
    requires forall k :: 0 <= k < |Tail(h, w)| ==>
      Tail(h, w)[k].minutes == 90 && Tail(h, w)[k].expectedGoalInvolvements == a + b * (k as real)
    ensures Momentum(h, w) == b
  {
    var raw := Tail(h, w);
    var xs := Aggregate(h, w).xgiPer90Sequence;
    forall i | 0 <= i < |xs| ensures xs[i] == a + b * (i as real) {
      FullGameXgiPer90(raw[i]);
    }
    CollinearValuesScoreSlope(xs, a, b);
  }
}
