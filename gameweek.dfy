/**
 * Per-gameweek records of one player and the window aggregation over them:
 * the per-game xGI/90 column, the trailing sums over played games
 * (minutes > 0), and the raw trailing slice that feeds the trend scorer.
 *
 * A player's history is given in round order (the result of sorting the
 * joined table by player and round).
 */
module Gameweek {

  /** The columns of one gameweek row that the analysis reads. */
  datatype GameweekRecord = GameweekRecord(
    round: int,
    minutes: int,
    goalsScored: int,
    expectedGoals: real,
    expectedGoalInvolvements: real,
    expectedGoalsConceded: real,
    cleanSheets: int,
    goalsConceded: int,
    tackles: int,
    recoveries: int,
    clearancesBlocksInterceptions: int,
    saves: int)

  predicate Played(g: GameweekRecord)
  {
    g.minutes > 0
  }

  /**
   * An amount scaled to a rate per 90 minutes of play, guarded against
   * division by zero: 0 when there were no minutes.
   */
  function Per90(amount: real, minutes: int): (r: real)
    ensures minutes <= 0 ==> r == 0.0
    ensures minutes > 0 ==> r * (minutes as real) == amount * 90.0
  {
    if minutes > 0 then amount * 90.0 / (minutes as real) else 0.0
  }

  /** Expected goal involvement per 90 minutes in one game; 0 for a game not played. */
  function XgiPer90(g: GameweekRecord): (r: real)
    ensures !Played(g) ==> r == 0.0
    ensures Played(g) ==> r * (g.minutes as real) == g.expectedGoalInvolvements * 90.0
  {
    Per90(g.expectedGoalInvolvements, g.minutes)
  }

  /** A full 90 minutes makes xGI/90 the game's xGI itself. */
  lemma FullGameXgiPer90(g: GameweekRecord)
    requires g.minutes == 90
    ensures XgiPer90(g) == g.expectedGoalInvolvements
  {
  }

  /** The games of `h` with minutes > 0, in their original order. */
  function PlayedGames(h: seq<GameweekRecord>): (p: seq<GameweekRecord>)
    ensures |p| <= |h|
    ensures forall g :: g in p ==> g in h && Played(g)
    ensures forall g :: g in h && Played(g) ==> g in p
  {
    if h == [] then []
    else if Played(h[0]) then [h[0]] + PlayedGames(h[1..])
    else PlayedGames(h[1..])
  }

  /** Filtering distributes over concatenation: order is kept, nothing is mixed. */
  lemma {:induction false} PlayedGamesConcat(a: seq<GameweekRecord>, b: seq<GameweekRecord>)
    ensures PlayedGames(a + b) == PlayedGames(a) + PlayedGames(b)
  {
    if a == [] {
      assert a + b == b;
    } else {
      assert (a + b)[0] == a[0];
      assert (a + b)[1..] == a[1..] + b;
      PlayedGamesConcat(a[1..], b);
    }
  }

  /** A history without minutes has no played games. */
  lemma {:induction false} NothingPlayed(h: seq<GameweekRecord>)
    requires forall k :: 0 <= k < |h| ==> !Played(h[k])
    ensures PlayedGames(h) == []
  {
    if h != [] {
      NothingPlayed(h[1..]);
    }
  }

  /** Number of played games, summed over the per-game played flag. */
  function CountPlayed(h: seq<GameweekRecord>): (n: nat)
    ensures n <= |h|
  {
    if h == [] then 0 else (if Played(h[0]) then 1 else 0) + CountPlayed(h[1..])
  }

  /** Counting the played flags is counting the played games. */
  lemma {:induction false} CountPlayedIsPlayedGames(h: seq<GameweekRecord>)
    ensures CountPlayed(h) == |PlayedGames(h)|
  {
    if h != [] {
      CountPlayedIsPlayedGames(h[1..]);
    }
  }

  /** The last `w` elements of `s`, or all of them when there are fewer. */
  function Tail<T>(s: seq<T>, w: nat): (t: seq<T>)
    ensures |t| == if |s| <= w then |s| else w
    ensures s == s[..|s| - |t|] + t
  {
    if |s| <= w then s else s[|s| - w..]
  }

  /** Trailing sums of the counting statistics. */
  datatype WindowTotals = WindowTotals(
    xg: real,
    actual: int,
    xgc: real,
    cleanSheets: int,
    goalsConceded: int,
    tackles: int,
    recoveries: int,
    cbi: int,
    saves: int,
    minutes: int)

  function NoTotals(): WindowTotals
  {
    WindowTotals(0.0, 0, 0.0, 0, 0, 0, 0, 0, 0, 0)
  }

  function AddTotals(a: WindowTotals, b: WindowTotals): WindowTotals
  {
    WindowTotals(
      a.xg + b.xg, a.actual + b.actual, a.xgc + b.xgc, a.cleanSheets + b.cleanSheets,
      a.goalsConceded + b.goalsConceded, a.tackles + b.tackles, a.recoveries + b.recoveries,
      a.cbi + b.cbi, a.saves + b.saves, a.minutes + b.minutes)
  }

  lemma AddTotalsAssociative(a: WindowTotals, b: WindowTotals, c: WindowTotals)
    ensures AddTotals(AddTotals(a, b), c) == AddTotals(a, AddTotals(b, c))
  {
  }

  /** One game's contribution to each sum. */
  function GameTotals(g: GameweekRecord): WindowTotals
  {
    WindowTotals(
      g.expectedGoals, g.goalsScored, g.expectedGoalsConceded, g.cleanSheets,
      g.goalsConceded, g.tackles, g.recoveries, g.clearancesBlocksInterceptions,
      g.saves, g.minutes)
  }

  /** Column sums over a run of games. */
  function SumTotals(gs: seq<GameweekRecord>): WindowTotals
  {
    if gs == [] then NoTotals() else AddTotals(GameTotals(gs[0]), SumTotals(gs[1..]))
  }

  lemma {:induction false} SumTotalsConcat(a: seq<GameweekRecord>, b: seq<GameweekRecord>)
    ensures SumTotals(a + b) == AddTotals(SumTotals(a), SumTotals(b))
  {
    if a == [] {
      assert a + b == b;
    } else {
      assert (a + b)[0] == a[0];
      assert (a + b)[1..] == a[1..] + b;
      SumTotalsConcat(a[1..], b);
      AddTotalsAssociative(GameTotals(a[0]), SumTotals(a[1..]), SumTotals(b));
    }
  }

  /** Games that were all played sum to at least one minute each. */
  lemma {:induction false} SumTotalsMinutes(gs: seq<GameweekRecord>)
    requires forall k :: 0 <= k < |gs| ==> Played(gs[k])
    ensures SumTotals(gs).minutes >= |gs|
  {
    if gs != [] {
      SumTotalsMinutes(gs[1..]);
    }
  }

  /** `t` is the last |t| elements of `s`. */
  ghost predicate IsSuffix<T>(t: seq<T>, s: seq<T>)
  {
    |t| <= |s| && s[|s| - |t|..] == t
  }

  /** A suffix no longer than `w` is also a suffix of the last `w` elements. */
  lemma SuffixOfTail<T>(t: seq<T>, s: seq<T>, w: nat)
    requires IsSuffix(t, s) && |t| <= w
    ensures IsSuffix(t, Tail(s, w))
  {
    var r := Tail(s, w);
    assert s == s[..|s| - |r|] + r;
    assert r[|r| - |t|..] == s[|s| - |t|..];
  }

  /** Filtering a run of played games changes nothing. */
  lemma {:induction false} PlayedGamesOfPlayed(gs: seq<GameweekRecord>)
    requires forall k :: 0 <= k < |gs| ==> Played(gs[k])
    ensures PlayedGames(gs) == gs
  {
    if gs != [] {
      PlayedGamesOfPlayed(gs[1..]);
    }
  }

  /** What the aggregation keeps for one player and one window size. */
  datatype WindowAggregate = WindowAggregate(
    totals: WindowTotals,
    xgiPer90Sequence: seq<real>,
    gamesPlayedInWindow: nat)

  /** The last `w` played games: the games the trailing sums run over. */
  function SummedGames(h: seq<GameweekRecord>, w: nat): (s: seq<GameweekRecord>)
    ensures |s| == if |PlayedGames(h)| <= w then |PlayedGames(h)| else w
    ensures forall k :: 0 <= k < |s| ==> Played(s[k])
    ensures IsSuffix(s, PlayedGames(h))
  {
    var p := PlayedGames(h);
    var s := Tail(p, w);
    forall k | 0 <= k < |s| ensures Played(s[k]) {
      assert s[k] == p[|p| - |s| + k];
      assert p[|p| - |s| + k] in p;
    }
    s
  }

  /**
   * The played games among the last `w` raw games are the most recent of
   * the summed games: the count of games played in the raw window never
   * exceeds the number of games the sums run over.
   */
  lemma PlayedInWindowAreSummed(h: seq<GameweekRecord>, w: nat)
    ensures IsSuffix(PlayedGames(Tail(h, w)), SummedGames(h, w))
    ensures CountPlayed(Tail(h, w)) <= |SummedGames(h, w)|
  {
    var raw := Tail(h, w);
    var before := h[..|h| - |raw|];
    PlayedGamesConcat(before, raw);
    var p := PlayedGames(h);
    var pr := PlayedGames(raw);
    assert p == PlayedGames(before) + pr;
    assert p[|p| - |pr|..] == pr;
    SuffixOfTail(pr, p, w);
    CountPlayedIsPlayedGames(raw);
  }

  /**
   * When all of the last `w` games were played, the sums run over exactly
   * those games.
   */
  lemma FullWindowSumsRawGames(h: seq<GameweekRecord>, w: nat)
    requires |h| >= w
    requires forall k :: |h| - w <= k < |h| ==> Played(h[k])
    ensures SummedGames(h, w) == Tail(h, w)
  {
    var raw := Tail(h, w);
    assert forall k :: 0 <= k < |raw| ==> raw[k] == h[|h| - w + k];
    PlayedGamesOfPlayed(raw);
    PlayedInWindowAreSummed(h, w);
  }

  /**
   * A game without minutes never reaches the sums, wherever it sits in the
   * history: removing it leaves the summed games unchanged.
   */
  lemma UnplayedGameIgnored(a: seq<GameweekRecord>, g: GameweekRecord, b: seq<GameweekRecord>, w: nat)
    requires !Played(g)
    ensures SummedGames(a + [g] + b, w) == SummedGames(a + b, w)
  {
    PlayedGamesConcat(a + [g], b);
    PlayedGamesConcat(a, [g]);
    PlayedGamesConcat(a, b);
    assert PlayedGames([g]) == [];
    assert PlayedGames(a) + [] == PlayedGames(a);
  }

  /**
   * The rolling sums leave out a game without minutes: removing it from the
   * history, wherever it sits, leaves every sum of the window unchanged.
   */
  lemma UnplayedGameLeavesSums(a: seq<GameweekRecord>, g: GameweekRecord, b: seq<GameweekRecord>, w: nat)
    requires !Played(g)
    ensures Aggregate(a + [g] + b, w).totals == Aggregate(a + b, w).totals
  {
    UnplayedGameIgnored(a, g, b, w);
  }

  /**
   * The summed minutes are positive exactly when the window is not empty
   * and the player has played at least once, however long ago.
   */
  lemma RollingMinutesPositive(h: seq<GameweekRecord>, w: nat)
    ensures SumTotals(SummedGames(h, w)).minutes >= 0
    ensures SumTotals(SummedGames(h, w)).minutes > 0 <==> w > 0 && PlayedGames(h) != []
  {
    SumTotalsMinutes(SummedGames(h, w));
  }

  /**
   * Aggregation of one player's history for window size `w`: sums over the
   * last `w` played games; the xGI/90 values of the last `w` raw games, with
   * unplayed games as 0; and how many of those raw games were played.
   */
  function Aggregate(h: seq<GameweekRecord>, w: nat): (a: WindowAggregate)
    ensures a.totals == SumTotals(SummedGames(h, w))
    ensures a.gamesPlayedInWindow <= w && a.gamesPlayedInWindow <= |h|
    ensures a.gamesPlayedInWindow == |PlayedGames(Tail(h, w))| <= |SummedGames(h, w)|
    ensures a.totals.minutes >= 0
    ensures a.totals.minutes > 0 <==> w > 0 && PlayedGames(h) != []
    ensures a.xgiPer90Sequence == XgiWindow(h, w)
  {
    var raw := Tail(h, w);
    PlayedInWindowAreSummed(h, w);
    CountPlayedIsPlayedGames(raw);
    RollingMinutesPositive(h, w);
    WindowAggregate(SumTotals(SummedGames(h, w)), XgiWindow(h, w), CountPlayed(raw))
  }

  /** The xGI/90 values of the last `w` raw games, unplayed games included as 0. */
  function XgiWindow(h: seq<GameweekRecord>, w: nat): (xs: seq<real>)
    ensures |xs| == |Tail(h, w)|
    ensures forall k :: 0 <= k < |xs| ==> xs[k] == XgiPer90(Tail(h, w)[k])
  {
    var raw := Tail(h, w);
    seq(|raw|, k requires 0 <= k < |raw| => XgiPer90(raw[k]))
  }
}
