/**
 * The aggregation of the tournament's `__main__` block: for every game, the per-game
 * dictionaries, the per-agent averages and their ranking, folded into the tournament
 * totals `total_games_played`, `total_total_utility` and `total_crosstable`; at the end, the
 * ranking of the summed averages.
 *
 * Games are numbered in the order the `games` dictionary yields them; what a match returns
 * is the `Outcomes` oracle of `TournamentTally`.
 */
module Tournament {
  import opened Payoff
  import opened TournamentTally
  import opened Ranking

  /** A value, or the `ZeroDivisionError` raised for the agent whose `games_played` is 0. */
  datatype Result<T> = Ok(value: T) | DivisionByZero(agent: string)

  /** `games_played[n] > 0`, so the average of `n` is defined. */
  ghost predicate AllPlayed(names: seq<string>, t: Tally) {
    forall k :: 0 <= k < |names| ==> Played(t, names[k]) > 0
  }

  /** `average_utility[n] = total_utility[n] / games_played[n]`. */
  function Average(t: Tally, n: string): real
    requires Played(t, n) > 0
  {
    Earned(t, n) / Played(t, n) as real
  }

  /**
   * `for a in agents: average_utility[a.name] = total_utility[a.name] / games_played[a.name]`:
   * the averages in agent order; the first agent that played no match raises.
   */
  function Averages(names: seq<string>, t: Tally): Result<map<string, real>> {
    if names == [] then Ok(map[])
    else match Averages(names[..|names| - 1], t)
      case DivisionByZero(a) => DivisionByZero(a)
      case Ok(m) =>
        var n := names[|names| - 1];
        if Played(t, n) == 0 then DivisionByZero(n) else Ok(m[n := Average(t, n)])
  }

  /**
   * The averages are defined exactly when every agent played; they then hold one entry per
   * agent name, `total_utility / games_played`.
   */
  lemma {:induction false} AveragesOk(names: seq<string>, t: Tally)
    ensures Averages(names, t).Ok? <==> AllPlayed(names, t)
    ensures Averages(names, t).Ok? ==>
              forall n :: (n in Averages(names, t).value <==> n in names)
                          && (n in names ==> Played(t, n) > 0 && Averages(names, t).value[n] == Average(t, n))
  {
    if names != [] {
      var prefix, n := names[..|names| - 1], names[|names| - 1];
      AveragesOk(prefix, t);
      assert names == prefix + [n];
      assert AllPlayed(names, t) <==> AllPlayed(prefix, t) && Played(t, n) > 0 by {
        assert forall k :: 0 <= k < |prefix| ==> prefix[k] == names[k];
      }
    }
  }

  /** When the averages are undefined, the error names the first agent in the list that played no match. */
  lemma {:induction false} AveragesError(names: seq<string>, t: Tally)
    requires Averages(names, t).DivisionByZero?
    ensures exists k :: 0 <= k < |names| && names[k] == Averages(names, t).agent && Played(t, names[k]) == 0
                        && forall k' :: 0 <= k' < k ==> Played(t, names[k']) > 0
  {
    var prefix, n := names[..|names| - 1], names[|names| - 1];
    if Averages(prefix, t).DivisionByZero? {
      AveragesError(prefix, t);
      var k :| 0 <= k < |prefix| && prefix[k] == Averages(prefix, t).agent && Played(t, prefix[k]) == 0
               && forall k' :: 0 <= k' < k ==> Played(t, prefix[k']) > 0;
      assert names[k] == prefix[k];
      assert forall k' :: 0 <= k' < k ==> names[k'] == prefix[k'];
    } else {
      AveragesOk(prefix, t);
      assert forall k' :: 0 <= k' < |prefix| ==> names[k'] == prefix[k'];
    }
  }

  /** An error in the averages of a prefix of the agents is the error of the whole list. */
  lemma {:induction false} AveragesStop(names: seq<string>, t: Tally, k: nat)
    requires k <= |names| && Averages(names[..k], t).DivisionByZero?
    ensures Averages(names, t) == Averages(names[..k], t)
  {
    if k < |names| {
      var prefix := names[..|names| - 1];
      assert prefix[..k] == names[..k];
      AveragesStop(prefix, t, k);
    } else {
      assert names[..k] == names;
    }
  }

  /** The per-agent averages loop of one game. */
  method ComputeAverages(names: seq<string>, t: Tally) returns (r: Result<map<string, real>>)
    requires Tracks(t, names)
    ensures r == Averages(names, t)
  {
    var averageUtility: map<string, real> := map[];
    for k := 0 to |names|
      invariant Averages(names[..k], t) == Ok(averageUtility)
    {
      var n := names[k];
      assert names[..k + 1][..k] == names[..k];
      if t.gamesPlayed[n] == 0 {
        AveragesStop(names, t, k + 1);
        return DivisionByZero(n);
      }
      averageUtility := averageUtility[n := t.totalUtility[n] / t.gamesPlayed[n] as real];
    }
    assert names[..|names|] == names;
    r := Ok(averageUtility);
  }

  /** `total_games_played[a.name] += games_played[a.name]` for every agent, in order. */
  function AddCounts(total: map<string, nat>, names: seq<string>, counts: map<string, nat>): map<string, nat> {
    if names == [] then total
    else
      var prev := AddCounts(total, names[..|names| - 1], counts);
      var n := names[|names| - 1];
      prev[n := Get(prev, n, 0) + Get(counts, n, 0)]
  }

  /** `total_total_utility[a.name] += average_utility[a.name]` for every agent, in order. */
  function AddValues(total: map<string, real>, names: seq<string>, values: map<string, real>): map<string, real> {
    if names == [] then total
    else
      var prev := AddValues(total, names[..|names| - 1], values);
      var n := names[|names| - 1];
      prev[n := Get(prev, n, 0.0) + Get(values, n, 0.0)]
  }

  /**
   * Each agent adds its name's count once, so a name carried by c agents gets c times the
   * count; the names that get an entry are the agents' names.
   */
  lemma {:induction false} AddCountsEffect(total: map<string, nat>, names: seq<string>, counts: map<string, nat>, n: string)
    ensures Get(AddCounts(total, names, counts), n, 0) == Get(total, n, 0) + Count(names, n) * Get(counts, n, 0)
    ensures n in AddCounts(total, names, counts) <==> n in total || n in names
  {
    if names != [] {
      var prefix, last := names[..|names| - 1], names[|names| - 1];
      AddCountsEffect(total, prefix, counts, n);
      assert n in names <==> n in prefix || n == last by {
        assert names == prefix + [last];
      }
      if n == last {
        OneMore(Count(prefix, n), Get(counts, n, 0));
      }
    }
  }

  /** One more copy of `c`. */
  lemma OneMore(a: int, c: int)
    ensures (a + 1) * c == a * c + c
  {
  }

  /** The same for the averages: a name carried by c agents gets c times its average. */
  lemma {:induction false} AddValuesEffect(total: map<string, real>, names: seq<string>, values: map<string, real>, n: string)
    ensures Get(AddValues(total, names, values), n, 0.0) == Get(total, n, 0.0) + Copies(Count(names, n), Get(values, n, 0.0))
    ensures n in AddValues(total, names, values) <==> n in total || n in names
  {
    if names != [] {
      var prefix, last := names[..|names| - 1], names[|names| - 1];
      AddValuesEffect(total, prefix, values, n);
      assert n in names <==> n in prefix || n == last by {
        assert names == prefix + [last];
      }
      if n == last {
        assert Count(names, n) == Count(prefix, n) + 1;
      } else {
        assert Count(names, n) == Count(prefix, n);
      }
    }
  }

  /** `c` copies of `v` added up. */
  function Copies(c: nat, v: real): real {
    if c == 0 then 0.0 else Copies(c - 1, v) + v
  }

  /** Adding up `c` copies of `v` is multiplying `v` by `c`. */
  lemma {:induction false} CopiesProduct(c: nat, v: real)
    ensures Copies(c, v) == c as real * v
  {
    if c > 0 {
      CopiesProduct(c - 1, v);
      assert c as real * v == (c - 1) as real * v + v;
    }
  }

  /** The per-agent loop that adds one game's counts and averages to the totals. */
  method AccumulateTotals(names: seq<string>, totalGames0: map<string, nat>, totalUtility0: map<string, real>,
                          gamesPlayed: map<string, nat>, averageUtility: map<string, real>)
    returns (totalGames: map<string, nat>, totalUtility: map<string, real>)
    requires forall n :: n in names ==> n in totalGames0 && n in totalUtility0 && n in gamesPlayed && n in averageUtility
    ensures totalGames == AddCounts(totalGames0, names, gamesPlayed)
    ensures totalUtility == AddValues(totalUtility0, names, averageUtility)
  {
    totalGames, totalUtility := totalGames0, totalUtility0;
    for k := 0 to |names|
      invariant totalGames == AddCounts(totalGames0, names[..k], gamesPlayed)
      invariant totalUtility == AddValues(totalUtility0, names[..k], averageUtility)
      invariant forall n :: n in totalGames0 ==> n in totalGames
      invariant forall n :: n in totalUtility0 ==> n in totalUtility
    {
      var n := names[k];
      assert names[..k + 1][..k] == names[..k];
      totalGames := totalGames[n := totalGames[n] + gamesPlayed[n]];
      totalUtility := totalUtility[n := totalUtility[n] + averageUtility[n]];
    }
    assert names[..|names|] == names;
  }

  /**
   * `for k, v in crosstable.items()`: a key new to the total is inserted with `v`, a known
   * key has `v` added to it.
   */
  function Merge(total: map<string, real>, ct: map<string, real>): map<string, real> {
    map k | k in total.Keys + ct.Keys :: if k in ct then (if k in total then total[k] + ct[k] else ct[k]) else total[k]
  }

  /** Merging keeps every key of both tables and adds the values of a key by key. */
  lemma MergeEffect(total: map<string, real>, ct: map<string, real>, k: string)
    ensures k in Merge(total, ct) <==> k in total || k in ct
    ensures Get(Merge(total, ct), k, 0.0) == Get(total, k, 0.0) + Get(ct, k, 0.0)
  {
  }

  /** The cross-table merge loop; it visits the keys in any order. */
  method MergeCrosstable(total0: map<string, real>, ct: map<string, real>) returns (total: map<string, real>)
    ensures total == Merge(total0, ct)
  {
    total := total0;
    var pending := ct.Keys;
    while pending != {}
      invariant pending <= ct.Keys
      invariant forall k :: k in total <==> k in total0 || (k in ct && k !in pending)
      invariant forall k :: k in total ==> total[k] == if k in ct && k !in pending then Get(total0, k, 0.0) + ct[k] else total0[k]
      decreases pending
    {
      var k :| k in pending;
      if k !in total {
        total := total[k := ct[k]];
      } else {
        total := total[k := total[k] + ct[k]];
      }
      pending := pending - {k};
    }
    assert total.Keys == Merge(total0, ct).Keys;
  }

  /** The totals after one more game: counts and averages added per agent, cross table merged by key. */
  function AddGame(totals: Tally, names: seq<string>, game: Tally, averages: map<string, real>): Tally {
    Tally(AddCounts(totals.gamesPlayed, names, game.gamesPlayed),
          AddValues(totals.totalUtility, names, averages),
          Merge(totals.crosstable, game.crosstable))
  }

  /** The ranking of a dictionary keyed by agent name, best first. */
  function RankingOf(names: seq<string>, m: map<string, real>): seq<Item>
    requires forall n :: n in names ==> n in m
  {
    SortDescending(Items(Dedup(names), m))
  }

  /** The totals after the first `k` games, or the error of the first game whose averages are undefined. */
  function RunGames(names: seq<string>, outcome: Outcomes, num: nat, k: nat): Result<Tally> {
    if k == 0 then Ok(StartTally(names))
    else match RunGames(names, outcome, num, k - 1)
      case DivisionByZero(a) => DivisionByZero(a)
      case Ok(totals) =>
        var game := GameTally(names, outcome, k - 1, num);
        match Averages(names, game)
          case DivisionByZero(a) => DivisionByZero(a)
          case Ok(averages) => Ok(AddGame(totals, names, game, averages))
  }

  /** `sorted_utility` of game g: its averages, best first (empty when they are undefined). */
  function GameRankingOf(names: seq<string>, outcome: Outcomes, num: nat, g: nat): seq<Item> {
    var game := GameTally(names, outcome, g, num);
    match Averages(names, game)
      case DivisionByZero(_) => []
      case Ok(averages) =>
        AveragesOk(names, game);
        RankingOf(names, averages)
  }

  /** The rankings of the first `k` games, in game order. */
  function GameRankings(names: seq<string>, outcome: Outcomes, num: nat, k: nat): seq<seq<Item>> {
    if k == 0 then [] else GameRankings(names, outcome, num, k - 1) + [GameRankingOf(names, outcome, num, k - 1)]
  }

  /** What the tournament reports: the totals, each game's ranking and the final ranking. */
  datatype Standings = Standings(gamesPlayed: map<string, nat>, totalUtility: map<string, real>, crosstable: map<string, real>,
                                 gameRankings: seq<seq<Item>>, ranking: seq<Item>)

  /** The totals always hold an entry for every agent name. */
  lemma {:induction false} RunGamesTracks(names: seq<string>, outcome: Outcomes, num: nat, k: nat)
    requires RunGames(names, outcome, num, k).Ok?
    ensures Tracks(RunGames(names, outcome, num, k).value, names)
  {
    if k > 0 {
      RunGamesTracks(names, outcome, num, k - 1);
      var totals := RunGames(names, outcome, num, k - 1).value;
      var game := GameTally(names, outcome, k - 1, num);
      var averages := Averages(names, game).value;
      forall n | n in names
        ensures n in RunGames(names, outcome, num, k).value.gamesPlayed
        ensures n in RunGames(names, outcome, num, k).value.totalUtility
      {
        AddCountsEffect(totals.gamesPlayed, names, game.gamesPlayed, n);
        AddValuesEffect(totals.totalUtility, names, averages, n);
      }
    }
  }

  /** The whole tournament over `gameCount` games. */
  function Tournament(names: seq<string>, outcome: Outcomes, num: nat, gameCount: nat): Result<Standings> {
    match RunGames(names, outcome, num, gameCount)
      case DivisionByZero(a) => DivisionByZero(a)
      case Ok(totals) =>
        RunGamesTracks(names, outcome, num, gameCount);
        Ok(Standings(totals.gamesPlayed, totals.totalUtility, totals.crosstable, GameRankings(names, outcome, num, gameCount),
                     RankingOf(names, totals.totalUtility)))
  }

  /** Once a game fails, every longer tournament fails with the same error. */
  lemma {:induction false} RunGamesStop(names: seq<string>, outcome: Outcomes, num: nat, k: nat, m: nat)
    requires k <= m && RunGames(names, outcome, num, k).DivisionByZero?
    ensures RunGames(names, outcome, num, m) == RunGames(names, outcome, num, k)
  {
    if k < m {
      RunGamesStop(names, outcome, num, k, m - 1);
    }
  }

  /** One game of the tournament loop: tally it, average and rank it, and add it to the totals. */
  method PlayTournamentGame(names: seq<string>, outcome: Outcomes, num: nat, g: nat, totals: Tally)
    returns (r: Result<Tally>, sortedUtility: seq<Item>)
    requires RunGames(names, outcome, num, g) == Ok(totals)
    ensures r == RunGames(names, outcome, num, g + 1)
    ensures r.Ok? ==> sortedUtility == GameRankingOf(names, outcome, num, g)
  {
    RunGamesTracks(names, outcome, num, g);
    var gamesPlayed, totalUtility, crosstable, calls := TallyGame(names, outcome, g, num);
    var game := Tally(gamesPlayed, totalUtility, crosstable);
    forall n | n in names
      ensures n in gamesPlayed && n in totalUtility
    {
      GamesPlayedCount(names, outcome, g, num, n);
    }
    var averages := ComputeAverages(names, game);
    if averages.DivisionByZero? {
      return DivisionByZero(averages.agent), [];
    }
    AveragesOk(names, game);
    sortedUtility := SortDescending(Items(Dedup(names), averages.value));
    var totalGamesPlayed, totalTotalUtility :=
      AccumulateTotals(names, totals.gamesPlayed, totals.totalUtility, gamesPlayed, averages.value);
    var totalCrosstable := MergeCrosstable(totals.crosstable, crosstable);
    r := Ok(Tally(totalGamesPlayed, totalTotalUtility, totalCrosstable));
  }

  /**
   * The aggregation of the tournament: for every game, play all ordered pairs, compute and
   * rank the averages, and add the game to the totals; then rank the summed averages.
   */
  method RunTournament(names: seq<string>, gameCount: nat, num: nat, outcome: Outcomes) returns (r: Result<Standings>)
    ensures r == Tournament(names, outcome, num, gameCount)
  {
    var totalGamesPlayed, totalTotalUtility := ZeroCounters(names);
    var totals := Tally(totalGamesPlayed, totalTotalUtility, map[]);
    var gameRankings: seq<seq<Item>> := [];
    for g := 0 to gameCount
      invariant RunGames(names, outcome, num, g) == Ok(totals)
      invariant gameRankings == GameRankings(names, outcome, num, g)
    {
      var next, sortedUtility := PlayTournamentGame(names, outcome, num, g, totals);
      if next.DivisionByZero? {
        RunGamesStop(names, outcome, num, g + 1, gameCount);
        return DivisionByZero(next.agent);
      }
      totals := next.value;
      gameRankings := gameRankings + [sortedUtility];
    }
    RunGamesTracks(names, outcome, num, gameCount);
    var sortedTotalUtility := SortDescending(Items(Dedup(names), totals.totalUtility));
    r := Ok(Standings(totals.gamesPlayed, totals.totalUtility, totals.crosstable, gameRankings, sortedTotalUtility));
  }

  /** Three nonzero factors give a nonzero product. */
  lemma ProductPositive(a: nat, b: nat, c: nat)
    requires a > 0 && b > 0 && c > 0
    ensures a * b * c > 0
  {
  }

  /**
   * A game's averages are defined exactly when every agent has an opponent and the pairs
   * play at least once: otherwise every agent's `games_played` is 0.
   */
  lemma GameAveragesOk(names: seq<string>, outcome: Outcomes, g: nat, num: nat)
    ensures Averages(names, GameTally(names, outcome, g, num)).Ok? <==> |names| == 0 || (|names| >= 2 && num > 0)
    ensures |names| > 0 && (|names| < 2 || num == 0) ==> Played(GameTally(names, outcome, g, num), names[0]) == 0
  {
    var t := GameTally(names, outcome, g, num);
    AveragesOk(names, t);
    if |names| >= 2 && num > 0 {
      forall k | 0 <= k < |names|
        ensures Played(t, names[k]) > 0
      {
        GamesPlayedCount(names, outcome, g, num, names[k]);
        CountPositive(names, names[k]);
        ProductPositive(2 * (|names| - 1), num, Count(names, names[k]));
      }
    } else if |names| > 0 {
      GamesPlayedCount(names, outcome, g, num, names[0]);
      assert 2 * (|names| - 1) * num == 0;
    }
  }

  /** The first `k` games succeed when the first `k - 1` do and the averages of game `k - 1` are defined. */
  lemma RunGamesStep(names: seq<string>, outcome: Outcomes, num: nat, k: nat)
    requires k > 0
    ensures RunGames(names, outcome, num, k).Ok?
            <==> RunGames(names, outcome, num, k - 1).Ok? && Averages(names, GameTally(names, outcome, k - 1, num)).Ok?
  {
  }

  /** The first `k` games succeed exactly when no game can fail, or there are no games. */
  lemma {:induction false} RunGamesOk(names: seq<string>, outcome: Outcomes, num: nat, k: nat)
    ensures RunGames(names, outcome, num, k).Ok? <==> k == 0 || |names| == 0 || (|names| >= 2 && num > 0)
  {
    if k > 0 {
      RunGamesOk(names, outcome, num, k - 1);
      GameAveragesOk(names, outcome, k - 1, num);
      RunGamesStep(names, outcome, num, k);
    }
  }

  /**
   * The tournament raises exactly when it plays a game with at least one agent and fewer
   * than two agents or no repetitions; the error names the first agent.
   */
  lemma TournamentFails(names: seq<string>, outcome: Outcomes, num: nat, gameCount: nat)
    ensures Tournament(names, outcome, num, gameCount).DivisionByZero?
            <==> gameCount > 0 && |names| > 0 && (|names| < 2 || num == 0)
    ensures Tournament(names, outcome, num, gameCount).DivisionByZero? ==>
              Tournament(names, outcome, num, gameCount).agent == names[0]
  {
    RunGamesOk(names, outcome, num, gameCount);
    if gameCount > 0 && |names| > 0 && (|names| < 2 || num == 0) {
      var t := GameTally(names, outcome, 0, num);
      GameAveragesOk(names, outcome, 0, num);
      AveragesError(names, t);
      assert RunGames(names, outcome, num, 1) == DivisionByZero(Averages(names, t).agent);
      RunGamesStop(names, outcome, num, 1, gameCount);
    }
  }

  /** `games_played[n]` summed over the first `k` games. */
  function PlayedSum(names: seq<string>, outcome: Outcomes, num: nat, k: nat, n: string): nat {
    if k == 0 then 0 else PlayedSum(names, outcome, num, k - 1, n) + Played(GameTally(names, outcome, k - 1, num), n)
  }

  /** `average_utility[n]` of game g (0 when `n` played no match there). */
  function GameAverage(names: seq<string>, outcome: Outcomes, num: nat, g: nat, n: string): real {
    var t := GameTally(names, outcome, g, num);
    if Played(t, n) == 0 then 0.0 else Average(t, n)
  }

  /** The averages of `n` summed over the first `k` games. */
  function AverageSum(names: seq<string>, outcome: Outcomes, num: nat, k: nat, n: string): real {
    if k == 0 then 0.0 else AverageSum(names, outcome, num, k - 1, n) + GameAverage(names, outcome, num, k - 1, n)
  }

  /** `crosstable[key]` summed over the first `k` games (0 where a game has no such key). */
  function CrossSum(names: seq<string>, outcome: Outcomes, num: nat, k: nat, key: string): real {
    if k == 0 then 0.0 else CrossSum(names, outcome, num, k - 1, key) + Get(GameTally(names, outcome, k - 1, num).crosstable, key, 0.0)
  }

  /** The totals after `k` successful games. */
  function TotalsAfter(names: seq<string>, outcome: Outcomes, num: nat, k: nat): Tally
    requires RunGames(names, outcome, num, k).Ok?
  {
    RunGames(names, outcome, num, k).value
  }

  /**
   * `total_games_played[n]` is the per-game counts summed over the games, once per agent
   * that carries the name.
   */
  lemma {:induction false} TotalGamesPlayed(names: seq<string>, outcome: Outcomes, num: nat, k: nat, n: string)
    requires RunGames(names, outcome, num, k).Ok? && n in names
    ensures Played(TotalsAfter(names, outcome, num, k), n) == Count(names, n) * PlayedSum(names, outcome, num, k, n)
  {
    if k > 0 {
      TotalGamesPlayed(names, outcome, num, k - 1, n);
      var totals := RunGames(names, outcome, num, k - 1).value;
      var game := GameTally(names, outcome, k - 1, num);
      AddCountsEffect(totals.gamesPlayed, names, game.gamesPlayed, n);
      MulAdd(Count(names, n), PlayedSum(names, outcome, num, k - 1, n), Played(game, n));
    }
  }

  /** `c` copies of a sum are the sums of `c` copies. */
  lemma {:induction false} CopiesAdd(c: nat, x: real, y: real)
    ensures Copies(c, x + y) == Copies(c, x) + Copies(c, y)
  {
    if c > 0 {
      CopiesAdd(c - 1, x, y);
    }
  }

  /**
   * `total_total_utility[n]` is the sum of the per-game averages, added once per agent that
   * carries the name (`Copies`), and not weighted by the games played.
   */
  lemma {:induction false} TotalUtility(names: seq<string>, outcome: Outcomes, num: nat, k: nat, n: string)
    requires RunGames(names, outcome, num, k).Ok? && n in names
    ensures Earned(TotalsAfter(names, outcome, num, k), n) == Copies(Count(names, n), AverageSum(names, outcome, num, k, n))
  {
    if k == 0 {
      assert Copies(Count(names, n), 0.0) == 0.0 by {
        CopiesProduct(Count(names, n), 0.0);
      }
    } else {
      TotalUtility(names, outcome, num, k - 1, n);
      var totals := RunGames(names, outcome, num, k - 1).value;
      var game := GameTally(names, outcome, k - 1, num);
      var averages := Averages(names, game).value;
      AveragesOk(names, game);
      AddValuesEffect(totals.totalUtility, names, averages, n);
      CopiesAdd(Count(names, n), AverageSum(names, outcome, num, k - 1, n), GameAverage(names, outcome, num, k - 1, n));
    }
  }

  /** With distinct names, every agent played `2 (N - 1) num` matches in every game. */
  lemma {:induction false} PlayedSumDistinct(names: seq<string>, outcome: Outcomes, num: nat, k: nat, a: nat)
    requires a < |names| && forall i, j :: 0 <= i < j < |names| ==> names[i] != names[j]
    ensures PlayedSum(names, outcome, num, k, names[a]) == k * (2 * (|names| - 1) * num)
  {
    if k > 0 {
      PlayedSumDistinct(names, outcome, num, k - 1, a);
      GamesPlayedDistinct(names, outcome, k - 1, num, a);
      OneMore(k - 1, 2 * (|names| - 1) * num);
    }
  }

  /**
   * With distinct names, the totals of an agent are `k` times its per-game count and the
   * plain sum of its per-game averages.
   */
  lemma DistinctTotals(names: seq<string>, outcome: Outcomes, num: nat, k: nat, a: nat)
    requires RunGames(names, outcome, num, k).Ok?
    requires a < |names| && forall i, j :: 0 <= i < j < |names| ==> names[i] != names[j]
    ensures Played(TotalsAfter(names, outcome, num, k), names[a]) == k * (2 * (|names| - 1) * num)
    ensures Earned(TotalsAfter(names, outcome, num, k), names[a]) == AverageSum(names, outcome, num, k, names[a])
  {
    CountDistinct(names, a);
    TotalGamesPlayed(names, outcome, num, k, names[a]);
    PlayedSumDistinct(names, outcome, num, k, a);
    TotalUtility(names, outcome, num, k, names[a]);
  }

  /**
   * `total_crosstable[key]` is the sum of the games' `crosstable[key]`; its keys are the
   * keys of one game, once a game has been played.
   */
  lemma {:induction false} TotalCrosstable(names: seq<string>, outcome: Outcomes, num: nat, k: nat, key: string)
    requires RunGames(names, outcome, num, k).Ok?
    ensures Get(TotalsAfter(names, outcome, num, k).crosstable, key, 0.0) == CrossSum(names, outcome, num, k, key)
    ensures key in TotalsAfter(names, outcome, num, k).crosstable <==> k > 0 && key in PairKeys(names)
  {
    if k > 0 {
      TotalCrosstable(names, outcome, num, k - 1, key);
      var totals := RunGames(names, outcome, num, k - 1).value;
      var game := GameTally(names, outcome, k - 1, num);
      MergeEffect(totals.crosstable, game.crosstable, key);
      CrosstableKeys(names, outcome, k - 1, num);
    }
  }

  /** The rankings list holds one ranking per game, in game order. */
  lemma {:induction false} GameRankingsAt(names: seq<string>, outcome: Outcomes, num: nat, k: nat, g: nat)
    requires g < k
    ensures |GameRankings(names, outcome, num, k)| == k
    ensures GameRankings(names, outcome, num, k)[g] == GameRankingOf(names, outcome, num, g)
  {
    if g < k - 1 {
      GameRankingsAt(names, outcome, num, k - 1, g);
    } else if k > 1 {
      GameRankingsAt(names, outcome, num, k - 1, 0);
    }
  }

  /**
   * In a tournament that completes, the ranking of game g is best first and lists every agent
   * name once, with its average in that game, and nothing else.
   */
  lemma GameRanking(names: seq<string>, outcome: Outcomes, num: nat, gameCount: nat, g: nat, n: string)
    requires Tournament(names, outcome, num, gameCount).Ok? && g < gameCount
    ensures |Tournament(names, outcome, num, gameCount).value.gameRankings| == gameCount
    ensures Descending(Tournament(names, outcome, num, gameCount).value.gameRankings[g])
    ensures var r := Tournament(names, outcome, num, gameCount).value.gameRankings[g];
            && (n in names ==> multiset(r)[(n, GameAverage(names, outcome, num, g, n))] == 1)
            && forall v :: (n in names ==> v != GameAverage(names, outcome, num, g, n)) ==> multiset(r)[(n, v)] == 0
  {
    GameRankingsAt(names, outcome, num, gameCount, g);
    RunGamesOk(names, outcome, num, gameCount);
    GameAveragesOk(names, outcome, g, num);
    var game := GameTally(names, outcome, g, num);
    AveragesOk(names, game);
    RankingOfMap(Dedup(names), Averages(names, game).value, n);
  }

  /**
   * The final ranking is best first and lists every agent name once, with its summed
   * average, and nothing else.
   */
  lemma FinalRanking(names: seq<string>, outcome: Outcomes, num: nat, gameCount: nat, n: string)
    requires Tournament(names, outcome, num, gameCount).Ok?
    ensures Descending(Tournament(names, outcome, num, gameCount).value.ranking)
    ensures var s := Tournament(names, outcome, num, gameCount).value;
            && (n in names ==> multiset(s.ranking)[(n, Get(s.totalUtility, n, 0.0))] == 1)
            && forall v :: (n in names ==> v != Get(s.totalUtility, n, 0.0)) ==> multiset(s.ranking)[(n, v)] == 0
  {
    RunGamesTracks(names, outcome, num, gameCount);
    RankingOfMap(Dedup(names), RunGames(names, outcome, num, gameCount).value.totalUtility, n);
  }
}
