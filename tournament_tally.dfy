/**
 * The per-game statistics of a tournament: for every ordered pair of distinct agents
 * (agent i as player 0, agent j as player 1, in list order) `num` matches are played; each
 * match adds one to both agents' `games_played` and each side's utility to its agent's
 * `total_utility`, and the pair's mean result is written into the cross table under the
 * keys `"A-vs-B"` and `"B-vs-A"`.
 *
 * Agents are told apart by their position in the list; the dictionaries are keyed by
 * name, as in the source, so two agents that share a name share their entries.
 */
module TournamentTally {
  import opened Payoff

  /**
   * `outcome(g, i, j, r)`: the average utility pair `play_game` returned for the r-th
   * repetition of game g with agent i as player 0 and agent j as player 1.
   */
  type Outcomes = (nat, nat, nat, nat) -> Utility

  /** The cross-table key `a + '-vs-' + b`. */
  function Key(a: string, b: string): string {
    a + "-vs-" + b
  }

  function NameSet(names: seq<string>): set<string> {
    set n | n in names
  }

  /** How many agents in `names` carry the name `n`. */
  function Count<T(==)>(names: seq<T>, n: T): nat {
    if names == [] then 0
    else Count(names[..|names| - 1], n) + Hit(names[|names| - 1], n)
  }

  /** The three dictionaries of one game: `games_played`, `total_utility`, `crosstable`. */
  datatype Tally = Tally(gamesPlayed: map<string, nat>, totalUtility: map<string, real>, crosstable: map<string, real>)

  /** The entry of `n` in `m`, or `d` when there is none. */
  function Get<V>(m: map<string, V>, n: string, d: V): V {
    if n in m then m[n] else d
  }

  /** `games_played[n]` (0 before the name has an entry). */
  function Played(t: Tally, n: string): nat {
    Get(t.gamesPlayed, n, 0)
  }

  /** `total_utility[n]` (0 before the name has an entry). */
  function Earned(t: Tally, n: string): real {
    Get(t.totalUtility, n, 0.0)
  }

  /** `games_played` and `total_utility` hold an entry for every agent name. */
  ghost predicate Tracks(t: Tally, names: seq<string>) {
    forall n :: n in names ==> n in t.gamesPlayed && n in t.totalUtility
  }

  /** Both counters set to 0 for every agent, an empty cross table. */
  function StartTally(names: seq<string>): (t: Tally)
    ensures Tracks(t, names)
    ensures forall n :: Played(t, n) == 0 && Earned(t, n) == 0.0
  {
    Tally(map n | n in names :: 0, map n | n in names :: 0.0, map[])
  }

  /** One match between agents named `a1` (player 0) and `a2` (player 1) with result `u`. */
  function RecordPlay(t: Tally, a1: string, a2: string, u: Utility): Tally {
    var played := t.gamesPlayed[a1 := Played(t, a1) + 1];
    var total := t.totalUtility[a1 := Earned(t, a1) + u.u0];
    Tally(played[a2 := Get(played, a2, 0) + 1], total[a2 := Get(total, a2, 0.0) + u.u1], t.crosstable)
  }

  /**
   * A match adds one to a name's count per side it played, adds that side's utility to
   * its total, gives entries to the two names only, and leaves the cross table alone;
   * when both agents share a name, both sides count.
   */
  lemma RecordPlayEffect(t: Tally, a1: string, a2: string, u: Utility, n: string)
    ensures var r := RecordPlay(t, a1, a2, u);
            && Played(r, n) == Played(t, n) + (if n == a1 then 1 else 0) + (if n == a2 then 1 else 0)
            && Earned(r, n) == Earned(t, n) + (if n == a1 then u.u0 else 0.0) + (if n == a2 then u.u1 else 0.0)
            && (n in r.gamesPlayed <==> n in t.gamesPlayed || n == a1 || n == a2)
            && (n in r.totalUtility <==> n in t.totalUtility || n == a1 || n == a2)
            && r.crosstable == t.crosstable
  {
  }

  /** The first `r` repetitions between agents i and j. */
  function PlayReps(t: Tally, names: seq<string>, outcome: Outcomes, g: nat, i: nat, j: nat, r: nat): Tally
    requires i < |names| && j < |names|
  {
    if r == 0 then t
    else RecordPlay(PlayReps(t, names, outcome, g, i, j, r - 1), names[i], names[j], outcome(g, i, j, r - 1))
  }

  /** `current_utilities` after the first `r` repetitions: the sum of their results. */
  function Sum(outcome: Outcomes, g: nat, i: nat, j: nat, r: nat): Utility {
    if r == 0 then Zero else Sum(outcome, g, i, j, r - 1).Plus(outcome(g, i, j, r - 1))
  }

  /**
   * `current_utilities /= num`. With `num == 0` numpy produces NaN; the model writes
   * `Zero` instead (the tournament then fails on the division by zero that follows).
   */
  function Mean(outcome: Outcomes, g: nat, i: nat, j: nat, num: nat): Utility {
    if num == 0 then Zero else Sum(outcome, g, i, j, num).DividedBy(num)
  }

  /** The cross-table key of agents i and j. */
  function PairKey(names: seq<string>, i: nat, j: nat): string
    requires i < |names| && j < |names|
  {
    Key(names[i], names[j])
  }

  /** The two cross-table writes of the pair (i, j): `crosstable[x1]` then `crosstable[x2]`. */
  function WriteMeans(ct: map<string, real>, names: seq<string>, i: nat, j: nat, mean: Utility): map<string, real>
    requires i < |names| && j < |names|
  {
    ct[PairKey(names, i, j) := mean.u0][PairKey(names, j, i) := mean.u1]
  }

  /**
   * All repetitions of the pair (i, j), then the two cross-table writes (the repetitions
   * leave the cross table alone, `PlayRepsEffect`).
   */
  function PlayPair(t: Tally, names: seq<string>, outcome: Outcomes, g: nat, num: nat, i: nat, j: nat): Tally
    requires i < |names| && j < |names|
  {
    var played := PlayReps(t, names, outcome, g, i, j, num);
    Tally(played.gamesPlayed, played.totalUtility, WriteMeans(t.crosstable, names, i, j, Mean(outcome, g, i, j, num)))
  }

  /** The pairs (i, 0), ..., (i, j - 1) in order, skipping (i, i). */
  function PlayRow(t: Tally, names: seq<string>, outcome: Outcomes, g: nat, num: nat, i: nat, j: nat): Tally
    requires i < |names| && j <= |names|
  {
    if j == 0 then t
    else
      var before := PlayRow(t, names, outcome, g, num, i, j - 1);
      if i == j - 1 then before else PlayPair(before, names, outcome, g, num, i, j - 1)
  }

  /** The first `i` rows, starting from the zeroed counters. */
  function PlayRows(names: seq<string>, outcome: Outcomes, g: nat, num: nat, i: nat): Tally
    requires i <= |names|
  {
    if i == 0 then StartTally(names)
    else PlayRow(PlayRows(names, outcome, g, num, i - 1), names, outcome, g, num, i - 1, |names|)
  }

  /** The dictionaries once every ordered pair of distinct agents has played game g. */
  function GameTally(names: seq<string>, outcome: Outcomes, g: nat, num: nat): Tally {
    PlayRows(names, outcome, g, num, |names|)
  }

  /**
   * The `r` repetitions between agents i and j add `r` to each name's count per side it
   * played and that side's summed utility to its total, and keep every entry; the cross
   * table is untouched.
   */
  lemma {:induction false} PlayRepsEffect(t: Tally, names: seq<string>, outcome: Outcomes, g: nat, i: nat, j: nat, r: nat, n: string)
    requires i < |names| && j < |names|
    ensures var s := PlayReps(t, names, outcome, g, i, j, r);
            && Played(s, n) == Played(t, n) + (if n == names[i] then r else 0) + (if n == names[j] then r else 0)
            && Earned(s, n) == Earned(t, n) + (if n == names[i] then Sum(outcome, g, i, j, r).u0 else 0.0)
                                            + (if n == names[j] then Sum(outcome, g, i, j, r).u1 else 0.0)
            && (n in t.gamesPlayed ==> n in s.gamesPlayed)
            && (n in t.totalUtility ==> n in s.totalUtility)
            && s.crosstable == t.crosstable
  {
    if r > 0 {
      PlayRepsEffect(t, names, outcome, g, i, j, r - 1, n);
      var prev, u := PlayReps(t, names, outcome, g, i, j, r - 1), outcome(g, i, j, r - 1);
      RecordPlayEffect(prev, names[i], names[j], u, n);
      var before, after := Sum(outcome, g, i, j, r - 1), Sum(outcome, g, i, j, r);
      assert after.u0 == before.u0 + u.u0 && after.u1 == before.u1 + u.u1;
    }
  }

  /** The repetitions never touch the cross table. */
  lemma {:induction false} PlayRepsCrosstable(t: Tally, names: seq<string>, outcome: Outcomes, g: nat, i: nat, j: nat, r: nat)
    requires i < |names| && j < |names|
    ensures PlayReps(t, names, outcome, g, i, j, r).crosstable == t.crosstable
  {
    if r > 0 {
      PlayRepsCrosstable(t, names, outcome, g, i, j, r - 1);
    }
  }

  /** The matches `n` plays in the pair (i, q): `num` per side it takes. */
  function PairGames<T(==)>(names: seq<T>, n: T, num: nat, i: nat, q: nat): nat
    requires i < |names| && q < |names|
  {
    (if names[i] == n then num else 0) + (if names[q] == n then num else 0)
  }

  /** The matches `n` plays over the pairs (i, 0), ..., (i, j - 1), skipping (i, i). */
  function RowGames<T(==)>(names: seq<T>, n: T, num: nat, i: nat, j: nat): nat
    requires i < |names| && j <= |names|
  {
    if j == 0 then 0
    else RowGames(names, n, num, i, j - 1) + (if i == j - 1 then 0 else PairGames(names, n, num, i, j - 1))
  }

  /** The matches `n` plays over the first `i` rows. */
  function RowsGames<T(==)>(names: seq<T>, n: T, num: nat, i: nat): nat
    requires i <= |names|
  {
    if i == 0 then 0 else RowsGames(names, n, num, i - 1) + RowGames(names, n, num, i - 1, |names|)
  }

  /** One pair adds `PairGames` to the name's count and keeps its entries. */
  lemma PlayPairGames(t: Tally, names: seq<string>, outcome: Outcomes, g: nat, num: nat, i: nat, j: nat, n: string)
    requires i < |names| && j < |names|
    ensures var s := PlayPair(t, names, outcome, g, num, i, j);
            && Played(s, n) == Played(t, n) + PairGames(names, n, num, i, j)
            && (n in t.gamesPlayed ==> n in s.gamesPlayed)
            && (n in t.totalUtility ==> n in s.totalUtility)
  {
    PlayRepsEffect(t, names, outcome, g, i, j, num, n);
  }

  lemma {:induction false} PlayRowGames(t: Tally, names: seq<string>, outcome: Outcomes, g: nat, num: nat, i: nat, j: nat, n: string)
    requires i < |names| && j <= |names|
    ensures var s := PlayRow(t, names, outcome, g, num, i, j);
            && Played(s, n) == Played(t, n) + RowGames(names, n, num, i, j)
            && (n in t.gamesPlayed ==> n in s.gamesPlayed)
            && (n in t.totalUtility ==> n in s.totalUtility)
  {
    if j > 0 {
      PlayRowGames(t, names, outcome, g, num, i, j - 1, n);
      if i != j - 1 {
        PlayPairGames(PlayRow(t, names, outcome, g, num, i, j - 1), names, outcome, g, num, i, j - 1, n);
      }
    }
  }

  lemma {:induction false} PlayRowsGames(names: seq<string>, outcome: Outcomes, g: nat, num: nat, i: nat, n: string)
    requires i <= |names|
    ensures var s := PlayRows(names, outcome, g, num, i);
            && Played(s, n) == RowsGames(names, n, num, i)
            && (n in names ==> n in s.gamesPlayed && n in s.totalUtility)
  {
    if i > 0 {
      PlayRowsGames(names, outcome, g, num, i - 1, n);
      RowsGamesStep(names, outcome, g, num, i, n);
    }
  }

  /** Row i - 1 adds its matches to those of the earlier rows and keeps the entries. */
  lemma RowsGamesStep(names: seq<string>, outcome: Outcomes, g: nat, num: nat, i: nat, n: string)
    requires 0 < i <= |names|
    ensures var prev, s := PlayRows(names, outcome, g, num, i - 1), PlayRows(names, outcome, g, num, i);
            && Played(s, n) == Played(prev, n) + RowGames(names, n, num, i - 1, |names|)
            && (n in prev.gamesPlayed ==> n in s.gamesPlayed)
            && (n in prev.totalUtility ==> n in s.totalUtility)
  {
    PlayRowGames(PlayRows(names, outcome, g, num, i - 1), names, outcome, g, num, i - 1, |names|, n);
  }

  lemma MulAdd(k: int, x: int, y: int)
    ensures k * (x + y) == k * x + k * y
  {
  }

  /** One more opponent in a row: `num` matches per side that carries the name. */
  lemma RowStepArith(num: nat, p: int, cnt: int, e: int, b: int, q: int)
    ensures num * (p * b + cnt - e) + (num * b + num * q) == num * ((p + 1) * b + (cnt + q) - e)
  {
    MulAdd(b, p, 1);
    MulAdd(num, p * b + cnt - e, b + q);
    MulAdd(num, b, q);
  }

  /** One more row: the rows' closed form grows by the new row's closed form. */
  lemma RowsStepArith(num: nat, m: int, ci: int, i: int, c: int, b: int)
    ensures num * ((m - 2) * ci + (i - 1) * c) + num * ((m - 1) * b + c - b) == num * ((m - 2) * (ci + b) + i * c)
  {
    MulAdd(m - 2, ci, b);
    MulAdd(c, i - 1, 1);
    MulAdd(b, m - 2, 1);
    MulAdd(num, (m - 2) * ci + (i - 1) * c, (m - 1) * b + c - b);
  }

  lemma TotalArith(num: nat, m: int, c: int)
    ensures num * ((m - 2) * c + m * c) == 2 * (m - 1) * num * c
  {
    MulAdd(c, m - 2, m);
  }

  /** 1 when `x` is `n`, else 0. */
  function Hit<T(==)>(x: T, n: T): int {
    if x == n then 1 else 0
  }

  /** How many of the agents 0, ..., j - 1 are opponents of agent i. */
  function Opponents(i: nat, j: nat): int {
    if i < j then j - 1 else j
  }

  /**
   * Row i by closed form: `num` matches per opponent if agent i is named `n`, plus `num`
   * per other agent named `n`.
   */
  lemma {:induction false} RowGamesClosed<T>(names: seq<T>, n: T, num: nat, i: nat, j: nat)
    requires i < |names| && j <= |names|
    ensures RowGames(names, n, num, i, j) ==
              num * (Opponents(i, j) * Hit(names[i], n) + Count(names[..j], n) - (if i < j then Hit(names[i], n) else 0))
  {
    if j > 0 {
      RowGamesClosed(names, n, num, i, j - 1);
      assert names[..j][..j - 1] == names[..j - 1];
      assert Count(names[..j], n) == Count(names[..j - 1], n) + Hit(names[j - 1], n);
      if i != j - 1 {
        assert PairGames(names, n, num, i, j - 1) == num * Hit(names[i], n) + num * Hit(names[j - 1], n);
        RowStepArith(num, Opponents(i, j - 1), Count(names[..j - 1], n), if i < j - 1 then Hit(names[i], n) else 0,
                     Hit(names[i], n), Hit(names[j - 1], n));
      }
    }
  }

  lemma {:induction false} RowsGamesClosed<T>(names: seq<T>, n: T, num: nat, i: nat)
    requires i <= |names|
    ensures RowsGames(names, n, num, i) == num * ((|names| - 2) * Count(names[..i], n) + i * Count(names, n))
  {
    if i > 0 {
      RowsGamesClosed(names, n, num, i - 1);
      RowGamesClosed(names, n, num, i - 1, |names|);
      assert names[..|names|] == names;
      assert names[..i][..i - 1] == names[..i - 1];
      assert Count(names[..i], n) == Count(names[..i - 1], n) + Hit(names[i - 1], n);
      RowsStepArith(num, |names|, Count(names[..i - 1], n), i, Count(names, n), Hit(names[i - 1], n));
    }
  }

  /**
   * Per game, each agent name plays 2 * (N - 1) * num matches per agent carrying it:
   * every agent meets each of the N - 1 others `num` times on each side.
   */
  lemma GamesPlayedCount(names: seq<string>, outcome: Outcomes, g: nat, num: nat, n: string)
    requires n in names
    ensures var t := GameTally(names, outcome, g, num);
            && n in t.gamesPlayed && n in t.totalUtility
            && t.gamesPlayed[n] == 2 * (|names| - 1) * num * Count(names, n)
  {
    PlayRowsGames(names, outcome, g, num, |names|, n);
    RowsGamesClosed(names, n, num, |names|);
    assert names[..|names|] == names;
    TotalArith(num, |names|, Count(names, n));
  }

  /** `n` occurs in `names` exactly when it is counted at least once. */
  lemma {:induction false} CountPositive(names: seq<string>, n: string)
    ensures n in names <==> Count(names, n) > 0
  {
    if names != [] {
      CountPositive(names[..|names| - 1], n);
      assert names == names[..|names| - 1] + [names[|names| - 1]];
    }
  }

  /** With distinct names, every agent plays exactly 2 * (N - 1) * num matches per game. */
  lemma GamesPlayedDistinct(names: seq<string>, outcome: Outcomes, g: nat, num: nat, k: nat)
    requires k < |names| && forall a, b :: 0 <= a < b < |names| ==> names[a] != names[b]
    ensures var t := GameTally(names, outcome, g, num);
            names[k] in t.gamesPlayed && t.gamesPlayed[names[k]] == 2 * (|names| - 1) * num
  {
    GamesPlayedCount(names, outcome, g, num, names[k]);
    CountDistinct(names, k);
  }

  lemma {:induction false} CountDistinct(names: seq<string>, k: nat)
    requires k < |names| && forall a, b :: 0 <= a < b < |names| ==> names[a] != names[b]
    ensures Count(names, names[k]) == 1
  {
    var last := |names| - 1;
    assert names == names[..last] + [names[last]];
    if k < last {
      CountDistinct(names[..last], k);
    } else {
      assert names[k] !in names[..last];
      CountPositive(names[..last], names[k]);
    }
  }

  /** No two ordered pairs of distinct agents share a cross-table key. */
  ghost predicate DistinctKeys(names: seq<string>) {
    forall i, j, p, q {:trigger PairKey(names, i, j), PairKey(names, p, q)} ::
      (0 <= i < |names| && 0 <= j < |names| && 0 <= p < |names| && 0 <= q < |names| && i != j && p != q
       && PairKey(names, i, j) == PairKey(names, p, q)) ==> i == p && j == q
  }

  /** The keys of all ordered pairs of distinct agents. */
  function PairKeys(names: seq<string>): set<string> {
    set p, q | 0 <= p < |names| && 0 <= q < |names| && p != q :: PairKey(names, p, q)
  }

  /** The cross-table writes of the pairs (i, 0), ..., (i, j - 1), skipping (i, i). */
  function CrossRow(ct: map<string, real>, names: seq<string>, outcome: Outcomes, g: nat, num: nat, i: nat, j: nat): map<string, real>
    requires i < |names| && j <= |names|
  {
    if j == 0 then ct
    else
      var before := CrossRow(ct, names, outcome, g, num, i, j - 1);
      if i == j - 1 then before else WriteMeans(before, names, i, j - 1, Mean(outcome, g, i, j - 1, num))
  }

  /** The cross-table writes of the first `i` rows. */
  function CrossRows(names: seq<string>, outcome: Outcomes, g: nat, num: nat, i: nat): map<string, real>
    requires i <= |names|
  {
    if i == 0 then map[] else CrossRow(CrossRows(names, outcome, g, num, i - 1), names, outcome, g, num, i - 1, |names|)
  }

  lemma {:induction false} PlayRowCross(t: Tally, names: seq<string>, outcome: Outcomes, g: nat, num: nat, i: nat, j: nat)
    requires i < |names| && j <= |names|
    ensures PlayRow(t, names, outcome, g, num, i, j).crosstable == CrossRow(t.crosstable, names, outcome, g, num, i, j)
  {
    if j > 0 {
      PlayRowCross(t, names, outcome, g, num, i, j - 1);
    }
  }

  /** The game's cross table is built by the cross-table writes alone. */
  lemma {:induction false} PlayRowsCross(names: seq<string>, outcome: Outcomes, g: nat, num: nat, i: nat)
    requires i <= |names|
    ensures PlayRows(names, outcome, g, num, i).crosstable == CrossRows(names, outcome, g, num, i)
  {
    if i > 0 {
      PlayRowsCross(names, outcome, g, num, i - 1);
      PlayRowCross(PlayRows(names, outcome, g, num, i - 1), names, outcome, g, num, i - 1, |names|);
    }
  }

  /**
   * What survives in `crosstable["A-vs-B"]` for agents i and j: the pair whose player 0
   * comes later in the list writes last, so it is agent i's side of (i, j) when i > j and
   * agent i's side of (j, i), player 1, otherwise.
   */
  function Surviving(outcome: Outcomes, g: nat, num: nat, i: nat, j: nat): real {
    if i > j then Mean(outcome, g, i, j, num).u0 else Mean(outcome, g, j, i, num).u1
  }

  /** A row only adds keys, and every key it adds is the key of an ordered pair of distinct agents. */
  lemma {:induction false} CrossRowDomain(ct: map<string, real>, names: seq<string>, outcome: Outcomes, g: nat, num: nat, i: nat, j: nat, k: string)
    requires i < |names| && j <= |names|
    ensures var s := CrossRow(ct, names, outcome, g, num, i, j);
            && (k in ct ==> k in s)
            && (k in s ==> k in ct || k in PairKeys(names))
  {
    if j > 0 {
      CrossRowDomain(ct, names, outcome, g, num, i, j - 1, k);
      if i != j - 1 {
        assert PairKey(names, i, j - 1) in PairKeys(names);
        assert PairKey(names, j - 1, i) in PairKeys(names);
      }
    }
  }

  lemma {:induction false} CrossRowsDomain(names: seq<string>, outcome: Outcomes, g: nat, num: nat, i: nat, k: string)
    requires i <= |names|
    ensures k in CrossRows(names, outcome, g, num, i) ==> k in PairKeys(names)
  {
    if i > 0 {
      CrossRowsDomain(names, outcome, g, num, i - 1, k);
      CrossRowDomain(CrossRows(names, outcome, g, num, i - 1), names, outcome, g, num, i - 1, |names|, k);
    }
  }

  /** Row i holds the keys of its pairs (i, q) and (q, i) once it has passed q. */
  lemma {:induction false} CrossRowHas(ct: map<string, real>, names: seq<string>, outcome: Outcomes, g: nat, num: nat, i: nat, j: nat, q: nat)
    requires i < |names| && j <= |names| && q < j && q != i
    ensures var s := CrossRow(ct, names, outcome, g, num, i, j);
            PairKey(names, i, q) in s && PairKey(names, q, i) in s
  {
    if q < j - 1 {
      CrossRowHas(ct, names, outcome, g, num, i, j - 1, q);
    }
  }

  lemma {:induction false} CrossRowsHas(names: seq<string>, outcome: Outcomes, g: nat, num: nat, i: nat, p: nat, q: nat)
    requires i <= |names| && p < |names| && q < |names| && p != q && (p < i || q < i)
    ensures PairKey(names, p, q) in CrossRows(names, outcome, g, num, i)
  {
    var before := CrossRows(names, outcome, g, num, i - 1);
    if p == i - 1 {
      CrossRowHas(before, names, outcome, g, num, i - 1, |names|, q);
    } else if q == i - 1 {
      CrossRowHas(before, names, outcome, g, num, i - 1, |names|, p);
    } else {
      CrossRowsHas(names, outcome, g, num, i - 1, p, q);
      CrossRowDomain(before, names, outcome, g, num, i - 1, |names|, PairKey(names, p, q));
    }
  }

  /** The cross table of a game holds exactly the keys `"A-vs-B"` of the ordered pairs of distinct agents. */
  lemma CrosstableKeys(names: seq<string>, outcome: Outcomes, g: nat, num: nat)
    ensures GameTally(names, outcome, g, num).crosstable.Keys == PairKeys(names)
  {
    PlayRowsCross(names, outcome, g, num, |names|);
    var ct := CrossRows(names, outcome, g, num, |names|);
    forall k | k in ct
      ensures k in PairKeys(names)
    {
      CrossRowsDomain(names, outcome, g, num, |names|, k);
    }
    forall k | k in PairKeys(names)
      ensures k in ct
    {
      var p, q :| 0 <= p < |names| && 0 <= q < |names| && p != q && k == PairKey(names, p, q);
      CrossRowsHas(names, outcome, g, num, |names|, p, q);
    }
  }

  /** Row i leaves the entry of every pair that does not involve agent i as it was. */
  lemma {:induction false} CrossRowKeeps(ct: map<string, real>, names: seq<string>, outcome: Outcomes, g: nat, num: nat, i: nat, j: nat, p: nat, q: nat)
    requires i < |names| && j <= |names| && DistinctKeys(names)
    requires p < |names| && q < |names| && p != q && p != i && q != i && PairKey(names, p, q) in ct
    ensures var s := CrossRow(ct, names, outcome, g, num, i, j);
            PairKey(names, p, q) in s && s[PairKey(names, p, q)] == ct[PairKey(names, p, q)]
  {
    if j > 0 {
      CrossRowKeeps(ct, names, outcome, g, num, i, j - 1, p, q);
    }
  }

  /** Once row i has passed q, it holds the mean of the pair (i, q) under both of its keys. */
  lemma {:induction false} CrossRowWrites(ct: map<string, real>, names: seq<string>, outcome: Outcomes, g: nat, num: nat, i: nat, j: nat, q: nat)
    requires i < |names| && j <= |names| && DistinctKeys(names) && q < j && q != i
    ensures var s := CrossRow(ct, names, outcome, g, num, i, j);
            && PairKey(names, i, q) in s && s[PairKey(names, i, q)] == Mean(outcome, g, i, q, num).u0
            && PairKey(names, q, i) in s && s[PairKey(names, q, i)] == Mean(outcome, g, i, q, num).u1
  {
    if q < j - 1 {
      CrossRowWrites(ct, names, outcome, g, num, i, j - 1, q);
    }
  }

  /** Row i - 1 writes the entries of the pairs that involve agent i - 1 and an earlier agent. */
  lemma CrossRowsLatest(names: seq<string>, outcome: Outcomes, g: nat, num: nat, i: nat, p: nat, q: nat)
    requires 0 < i <= |names| && DistinctKeys(names) && p < i && q < i && p != q && (p == i - 1 || q == i - 1)
    ensures var ct := CrossRows(names, outcome, g, num, i);
            PairKey(names, p, q) in ct && ct[PairKey(names, p, q)] == Surviving(outcome, g, num, p, q)
  {
    if p == i - 1 {
      CrossRowsRow(names, outcome, g, num, p, q);
    } else {
      CrossRowsRow(names, outcome, g, num, q, p);
    }
  }

  /** Row i writes the mean of each of its pairs (i, q) under both keys. */
  lemma CrossRowsRow(names: seq<string>, outcome: Outcomes, g: nat, num: nat, i: nat, q: nat)
    requires i < |names| && DistinctKeys(names) && q < |names| && q != i
    ensures var ct := CrossRows(names, outcome, g, num, i + 1);
            && PairKey(names, i, q) in ct && ct[PairKey(names, i, q)] == Mean(outcome, g, i, q, num).u0
            && PairKey(names, q, i) in ct && ct[PairKey(names, q, i)] == Mean(outcome, g, i, q, num).u1
  {
    CrossRowWrites(CrossRows(names, outcome, g, num, i), names, outcome, g, num, i, |names|, q);
  }

  /** Row i - 1 keeps the entries of the pairs of earlier agents. */
  lemma CrossRowsEarlier(names: seq<string>, outcome: Outcomes, g: nat, num: nat, i: nat, p: nat, q: nat, v: real)
    requires 0 < i <= |names| && DistinctKeys(names) && p < i - 1 && q < i - 1 && p != q
    requires var ct := CrossRows(names, outcome, g, num, i - 1); PairKey(names, p, q) in ct && ct[PairKey(names, p, q)] == v
    ensures var ct := CrossRows(names, outcome, g, num, i); PairKey(names, p, q) in ct && ct[PairKey(names, p, q)] == v
  {
    CrossRowKeeps(CrossRows(names, outcome, g, num, i - 1), names, outcome, g, num, i - 1, |names|, p, q);
  }

  lemma {:induction false} CrossRowsValue(names: seq<string>, outcome: Outcomes, g: nat, num: nat, i: nat, p: nat, q: nat)
    requires i <= |names| && DistinctKeys(names) && p < i && q < i && p != q
    ensures var ct := CrossRows(names, outcome, g, num, i);
            PairKey(names, p, q) in ct && ct[PairKey(names, p, q)] == Surviving(outcome, g, num, p, q)
  {
    if p == i - 1 || q == i - 1 {
      CrossRowsLatest(names, outcome, g, num, i, p, q);
    } else {
      CrossRowsValue(names, outcome, g, num, i - 1, p, q);
      CrossRowsEarlier(names, outcome, g, num, i, p, q, Surviving(outcome, g, num, p, q));
    }
  }

  /**
   * When no two ordered pairs share a key, `crosstable["A-vs-B"]` ends up holding the
   * mean result of the pair whose player 0 comes later in the agent list.
   */
  lemma CrosstableValues(names: seq<string>, outcome: Outcomes, g: nat, num: nat, i: nat, j: nat)
    requires DistinctKeys(names) && i < |names| && j < |names| && i != j
    ensures var ct := GameTally(names, outcome, g, num).crosstable;
            Key(names[i], names[j]) in ct && ct[Key(names[i], names[j])] == Surviving(outcome, g, num, i, j)
  {
    PlayRowsCross(names, outcome, g, num, |names|);
    CrossRowsValue(names, outcome, g, num, |names|, i, j);
    assert PairKey(names, i, j) == Key(names[i], names[j]);
  }

  /** The `play_game` calls of the pair (i, j): `num` times with agent i as player 0 and agent j as player 1. */
  function PairCalls(i: nat, j: nat, num: nat): seq<(nat, nat)> {
    if num == 0 then [] else PairCalls(i, j, num - 1) + [(i, j)]
  }

  /** The calls of the pairs (i, 0), ..., (i, j - 1), skipping (i, i). */
  function RowCalls(num: nat, i: nat, j: nat): seq<(nat, nat)> {
    if j == 0 then [] else RowCalls(num, i, j - 1) + (if i == j - 1 then [] else PairCalls(i, j - 1, num))
  }

  /** The calls of the first `i` rows of a game with `n` agents. */
  function RowsCalls(n: nat, num: nat, i: nat): seq<(nat, nat)> {
    if i == 0 then [] else RowsCalls(n, num, i - 1) + RowCalls(num, i - 1, n)
  }

  /** How many of the calls had agent p as player 0 and agent q as player 1. */
  function Times(calls: seq<(nat, nat)>, p: nat, q: nat): nat {
    TimesBefore(calls, p, q, |calls|)
  }

  /** How many of the first k calls had agent p as player 0 and agent q as player 1. */
  function TimesBefore(calls: seq<(nat, nat)>, p: nat, q: nat, k: nat): nat
    requires k <= |calls|
  {
    if k == 0 then 0
    else TimesBefore(calls, p, q, k - 1) + (if calls[k - 1].0 == p && calls[k - 1].1 == q then 1 else 0)
  }

  /** Counting in the first part of a concatenation counts in that part. */
  lemma {:induction false} TimesBeforeLeft(a: seq<(nat, nat)>, b: seq<(nat, nat)>, p: nat, q: nat, k: nat)
    requires k <= |a|
    ensures TimesBefore(a + b, p, q, k) == TimesBefore(a, p, q, k)
  {
    if k > 0 {
      TimesBeforeLeft(a, b, p, q, k - 1);
    }
  }

  /** Counting past the first part of a concatenation adds the count in the second. */
  lemma {:induction false} TimesBeforeRight(a: seq<(nat, nat)>, b: seq<(nat, nat)>, p: nat, q: nat, k: nat)
    requires k <= |b|
    ensures TimesBefore(a + b, p, q, |a| + k) == Times(a, p, q) + TimesBefore(b, p, q, k)
  {
    if k == 0 {
      TimesBeforeLeft(a, b, p, q, |a|);
    } else {
      TimesBeforeRight(a, b, p, q, k - 1);
    }
  }

  lemma TimesAppend(a: seq<(nat, nat)>, b: seq<(nat, nat)>, p: nat, q: nat)
    ensures Times(a + b, p, q) == Times(a, p, q) + Times(b, p, q)
  {
    TimesBeforeRight(a, b, p, q, |b|);
  }

  lemma {:induction false} PairCallsCount(i: nat, j: nat, num: nat, p: nat, q: nat)
    ensures Times(PairCalls(i, j, num), p, q) == if p == i && q == j then num else 0
  {
    if num > 0 {
      PairCallsCount(i, j, num - 1, p, q);
      TimesAppend(PairCalls(i, j, num - 1), [(i, j)], p, q);
      assert TimesBefore([(i, j)], p, q, 0) == 0;
      assert Times([(i, j)], p, q) == if p == i && q == j then 1 else 0;
    }
  }

  lemma {:induction false} RowCallsCount(num: nat, i: nat, j: nat, p: nat, q: nat)
    ensures Times(RowCalls(num, i, j), p, q) == if p == i && q < j && q != i then num else 0
  {
    if j > 0 {
      RowCallsCount(num, i, j - 1, p, q);
      RowCallsStep(num, i, j, p, q);
    }
  }

  /** Column j - 1 of row i adds the calls of the pair (i, j - 1), unless that is (i, i). */
  lemma RowCallsStep(num: nat, i: nat, j: nat, p: nat, q: nat)
    requires j > 0
    ensures Times(RowCalls(num, i, j), p, q) ==
              Times(RowCalls(num, i, j - 1), p, q) + if p == i && q == j - 1 && q != i then num else 0
  {
    var before := RowCalls(num, i, j - 1);
    if i != j - 1 {
      var pair := PairCalls(i, j - 1, num);
      TimesAppend(before, pair, p, q);
      PairCallsCount(i, j - 1, num, p, q);
    } else {
      assert RowCalls(num, i, j) == before + [];
      assert before + [] == before;
    }
  }

  lemma {:induction false} RowsCallsCount(n: nat, num: nat, i: nat, p: nat, q: nat)
    ensures Times(RowsCalls(n, num, i), p, q) == if p < i && q < n && p != q then num else 0
  {
    if i > 0 {
      var before, row := RowsCalls(n, num, i - 1), RowCalls(num, i - 1, n);
      var earlier, here := Times(before, p, q), Times(row, p, q);
      assert earlier == if p < i - 1 && q < n && p != q then num else 0 by {
        RowsCallsCount(n, num, i - 1, p, q);
      }
      assert here == if p == i - 1 && q < n && q != i - 1 then num else 0 by {
        RowCallsCount(num, i - 1, n, p, q);
      }
      RowsCountStep(n, num, i, p, q, earlier, here);
      assert Times(RowsCalls(n, num, i), p, q) == Times(before, p, q) + Times(row, p, q) by {
        TimesAppend(before, row, p, q);
      }
    }
  }

  /** Row i - 1 adds the calls with agent i - 1 as player 0 to those of the earlier rows. */
  lemma RowsCountStep(n: nat, num: nat, i: nat, p: nat, q: nat, earlier: nat, row: nat)
    requires i > 0
    requires earlier == if p < i - 1 && q < n && p != q then num else 0
    requires row == if p == i - 1 && q < n && q != i - 1 then num else 0
    ensures earlier + row == if p < i && q < n && p != q then num else 0
  {
  }

  /**
   * In a game with `n` agents, `play_game` is called exactly `num` times for every ordered
   * pair of distinct agents (i as player 0, j as player 1) and never for an agent and itself.
   */
  lemma GameCalls(n: nat, num: nat, i: nat, j: nat)
    ensures Times(RowsCalls(n, num, n), i, j) == if i < n && j < n && i != j then num else 0
  {
    RowsCallsCount(n, num, n, i, j);
  }

  /** `for a in agents: games_played[a.name] = 0; total_utility[a.name] = 0`. */
  method ZeroCounters(names: seq<string>) returns (gamesPlayed: map<string, nat>, totalUtility: map<string, real>)
    ensures Tally(gamesPlayed, totalUtility, map[]) == StartTally(names)
  {
    gamesPlayed, totalUtility := map[], map[];
    for k := 0 to |names|
      invariant gamesPlayed == map n | n in names[..k] :: 0
      invariant totalUtility == map n | n in names[..k] :: 0.0
    {
      assert names[..k + 1] == names[..k] + [names[k]];
      gamesPlayed := gamesPlayed[names[k] := 0];
      totalUtility := totalUtility[names[k] := 0.0];
    }
    assert names[..|names|] == names;
  }

  /** The body of the repetition loop: both agents' counters and totals take the match. */
  method RecordMatch(gamesPlayed0: map<string, nat>, totalUtility0: map<string, real>, crosstable: map<string, real>,
                     a1: string, a2: string, utilities: Utility)
    returns (gamesPlayed: map<string, nat>, totalUtility: map<string, real>)
    requires a1 in gamesPlayed0 && a2 in gamesPlayed0 && a1 in totalUtility0 && a2 in totalUtility0
    ensures Tally(gamesPlayed, totalUtility, crosstable) == RecordPlay(Tally(gamesPlayed0, totalUtility0, crosstable), a1, a2, utilities)
    ensures a1 in gamesPlayed && a2 in gamesPlayed && a1 in totalUtility && a2 in totalUtility
  {
    gamesPlayed := gamesPlayed0[a1 := gamesPlayed0[a1] + 1];
    totalUtility := totalUtility0[a1 := totalUtility0[a1] + utilities.u0];
    gamesPlayed := gamesPlayed[a2 := gamesPlayed[a2] + 1];
    totalUtility := totalUtility[a2 := totalUtility[a2] + utilities.u1];
  }

  /** `for r in range(num)`: the repetitions of the pair (i, j), summing `current_utilities`. */
  method PlayRepetitions(names: seq<string>, outcome: Outcomes, g: nat, num: nat, i: nat, j: nat,
                         gamesPlayed0: map<string, nat>, totalUtility0: map<string, real>, crosstable: map<string, real>)
    returns (gamesPlayed: map<string, nat>, totalUtility: map<string, real>, currentUtilities: Utility, calls: seq<(nat, nat)>)
    requires i < |names| && j < |names|
    requires names[i] in gamesPlayed0 && names[j] in gamesPlayed0 && names[i] in totalUtility0 && names[j] in totalUtility0
    ensures Tally(gamesPlayed, totalUtility, crosstable) == PlayReps(Tally(gamesPlayed0, totalUtility0, crosstable), names, outcome, g, i, j, num)
    ensures currentUtilities == Sum(outcome, g, i, j, num)
    ensures calls == PairCalls(i, j, num)
  {
    gamesPlayed, totalUtility := gamesPlayed0, totalUtility0;
    calls := [];
    currentUtilities := Zero;
    for r := 0 to num
      invariant Tally(gamesPlayed, totalUtility, crosstable) == PlayReps(Tally(gamesPlayed0, totalUtility0, crosstable), names, outcome, g, i, j, r)
      invariant currentUtilities == Sum(outcome, g, i, j, r)
      invariant names[i] in gamesPlayed && names[j] in gamesPlayed && names[i] in totalUtility && names[j] in totalUtility
      invariant calls == PairCalls(i, j, r)
    {
      var utilities := outcome(g, i, j, r);
      calls := calls + [(i, j)];
      gamesPlayed, totalUtility := RecordMatch(gamesPlayed, totalUtility, crosstable, names[i], names[j], utilities);
      currentUtilities := currentUtilities.Plus(utilities);
    }
  }

  /**
   * The `num` repetitions between agents i and j, accumulating `current_utilities`, then
   * the two cross-table writes of the pair's mean.
   */
  method TallyPair(names: seq<string>, outcome: Outcomes, g: nat, num: nat, i: nat, j: nat,
                   gamesPlayed0: map<string, nat>, totalUtility0: map<string, real>, crosstable0: map<string, real>)
    returns (gamesPlayed: map<string, nat>, totalUtility: map<string, real>, crosstable: map<string, real>, calls: seq<(nat, nat)>)
    requires i < |names| && j < |names|
    requires names[i] in gamesPlayed0 && names[j] in gamesPlayed0 && names[i] in totalUtility0 && names[j] in totalUtility0
    ensures Tally(gamesPlayed, totalUtility, crosstable) == PlayPair(Tally(gamesPlayed0, totalUtility0, crosstable0), names, outcome, g, num, i, j)
    ensures calls == PairCalls(i, j, num)
  {
    var x1 := names[i] + "-vs-" + names[j];
    var x2 := names[j] + "-vs-" + names[i];
    var currentUtilities;
    gamesPlayed, totalUtility, currentUtilities, calls := PlayRepetitions(names, outcome, g, num, i, j, gamesPlayed0, totalUtility0, crosstable0);
    if num == 0 {
      currentUtilities := Zero;
    } else {
      currentUtilities := currentUtilities.DividedBy(num);
    }
    crosstable := crosstable0[x1 := currentUtilities.u0];
    crosstable := crosstable[x2 := currentUtilities.u1];
  }

  /** One row of the per-game loops: agent i as player 0 against every other agent in list order. */
  method TallyRow(names: seq<string>, outcome: Outcomes, g: nat, num: nat, i: nat,
                  gamesPlayed0: map<string, nat>, totalUtility0: map<string, real>, crosstable0: map<string, real>)
    returns (gamesPlayed: map<string, nat>, totalUtility: map<string, real>, crosstable: map<string, real>, calls: seq<(nat, nat)>)
    requires i < |names| && Tracks(Tally(gamesPlayed0, totalUtility0, crosstable0), names)
    ensures Tally(gamesPlayed, totalUtility, crosstable) == PlayRow(Tally(gamesPlayed0, totalUtility0, crosstable0), names, outcome, g, num, i, |names|)
    ensures calls == RowCalls(num, i, |names|)
  {
    ghost var rowStart := Tally(gamesPlayed0, totalUtility0, crosstable0);
    gamesPlayed, totalUtility, crosstable := gamesPlayed0, totalUtility0, crosstable0;
    calls := [];
    for j := 0 to |names|
      invariant Tally(gamesPlayed, totalUtility, crosstable) == PlayRow(rowStart, names, outcome, g, num, i, j)
      invariant calls == RowCalls(num, i, j)
    {
      ghost var before := Tally(gamesPlayed, totalUtility, crosstable);
      if i != j {
        PlayRowGames(rowStart, names, outcome, g, num, i, j, names[i]);
        PlayRowGames(rowStart, names, outcome, g, num, i, j, names[j]);
        var pairCalls;
        gamesPlayed, totalUtility, crosstable, pairCalls := TallyPair(names, outcome, g, num, i, j, gamesPlayed, totalUtility, crosstable);
        calls := calls + pairCalls;
        assert Tally(gamesPlayed, totalUtility, crosstable) == PlayPair(before, names, outcome, g, num, i, j);
      }
    }
  }

  /**
   * The per-game loops of the tournament: zero both counters for every agent, then for
   * every a1, every a2 that is not a1, play `num` matches and store the pair's means.
   */
  method TallyGame(names: seq<string>, outcome: Outcomes, g: nat, num: nat)
    returns (gamesPlayed: map<string, nat>, totalUtility: map<string, real>, crosstable: map<string, real>, calls: seq<(nat, nat)>)
    ensures Tally(gamesPlayed, totalUtility, crosstable) == GameTally(names, outcome, g, num)
    ensures calls == RowsCalls(|names|, num, |names|)
  {
    gamesPlayed, totalUtility := ZeroCounters(names);
    crosstable := map[];
    calls := [];
    for i := 0 to |names|
      invariant Tally(gamesPlayed, totalUtility, crosstable) == PlayRows(names, outcome, g, num, i)
      invariant calls == RowsCalls(|names|, num, i)
    {
      forall n | n in names
        ensures n in gamesPlayed && n in totalUtility
      {
        PlayRowsGames(names, outcome, g, num, i, n);
      }
      var rowCalls;
      gamesPlayed, totalUtility, crosstable, rowCalls := TallyRow(names, outcome, g, num, i, gamesPlayed, totalUtility, crosstable);
      calls := calls + rowCalls;
    }
  }
}
