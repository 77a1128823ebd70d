# Repeated games: a verified model of the match engine, the tournament and four agents

This project models the core of a small Python framework for repeated 2x2 games.

- **The match engine** (`play_game`). It starts a match between two agents and plays rounds until a stop draw ends it. In each round it:
  - asks each agent for an action, falling back to a random 0/1 when `getAction` raises;
  - adds the payoff pair of the chosen cell to a running total;
  - tells both agents what was played.

  The match result is the per-round average.
- **The tournament aggregation** in the `__main__` block of `tournament.py`. For every game it:
  - plays every ordered pair of distinct agents `num` times;
  - fills `games_played`, `total_utility` and the cross table, whose keys are `"A-vs-B"`;
  - computes and ranks the per-agent averages;
  - folds the game into `total_games_played`, `total_total_utility` and `total_crosstable`.

  At the end it ranks the summed averages.
- **Four agents**, each a small state machine over module globals:
  - the fictitious player: opponent counts starting at [1, 1], playing a best response to the empirical mix;
  - Ethan's agent: the cooperative-cell rule;
  - the random agent;
  - the constant-0 agent.

Randomness is an input. Each round's random draws form one `RepeatedGame.Draw` record: the random agent's coin, the fallback action for each agent and the stop draw. In the tournament, what `play_game` returns for game `g`, pair `(i, j)` and repetition `r` is the oracle `TournamentTally.Outcomes`. Payoffs and utilities are exact `real`s.

Files, one module each:

| file | module | models |
|---|---|---|
| `payoff.dfy` | `Payoff` | actions, the payoff tensor `game[a0][a1][player]`, utility pairs, running totals |
| `opponent_history.dfy` | `OpponentHistory` | the opponent-action counter shared by three agents |
| `fictitious_agent.dfy` | `Fictitious` | `agents/fictitious_agent.py` |
| `ethan_agent.dfy` | `Ethan` | `agents/ethan_agent.py` |
| `random_agent.dfy` | `RandomPlay` | `agents/random_agent.py` |
| `constant0_agent.dfy` | `Constant0` | `agents/constant0_agent.py` |
| `agents.dfy` | `Agents` | the agent interface the engine calls, as a closed sum over the four agents |
| `play_repeated_game.dfy` | `RepeatedGame` | `play_game` |
| `tournament_tally.dfy` | `TournamentTally` | the per-game dictionaries of one game |
| `ranking.dfy` | `Ranking` | `sorted(d.items(), key=value, reverse=True)` |
| `tournament.dfy` | `Tournament` | averages, totals across games, rankings |

How the agents are modelled:
- Each agent's module globals are the fields of a class. `StartGame` and `Update` are methods that modify the object.
- Each method is proved against a pure model of the same state: a state value plus `StartGameState`, `UpdateState` and `GetAction` functions.
- `getAction` does not change any global, so it is a function of the state. Its result can be an exception (`ActionResult.Raised`).

How the loops are modelled:
- The engine's round loop and the tournament's loops are methods with loop invariants.
- Each method is proved equal to a specification function: `RepeatedGame.Match`, `TournamentTally.GameTally` and `Tournament.Tournament`.
- The properties are proved about those functions.

## Model

| member | source | states |
|---|---|---|
| Payoff.Other | agents/fictitious_agent.py:27 | `not my_index` names the other player: the result is never the index itself |
| Payoff.TotalPayoffAppend | play_repeated_game.py:93-94 | one more round adds exactly that round's payoff pair `game[a0][a1]` to the running total |
| Payoff.ConstantGameTotal | play_repeated_game.py:93-94 | when every cell holds the pair u, the total after n rounds is n times u |
| Payoff.ConstantGameAverage | play_repeated_game.py:124 | when every cell holds the pair u, the per-round average of any non-empty match is exactly u |
| OpponentHistory.Observe | agents/random_agent.py:27-28 | `update` adds exactly 1 to the count of the opponent's action `actions[1-i]`, leaves the other count alone, and so raises the sum by 1 |
| OpponentHistory.Restart | agents/random_agent.py:14-17 | `startGame` stores the game and puts the counts back to their initial value |
| OpponentHistory.Record | agents/random_agent.py:26-28 | `update` keeps the stored game and updates the counts as `Observe` does |
| OpponentHistory.ObserveAllCounts | agents/random_agent.py:17-28 | after a run of updates, each count is its initial value plus the number of updates in which the opponent played that action |
| OpponentHistory.ObserveAllTotal | agents/random_agent.py:17-28 | after a run of updates, the sum of the counts is the initial sum plus the number of updates |
| Constant0.CountsSinceStart | agents/constant0_agent.py:15-26 | after `startGame`, `sum(history)` is the number of `update` calls, and each entry counts the opponent's plays of that action |
| Constant0.Constant0Agent.constructor | agents/constant0_agent.py:1-3 | at load the name is "Constant0", no game is stored and the history is [0, 0] |
| Constant0.Constant0Agent.StartGame | agents/constant0_agent.py:12-15 | the new globals are the stored game and the history [0, 0] |
| Constant0.Constant0Agent.Update | agents/constant0_agent.py:24-26 | the new globals are the old ones with the opponent's action counted, and the other entry is unchanged |
| Agents.FixedPolicies | agents/constant0_agent.py:36-40 | the constant-0 agent always chooses 0 and never raises; the random agent chooses its coin, whatever the state |
| RandomPlay.CountsSinceStart | agents/random_agent.py:17-28 | after `startGame`, `sum(history)` is the number of `update` calls, and each entry counts the opponent's plays of that action |
| RandomPlay.RandomAgent.constructor | agents/random_agent.py:3-5 | at load the name is "Random", no game is stored and the history is [0, 0] |
| RandomPlay.RandomAgent.StartGame | agents/random_agent.py:14-17 | the new globals are the stored game and the history [0, 0] |
| RandomPlay.RandomAgent.Update | agents/random_agent.py:26-28 | the new globals are the old ones with the opponent's action counted, and the other entry is unchanged |
| Fictitious.StartGameState | agents/fictitious_agent.py:14-17 | after `startGame` both counts are at least 1 and they sum to 2 |
| Fictitious.UpdateState | agents/fictitious_agent.py:26-28 | `update` keeps both counts at least 1 |
| Fictitious.Mixed | agents/fictitious_agent.py:37 | the empirical mix `h/sum(history)` is defined for positive counts, has non-negative entries and sums to 1 |
| Fictitious.ExpectedValues | agents/fictitious_agent.py:42 | `game[:,:,0].dot(p)` gives one expected value per own action |
| Fictitious.ArgMax | agents/fictitious_agent.py:45 | `np.argmax` returns an index of a maximum and the first one: every earlier entry is strictly smaller |
| Fictitious.BestResponseIsStrictImprovement | agents/fictitious_agent.py:42-45 | the best response is 1 exactly when action 1's expected value strictly exceeds action 0's; ties go to 0 |
| Fictitious.BestResponseFromCounts | agents/fictitious_agent.py:37-45 | the best response is 1 exactly when the count-weighted payoff gain of action 1 over action 0, for player 0, is positive |
| Fictitious.BestResponseReadsPlayer0Payoffs | agents/fictitious_agent.py:40-42 | two games that agree on player 0's payoffs give the same best response, whatever index the agent plays at |
| Fictitious.NeverRaisesOnceStarted | agents/fictitious_agent.py:47-60 | after `startGame` and any number of updates, the counts stay positive and `getAction` returns an action |
| Fictitious.FictitiousAgent.constructor | agents/fictitious_agent.py:3-5 | at load the name is "FictitiousPlayer", no game is stored and the history is [1, 1] |
| Fictitious.FictitiousAgent.StartGame | agents/fictitious_agent.py:14-17 | the new globals are the stored game and the history [1, 1] |
| Fictitious.FictitiousAgent.Update | agents/fictitious_agent.py:26-28 | the new globals are the old ones with the opponent's action counted; the other entry is unchanged and the counts stay positive |
| Ethan.MaxSum | agents/ethan_agent.py:33-34 | `sum(max(rewards, key=sum))` bounds the reward sum of every cell and is the sum of one of them |
| Ethan.WithSum | agents/ethan_agent.py:36-38 | the filter keeps exactly the cells whose reward sum equals the given sum |
| Ethan.WithSumNoDuplicates | agents/ethan_agent.py:36-38 | filtering the four distinct cells yields no cell twice |
| Ethan.CoopPairsAreTheMaximalCells | agents/ethan_agent.py:33-38 | `coop_action_pairs` is non-empty, repeats no pair, and holds exactly the cells whose reward sum is maximal |
| Ethan.MoreThanOneIffTwoDistinct | agents/ethan_agent.py:52 | a list without duplicates has more than one entry exactly when it holds two different entries |
| Ethan.TwoOptimalIffTie | agents/ethan_agent.py:52 | `two_optimal_actions` holds exactly when two different cells tie for the maximal reward sum |
| Ethan.GetCoopActionPairs | agents/ethan_agent.py:13-40 | the filtering loop returns `CoopPairs(g)`, the cells of maximal reward sum in cell order |
| Ethan.StartGameState | agents/ethan_agent.py:49-52 | `startGame` stores the game, resets `prev_actions` to [0, 0], recomputes the coop pairs and `two_optimal_actions`, and keeps `my_idx` |
| Ethan.UpdateState | agents/ethan_agent.py:60-63 | `update(i, actions)` sets `my_idx = i` and copies both actions into `prev_actions`; the rest is unchanged |
| Ethan.StartGameStarts | agents/ethan_agent.py:49-52 | after `startGame` the agent is in a started state |
| Ethan.NeverRaisesOnceStarted | agents/ethan_agent.py:66-89 | once started, `getAction` returns an action, and `update` keeps the agent started |
| Ethan.CoinIsNeverUsed | agents/ethan_agent.py:70-71 | `no_optimal_actions` stays False, so the random branch is unreachable and the coin never matters |
| Ethan.SingleCoopPairAsPlayer0 | agents/ethan_agent.py:80-83 | with one coop pair, at index 0 the agent plays `coop_pair[0]` if the opponent's last action equals `coop_pair[1]`, and its complement otherwise |
| Ethan.SingleCoopPairAsPlayer1 | agents/ethan_agent.py:80-83 | at index 1, `opp_idx` is still 1, so the agent compares its own last action with `coop_pair[1]` and plays `coop_pair[1]` or its complement |
| Ethan.SeveralCoopPairsAsPlayer0 | agents/ethan_agent.py:73-77 | with several coop pairs, at index 0 the agent repeats its last action if the last action pair is a coop pair, and flips it otherwise |
| Ethan.SeveralCoopPairsAsPlayer1 | agents/ethan_agent.py:73-77 | at index 1 the "sorted" pair reads slot 1 twice, so the agent repeats its last action only if (a1, a1) is a coop pair |
| Ethan.EthanAgent.constructor | agents/ethan_agent.py:3-10 | the globals at load: name, no game, `prev_actions` [0, 0], no coop pairs, `my_idx` 0 |
| Ethan.EthanAgent.StartGame | agents/ethan_agent.py:43-52 | the new globals are `StartGameState` of the old ones |
| Ethan.EthanAgent.Update | agents/ethan_agent.py:55-63 | the new globals are `UpdateState` of the old ones |
| Agents.AfterStartGame | play_repeated_game.py:56-57 | `startGame` on any agent leaves a state in which the fictitious counts are positive |
| Agents.AfterUpdate | play_repeated_game.py:102-103 | `update` on any agent keeps that state invariant |
| Agents.StartGameRuns | play_repeated_game.py:56-57 | after `startGame`, every agent is running |
| Agents.RunningNeverRaises | play_repeated_game.py:80-90 | a running agent's `getAction` never raises, and `update` keeps it running |
| Agents.RaisesOnlyBeforeStart | play_repeated_game.py:80-90 | before any `startGame`, the fictitious and Ethan agents raise, and the random and constant agents still choose an action |
| Agents.Agent.StartGame | play_repeated_game.py:57 | calling `startGame` on an agent moves its globals to `AfterStartGame` |
| Agents.Agent.Update | play_repeated_game.py:103 | calling `update(i, actions)` on an agent moves its globals to `AfterUpdate` |
| RepeatedGame.FirstStop | play_repeated_game.py:110-112 | the first round whose stop draw is below `stop_prob`: every earlier draw is at least `stop_prob` |
| RepeatedGame.NoStopBeforeFirst | play_repeated_game.py:110-112 | while no stop has been drawn, the loop has not passed the first stop |
| RepeatedGame.FirstStopIs | play_repeated_game.py:110-112 | a stop draw with no earlier stop is the first stop |
| RepeatedGame.MatchStart | play_repeated_game.py:55-57 | both agents have received `startGame(game)` and no round has been played |
| RepeatedGame.PlayRound | play_repeated_game.py:77-103 | one round keeps both agents' state invariants |
| RepeatedGame.PlayRounds | play_repeated_game.py:70-112 | n rounds add exactly n action pairs to the trace |
| RepeatedGame.PlayRoundsStep | play_repeated_game.py:70-112 | playing n + 1 draws is playing n draws and then one more round |
| RepeatedGame.StartAgents | play_repeated_game.py:56-57 | agent 0 and then agent 1 receive `startGame(game)` |
| RepeatedGame.ElicitActions | play_repeated_game.py:77-90 | `actions[i]` is agent i's choice, or the fallback draw when its `getAction` raises |
| RepeatedGame.UpdateAgents | play_repeated_game.py:102-103 | agent i receives `update(i, actions)` with the same action pair |
| RepeatedGame.PlayRoundOn | play_repeated_game.py:76-103 | one loop iteration on the agent objects plays exactly the round of the model |
| RepeatedGame.PlayGame | play_repeated_game.py:21-124 | `round_count` is the first stop plus one; the result is `total_utility / round_count` over the rounds played; the agents end in the model's final states |
| RepeatedGame.PlayRoundsPrefix | play_repeated_game.py:70-112 | the first k rounds of a longer run are the run of the first k draws |
| RepeatedGame.RoundK | play_repeated_game.py:77-103 | round k plays the actions chosen in the state after k rounds, using the fallback exactly where `getAction` raised |
| RepeatedGame.MatchLength | play_repeated_game.py:65-112 | every match plays at least one round, and exactly the first stop plus one |
| RepeatedGame.OneRoundWhenStopCertain | play_repeated_game.py:110-112 | with `stop_prob >= 1` and draws in [0, 1), exactly one round is played |
| RepeatedGame.ConstantGameResult | play_repeated_game.py:93-124 | when every cell holds the pair u, the match result is exactly u |
| RepeatedGame.NoFallbackAfterStart | play_repeated_game.py:80-90 | after `startGame` no agent ever raises, so the fallback action is never used |
| RepeatedGame.Constant0RoundsPlayCell00 | play_repeated_game.py:77-94 | two constant-0 agents play cell (0, 0) in every round |
| RepeatedGame.Constant0MatchResult | play_repeated_game.py:93-124 | two constant-0 agents receive `game[0][0]` as their result |
| Payoff.ConstantTraceTotal | play_repeated_game.py:93-94 | n rounds of the same cell total n times that cell's pair |
| TournamentTally.StartTally | tournament.py:76-82 | every agent starts the game with 0 matches and 0 utility, and the cross table is empty |
| TournamentTally.ZeroCounters | tournament.py:80-82 | the initialisation loop produces exactly those dictionaries |
| TournamentTally.RecordPlayEffect | tournament.py:100-103 | one match adds 1 to each side's count and its own utility to each side's total; no other entry changes and the cross table is untouched |
| TournamentTally.PlayRepsEffect | tournament.py:97-104 | `num` matches of a pair add `num` per side and each side's summed utility |
| TournamentTally.PlayRepsCrosstable | tournament.py:97-104 | the matches themselves never touch the cross table |
| TournamentTally.PlayPairGames | tournament.py:97-102 | one pair's matches raise a name's count by `num` per side it plays |
| TournamentTally.PlayRowGames | tournament.py:86-102 | a row of pairs raises a name's count by the row's matches on its sides |
| TournamentTally.PlayRowsGames | tournament.py:85-102 | the whole double loop gives each name its count of matches, and every name keeps its entry |
| TournamentTally.RowGamesClosed | tournament.py:85-102 | closed form of one row's matches per name |
| TournamentTally.RowsGamesClosed | tournament.py:85-102 | closed form of the first i rows' matches per name |
| TournamentTally.GamesPlayedCount | tournament.py:80-102 | a name carried by c of N agents ends the game with `games_played = 2 (N-1) num c` |
| TournamentTally.GamesPlayedDistinct | tournament.py:80-102 | with distinct names, every agent's `games_played` is `2 (N-1) num` |
| TournamentTally.PlayRowCross | tournament.py:85-110 | the cross table of a row is the row's writes applied in order |
| TournamentTally.PlayRowsCross | tournament.py:85-110 | the cross table of the game is all rows' writes applied in order |
| TournamentTally.CrossRowDomain | tournament.py:89-110 | a row's writes add only pair keys |
| TournamentTally.CrossRowsDomain | tournament.py:89-110 | all rows' writes add only pair keys |
| TournamentTally.CrossRowHas | tournament.py:89-110 | a row writes the keys of all its pairs |
| TournamentTally.CrossRowsHas | tournament.py:89-110 | every pair's keys are written by the rows so far |
| TournamentTally.CrosstableKeys | tournament.py:85-110 | the game's cross table has exactly the keys `a-vs-b` of ordered pairs of distinct agents |
| TournamentTally.CrossRowKeeps | tournament.py:89-110 | a row leaves a key it does not write unchanged |
| TournamentTally.CrossRowWrites | tournament.py:89-110 | a key written in a row holds that row's last write |
| TournamentTally.CrossRowsLatest | tournament.py:89-110 | a key of a pair in the last row holds that row's value |
| TournamentTally.CrossRowsEarlier | tournament.py:89-110 | later rows that do not write a key keep its value |
| TournamentTally.CrossRowsValue | tournament.py:89-110 | after the first i rows, a pair's key holds the value of the last write |
| TournamentTally.CrosstableValues | tournament.py:85-110 | `crosstable["a-vs-b"]` is the mean of a's side over `num` matches, from the pair whose player 0 is later in the agent list |
| TournamentTally.PairCallsCount | tournament.py:97-98 | one pair calls `play_game` `num` times, always as `[a1, a2]` |
| TournamentTally.RowCallsCount | tournament.py:86-98 | a row calls each pair (i, j) with j != i `num` times, and (i, i) never |
| TournamentTally.RowsCallsCount | tournament.py:85-98 | the rows so far call each ordered pair of their agents `num` times |
| TournamentTally.GameCalls | tournament.py:85-98 | over a game, `play_game` is called exactly `num` times per ordered pair of distinct agents, and never for an agent with itself |
| TournamentTally.TallyPair | tournament.py:89-110 | the repetition loop of one pair yields the model's dictionaries and the call schedule |
| TournamentTally.TallyRow | tournament.py:86-110 | the inner agent loop yields the model's dictionaries and call schedule |
| TournamentTally.TallyGame | tournament.py:76-110 | the nested loops of one game yield `GameTally` and call `play_game` as `RowsCalls` lists |
| Ranking.Dedup | tournament.py:116-117 | the dictionary's keys are the agent names without repeats, nothing else |
| Ranking.DedupDistinct | tournament.py:116-117 | distinct agent names are the key order itself |
| Ranking.Items | tournament.py:119 | `d.items()` pairs each key, in key order, with its value |
| Ranking.Insert | tournament.py:119 | inserting adds exactly the item to the multiset |
| Ranking.InsertBound | tournament.py:119 | inserting keeps an upper bound on the values |
| Ranking.InsertDescending | tournament.py:119 | inserting into a non-increasing list keeps it non-increasing |
| Ranking.SortDescending | tournament.py:119 | the sorted list is non-increasing by value and a permutation of the items |
| Ranking.InsertSmallest | tournament.py:119 | an item no larger than all others goes last |
| Ranking.SortDescendingKeepsSorted | tournament.py:119 | sorting a non-increasing list leaves it unchanged |
| Ranking.ItemsCount | tournament.py:119 | each of distinct keys gives exactly one item, with its own value, and no other item names it |
| Ranking.RankingOfMap | tournament.py:119 | the ranking lists every key exactly once, with its value, and nothing else |
| Tournament.AveragesOk | tournament.py:116-117 | the averages exist exactly when every agent played; they then map each name to `total_utility / games_played` |
| Tournament.AveragesError | tournament.py:116-117 | otherwise the `ZeroDivisionError` comes from the first agent in order whose `games_played` is 0 |
| Tournament.AveragesStop | tournament.py:116-117 | an error among the first k agents ends the loop with that error |
| Tournament.ComputeAverages | tournament.py:114-117 | the averages loop returns `Averages`, raising at the first agent with no matches |
| Tournament.AddCountsEffect | tournament.py:138-139 | adding a game's counts adds, for each name, its count once per agent carrying it |
| Tournament.AddValuesEffect | tournament.py:138-140 | adding a game's averages adds, for each name, its average once per agent carrying it |
| Tournament.AccumulateTotals | tournament.py:138-140 | the per-agent loop computes both additions |
| Tournament.MergeEffect | tournament.py:142-146 | the merged table has the keys of both tables, and each key's value is the sum of its values |
| Tournament.MergeCrosstable | tournament.py:142-146 | the merge loop, inserting new keys and adding to known ones, computes `Merge` in whatever order it visits the keys |
| Tournament.RunGamesTracks | tournament.py:64-70 | the totals always have an entry for every agent name |
| Tournament.RunGamesStop | tournament.py:73-117 | once a game raises, the tournament ends with that error |
| Tournament.PlayTournamentGame | tournament.py:73-146 | one iteration of the games loop yields the next totals, or the game's error, and that game's ranking |
| Tournament.RunTournament | tournament.py:62-150 | the whole aggregation computes `Tournament`: the totals, each game's ranking and the final ranking, or the first division by zero |
| Tournament.GameAveragesOk | tournament.py:80-117 | a game's averages exist exactly when there are no agents, or at least two agents and `num > 0`; otherwise the first agent played nothing |
| Tournament.RunGamesOk | tournament.py:73-117 | the first k games succeed exactly when k is 0 or the agents can all play |
| Tournament.TournamentFails | tournament.py:73-117 | the tournament raises exactly when it plays a game with at least one agent and fewer than two agents or `num == 0`, naming the first agent |
| Tournament.TotalGamesPlayed | tournament.py:138-139 | `total_games_played[n]` is the sum of the games' counts, times the number of agents named n |
| Tournament.TotalUtility | tournament.py:138-140 | `total_total_utility[n]` is the plain sum of the games' averages, not weighted by games played, once per agent named n |
| Tournament.PlayedSumDistinct | tournament.py:80-139 | with distinct names, the per-game counts of an agent sum to `k * 2 (N-1) num` |
| Tournament.DistinctTotals | tournament.py:80-140 | with distinct names, an agent's totals are `k * 2 (N-1) num` matches and the sum of its k averages |
| Tournament.TotalCrosstable | tournament.py:142-146 | `total_crosstable[key]` is the sum of the games' `crosstable[key]`, and its keys are exactly the pair keys once a game has been played |
| Tournament.GameRankingsAt | tournament.py:119 | the list of game rankings has one ranking per game, in game order |
| Tournament.GameRanking | tournament.py:116-119 | each game's `sorted_utility` is non-increasing and lists every agent name once, with its average in that game, and nothing else |
| Tournament.FinalRanking | tournament.py:150 | `sorted_total_utility` is non-increasing and lists every agent name once, with its summed average, and nothing else |

## Left out

- Command-line parsing, game-file loading, glob discovery and `importlib` agent loading (`process_arguments`, `tournament.py:10-60`, `play_repeated_game.py:126-148`): file system and interpreter plumbing.
- Log files, timestamps, printing, verbose output and tracebacks: I/O.
- The final report prints and writes the last game's `sorted_utility` instead of `sorted_total_utility` (`tournament.py:157`, `tournament.py:168`). With no games at all, that name is undefined and the report raises `NameError`. Only the computed `sorted_total_utility` is modelled.
- Randomness: the stop draws, the fallback `randint(0, 1)` and the random agent's `randint` are inputs. The geometric distribution and the expected match length are not modelled.
- numpy floating point: utilities are exact reals and pairs replace the 1x2 arrays. With `num == 0`, numpy's 0/0 gives NaN in the cross table. The model writes 0 there instead, and the tournament still raises its division by zero right after, as the source does.
- Exceptions raised by `startGame` or `update`: only the `getAction` failure path is modelled.
- The Pareto computation `optimal_cells` in `agents/ethan_agent.py:15-31`: its result is discarded.
- Actions are 0 or 1 by type. Ethan's agent returns Python booleans (`not x`, `agents/ethan_agent.py:77` and `:83`). In numpy a bool used as an index is a mask, not 0 or 1: `game[True]` adds an axis and `game[False]` selects nothing. The lookup `game[actions[0]][actions[1]][:]` then has the wrong shape, and `total_utility += …` (`play_repeated_game.py:93-94`) raises outside the `try`, so the program as written aborts the match on the first flipped action. The model keeps actions in {0, 1} and reads `not x` as `1 - x`: this follows the evident intent and is not what numpy does.
- `agents/ethan_agent.py:14` slices `game[r, :2]` and `game[r, 2:]`, which expects a 2x4 row layout. The engine passes a 2x2x2 tensor, where the slices are not reward pairs. Whatever the layout, the set of tuples holding ndarrays cannot be built (`TypeError`: ndarrays are unhashable), so Ethan's `startGame` as written always raises, and because `startGame` (`play_repeated_game.py:57`) is called outside the `try`, that aborts `play_game`. The model follows the evident intent: cell (r, c) holds the reward pair of actions (r, c).
- The iteration order of the set `cells` in `agents/ethan_agent.py:14` is unspecified in Python. The model visits the cells in the order (0,0), (0,1), (1,0), (1,1). Only the first coop pair's identity depends on this order.
- The tournament takes the results of `play_game` from the `Outcomes` oracle and does not call `RepeatedGame.PlayGame`. Agent state carried from one match to the next (Ethan's `my_idx`) therefore does not link the tournament's matches.
- Dictionary lookups are modelled with an explicit default (`TournamentTally.Get`). The source only reads keys it has inserted, which `Tracks` and the key lemmas show.
- Fictitious.ExpectedValues: its own contract states only that there are two values; their meaning is stated by `BestResponseIsStrictImprovement` and `BestResponseFromCounts`.
- Ranking.SortDescending: stability (equal values keep dictionary order, as Python's `sorted` guarantees) is implemented by `Insert` but not proved.
- Ranking.Insert: its contract states the multiset only; order is proved by `InsertDescending`.
- Tournament.TotalUtility: the multiplicity of a repeated name is written as repeated addition (`Copies`); `CopiesProduct` proves that this equals multiplication.

## Notes on the source

- Ethan's `my_idx` is not reset by `startGame`, so it carries over from the agent's previous match. The repository's description says agents keep no state across matches; the model follows the code.
- Ethan's `opp_idx` is computed once at load while `my_idx` is 0, and `update` assigns only a local `opp_index`. So `opp_idx` is always 1. Playing as index 1, the agent reads its own previous action as the opponent's. The model follows the code (`Ethan.OppIdx`).
- The engine's `while not done` loop (`play_repeated_game.py:70-112`) never ends when no stop draw falls below `stop_prob`, for instance when `stop_prob <= 0`. `RepeatedGame.PlayGame` requires `StopsWithin(draws, stopProb)`, which excludes exactly those inputs.
- The fictitious player computes its best response from player 0's payoffs whatever its own index, as its comment says. The model follows the code.
