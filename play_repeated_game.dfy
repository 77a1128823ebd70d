/**
 * `play_game`: one repeated-game match between two agents. Every round asks both agents
 * for an action (a random action replaces one whose `getAction` raised), adds the
 * payoff pair of the chosen cell to the running total, tells both agents what was played,
 * and stops when a uniform draw falls below the stop probability. The result is the
 * per-round average of the total.
 *
 * The random draws are inputs: one `Draw` per round.
 */
module RepeatedGame {
  import opened Payoff
  import opened Agents

  /**
   * The random numbers one round consumes: the draw each agent's own `getAction` may
   * make, the `random.randint(0,1)` fallback for each agent, and the `random.random()`
   * stop draw.
   */
  datatype Draw = Draw(coin0: Action, coin1: Action, fallback0: Action, fallback1: Action, stop: real) {
    function Coin(i: PlayerIndex): Action {
      if i == 0 then coin0 else coin1
    }

    function Fallback(i: PlayerIndex): Action {
      if i == 0 then fallback0 else fallback1
    }
  }

  /** Some round's stop draw falls below `stopProb`, so the loop ends within `draws`. */
  ghost predicate StopsWithin(draws: seq<Draw>, stopProb: real) {
    exists k :: 0 <= k < |draws| && draws[k].stop < stopProb
  }

  /** The index of the first round whose stop draw is below `stopProb`. */
  function FirstStop(draws: seq<Draw>, stopProb: real): (k: nat)
    requires StopsWithin(draws, stopProb)
    ensures k < |draws| && draws[k].stop < stopProb
    ensures forall j :: 0 <= j < k ==> draws[j].stop >= stopProb
  {
    if draws[0].stop < stopProb then 0
    else
      var k :| 0 <= k < |draws| && draws[k].stop < stopProb;
      assert draws[1..][k - 1] == draws[k];
      1 + FirstStop(draws[1..], stopProb)
  }

  /** None of the first n stop draws is below `stopProb`: the loop went on after each of them. */
  ghost predicate NoStopBefore(draws: seq<Draw>, stopProb: real, n: nat) {
    n <= |draws| && forall j :: 0 <= j < n ==> draws[j].stop >= stopProb
  }

  /** While no stop has been drawn, the first stop still lies ahead. */
  lemma NoStopBeforeFirst(draws: seq<Draw>, stopProb: real, n: nat)
    requires StopsWithin(draws, stopProb) && NoStopBefore(draws, stopProb, n)
    ensures n <= FirstStop(draws, stopProb)
  {
  }

  /** A draw that is not a stop extends the run of draws without a stop. */
  lemma NoStopBeforeStep(draws: seq<Draw>, stopProb: real, n: nat)
    requires NoStopBefore(draws, stopProb, n) && n < |draws| && draws[n].stop >= stopProb
    ensures NoStopBefore(draws, stopProb, n + 1)
  {
  }

  /** The first stop is the first draw below `stopProb` after a run of draws that are not. */
  lemma FirstStopIs(draws: seq<Draw>, stopProb: real, n: nat)
    requires n < |draws| && draws[n].stop < stopProb && NoStopBefore(draws, stopProb, n)
    ensures StopsWithin(draws, stopProb) && FirstStop(draws, stopProb) == n
  {
    NoStopBeforeFirst(draws, stopProb, n);
  }

  /** The action recorded for an agent: its own choice, or the fallback when `getAction` raised. */
  function ChosenAction(m: AgentModel, coin: Action, fallback: Action): Action
    requires ValidModel(m)
  {
    match ActionOf(m, coin)
    case Chosen(a) => a
    case Raised(_) => fallback
  }

  /** Both agents' globals and the actions played so far. */
  datatype MatchState = MatchState(agent0: AgentModel, agent1: AgentModel, trace: seq<ActionPair>) {
    ghost predicate Valid() {
      ValidModel(agent0) && ValidModel(agent1)
    }
  }

  /** `startGame(game)` on both agents, no round played. */
  function MatchStart(m0: AgentModel, m1: AgentModel, g: Game): (s: MatchState)
    ensures s.Valid()
  {
    MatchState(AfterStartGame(m0, g), AfterStartGame(m1, g), [])
  }

  /** The actions of one round: agent 0's, then agent 1's. */
  function RoundActions(s: MatchState, d: Draw): ActionPair
    requires s.Valid()
  {
    ActionPair(ChosenAction(s.agent0, d.coin0, d.fallback0), ChosenAction(s.agent1, d.coin1, d.fallback1))
  }

  /** One round: each agent i gets `update(i, actions)` with the same two actions. */
  function PlayRound(s: MatchState, d: Draw): (r: MatchState)
    requires s.Valid()
    ensures r.Valid()
  {
    var actions := RoundActions(s, d);
    MatchState(AfterUpdate(s.agent0, 0, actions), AfterUpdate(s.agent1, 1, actions), s.trace + [actions])
  }

  /** The rounds driven by `draws`, in order. */
  function PlayRounds(s: MatchState, draws: seq<Draw>): (r: MatchState)
    requires s.Valid()
    ensures r.Valid()
    ensures |r.trace| == |s.trace| + |draws|
  {
    if draws == [] then s else PlayRound(PlayRounds(s, draws[..|draws| - 1]), draws[|draws| - 1])
  }

  /** Playing one more draw is one more round. */
  lemma PlayRoundsStep(s: MatchState, draws: seq<Draw>, n: nat)
    requires s.Valid() && n < |draws|
    ensures PlayRounds(s, draws[..n + 1]) == PlayRound(PlayRounds(s, draws[..n]), draws[n])
  {
    assert draws[..n + 1][..n] == draws[..n];
  }

  /** The whole match: every round up to and including the first stop. */
  function Match(m0: AgentModel, m1: AgentModel, g: Game, stopProb: real, draws: seq<Draw>): MatchState
    requires StopsWithin(draws, stopProb)
  {
    PlayRounds(MatchStart(m0, m1, g), draws[..FirstStop(draws, stopProb) + 1])
  }

  /** `total_utility / round_count`. */
  function AverageUtility(g: Game, trace: seq<ActionPair>): Utility
    requires |trace| > 0
  {
    TotalPayoff(g, trace).DividedBy(|trace|)
  }

  /** Two distinct agent objects, as `play_game` receives them. */
  ghost predicate TwoAgents(agents: seq<Agent>) {
    |agents| == 2 && agents[0].Obj() != agents[1].Obj()
  }

  /** `for i in range(len(agents)): agents[i].startGame(game)`. */
  method StartAgents(game: Game, agents: seq<Agent>)
    requires TwoAgents(agents)
    modifies agents[0].Obj(), agents[1].Obj()
    ensures agents[0].Model() == AfterStartGame(old(agents[0].Model()), game)
    ensures agents[1].Model() == AfterStartGame(old(agents[1].Model()), game)
  {
    for i := 0 to |agents|
      invariant agents[0].Model() == if i > 0 then AfterStartGame(old(agents[0].Model()), game) else old(agents[0].Model())
      invariant agents[1].Model() == if i > 1 then AfterStartGame(old(agents[1].Model()), game) else old(agents[1].Model())
    {
      agents[i].StartGame(game);
    }
  }

  /**
   * `actions = []; for i in range(2): ...`: agent 0 is asked first, then agent 1; an agent
   * whose `getAction` raises gets the fallback draw instead.
   */
  method ElicitActions(agents: seq<Agent>, d: Draw) returns (actions: ActionPair)
    requires TwoAgents(agents) && ValidModel(agents[0].Model()) && ValidModel(agents[1].Model())
    ensures actions.first == ChosenAction(agents[0].Model(), d.coin0, d.fallback0)
    ensures actions.second == ChosenAction(agents[1].Model(), d.coin1, d.fallback1)
  {
    var list: seq<Action> := [];
    for i := 0 to 2
      invariant |list| == i
      invariant forall k :: 0 <= k < i ==> list[k] == ChosenAction(agents[k].Model(), d.Coin(k), d.Fallback(k))
    {
      var currentAction;
      match ActionOf(agents[i].Model(), d.Coin(i)) {
        case Chosen(a) =>
          currentAction := a;
        case Raised(_) =>
          currentAction := d.Fallback(i);
      }
      list := list + [currentAction];
    }
    actions := ActionPair(list[0], list[1]);
  }

  /** `for i in range(len(agents)): agents[i].update(i, actions)`. */
  method UpdateAgents(agents: seq<Agent>, actions: ActionPair)
    requires TwoAgents(agents) && ValidModel(agents[0].Model()) && ValidModel(agents[1].Model())
    modifies agents[0].Obj(), agents[1].Obj()
    ensures agents[0].Model() == AfterUpdate(old(agents[0].Model()), 0, actions)
    ensures agents[1].Model() == AfterUpdate(old(agents[1].Model()), 1, actions)
  {
    for i := 0 to |agents|
      invariant agents[0].Model() == if i > 0 then AfterUpdate(old(agents[0].Model()), 0, actions) else old(agents[0].Model())
      invariant agents[1].Model() == if i > 1 then AfterUpdate(old(agents[1].Model()), 1, actions) else old(agents[1].Model())
    {
      agents[i].Update(i, actions);
    }
  }

  /** The agents' globals are those of `s`. */
  ghost predicate Holds(agents: seq<Agent>, s: MatchState)
    requires |agents| == 2
    reads agents[0].Obj(), agents[1].Obj()
  {
    agents[0].Model() == s.agent0 && agents[1].Model() == s.agent1
  }

  /**
   * The body of one round of `play_game` on the agent objects: the actions chosen are
   * those of the specification's round and both objects now hold the globals it leaves.
   */
  method PlayRoundOn(agents: seq<Agent>, d: Draw, ghost s: MatchState) returns (actions: ActionPair)
    requires TwoAgents(agents) && s.Valid() && Holds(agents, s)
    modifies agents[0].Obj(), agents[1].Obj()
    ensures actions == RoundActions(s, d)
    ensures Holds(agents, PlayRound(s, d))
  {
    actions := ElicitActions(agents, d);
    RoundActionsAre(s, d, actions);
    PlayRoundIs(s, d, actions);
    UpdateAgents(agents, actions);
  }

  /** The pair of the two agents' recorded actions is the round's action pair. */
  lemma RoundActionsAre(s: MatchState, d: Draw, actions: ActionPair)
    requires s.Valid()
    requires actions.first == ChosenAction(s.agent0, d.coin0, d.fallback0)
    requires actions.second == ChosenAction(s.agent1, d.coin1, d.fallback1)
    ensures actions == RoundActions(s, d)
  {
  }

  /** The globals after a round are each agent's `update` with that round's actions. */
  lemma PlayRoundIs(s: MatchState, d: Draw, actions: ActionPair)
    requires s.Valid() && actions == RoundActions(s, d)
    ensures PlayRound(s, d).agent0 == AfterUpdate(s.agent0, 0, actions)
    ensures PlayRound(s, d).agent1 == AfterUpdate(s.agent1, 1, actions)
  {
  }

  /**
   * One iteration of the `while not done` loop: count the round, play it on the agents, add
   * its payoff pair to the total and toss the stop coin.
   */
  method PlayLoopRound(game: Game, stopProb: real, agents: seq<Agent>, draws: seq<Draw>, ghost start: MatchState,
                       roundCount: nat, ghost state: MatchState, totalUtility: Utility)
    returns (nextCount: nat, ghost nextState: MatchState, nextTotal: Utility, done: bool)
    requires TwoAgents(agents) && start.Valid() && roundCount < |draws|
    requires state == PlayRounds(start, draws[..roundCount]) && Holds(agents, state)
    requires totalUtility == TotalPayoff(game, state.trace)
    requires StopsWithin(draws, stopProb) && NoStopBefore(draws, stopProb, roundCount)
    modifies agents[0].Obj(), agents[1].Obj()
    ensures nextCount == roundCount + 1
    ensures nextState == PlayRounds(start, draws[..nextCount]) && Holds(agents, nextState)
    ensures nextTotal == TotalPayoff(game, nextState.trace)
    ensures done <==> draws[roundCount].stop < stopProb
    ensures !done ==> NoStopBefore(draws, stopProb, nextCount) && nextCount < |draws|
    ensures done ==> FirstStop(draws, stopProb) == roundCount
  {
    var d := draws[roundCount];
    PlayRoundsStep(start, draws, roundCount);
    nextState := PlayRound(state, d);
    nextCount := roundCount + 1;

    var actions := PlayRoundOn(agents, d, state);
    var currentUtilities := CellPayoff(game, actions);
    TotalPayoffAppend(game, state.trace, actions);
    nextTotal := totalUtility.Plus(currentUtilities);

    done := d.stop < stopProb;
    NoStopBeforeFirst(draws, stopProb, roundCount);
    if done {
      FirstStopIs(draws, stopProb, roundCount);
    } else {
      NoStopBeforeStep(draws, stopProb, roundCount);
      NoStopBeforeFirst(draws, stopProb, nextCount);
    }
  }

  /**
   * `play_game(game, stop_prob, game_name, agents, ...)`. The log file and the printing
   * are not modelled; `rounds` is the source's `round_count`.
   */
  method PlayGame(game: Game, stopProb: real, agents: seq<Agent>, draws: seq<Draw>)
    returns (utility: Utility, ghost rounds: nat)
    requires TwoAgents(agents)
    requires StopsWithin(draws, stopProb)
    modifies agents[0].Obj(), agents[1].Obj()
    ensures rounds == FirstStop(draws, stopProb) + 1
    ensures var m := Match(old(agents[0].Model()), old(agents[1].Model()), game, stopProb, draws);
            && |m.trace| == rounds
            && utility == AverageUtility(game, m.trace)
            && Holds(agents, m)
  {
    ghost var m0, m1 := agents[0].Model(), agents[1].Model();
    StartAgents(game, agents);
    ghost var start := MatchStart(m0, m1, game);
    ghost var state := start;

    var roundCount := 0;
    var totalUtility := Zero;
    var done := false;
    while !done
      invariant roundCount <= |draws|
      invariant state == PlayRounds(start, draws[..roundCount])
      invariant Holds(agents, state)
      invariant totalUtility == TotalPayoff(game, state.trace)
      invariant !done ==> NoStopBefore(draws, stopProb, roundCount) && roundCount < |draws|
      invariant done ==> roundCount == FirstStop(draws, stopProb) + 1
      decreases |draws| - roundCount
    {
      roundCount, state, totalUtility, done := PlayLoopRound(game, stopProb, agents, draws, start, roundCount, state, totalUtility);
    }
    assert state == Match(m0, m1, game, stopProb, draws);
    rounds := roundCount;
    utility := totalUtility.DividedBy(roundCount);
  }

  /** Playing a prefix of the draws gives a prefix of the trace. */
  lemma {:induction false} PlayRoundsPrefix(s: MatchState, draws: seq<Draw>, k: nat)
    requires s.Valid() && k <= |draws|
    ensures PlayRounds(s, draws[..k]).trace == PlayRounds(s, draws).trace[..|s.trace| + k]
  {
    if k < |draws| {
      PlayRoundsPrefix(s, draws[..|draws| - 1], k);
      assert draws[..|draws| - 1][..k] == draws[..k];
    } else {
      assert draws[..k] == draws;
    }
  }

  /**
   * Round k of a match is played from the globals the first k rounds left: its actions are
   * the agents' choices then, agent 0's first, each replaced by its fallback draw if that
   * agent's `getAction` raised, and the round still counts.
   */
  lemma RoundK(s: MatchState, draws: seq<Draw>, k: nat)
    requires s.Valid() && s.trace == [] && k < |draws|
    ensures var before := PlayRounds(s, draws[..k]);
            var played := PlayRounds(s, draws).trace[k];
            && played == RoundActions(before, draws[k])
            && (ActionOf(before.agent0, draws[k].coin0).Raised? ==> played.first == draws[k].fallback0)
            && (ActionOf(before.agent1, draws[k].coin1).Raised? ==> played.second == draws[k].fallback1)
  {
    PlayRoundsPrefix(s, draws, k + 1);
    assert draws[..k + 1][..k] == draws[..k];
  }

  /** Every match plays at least one round; the count is the index of the first stop draw plus one. */
  lemma MatchLength(m0: AgentModel, m1: AgentModel, g: Game, stopProb: real, draws: seq<Draw>)
    requires StopsWithin(draws, stopProb)
    ensures |Match(m0, m1, g, stopProb, draws).trace| == FirstStop(draws, stopProb) + 1 >= 1
  {
  }

  /**
   * With a stop probability of at least 1, every draw of `random.random()` (which lies in
   * [0, 1)) stops the match, so exactly one round is played.
   */
  lemma OneRoundWhenStopCertain(m0: AgentModel, m1: AgentModel, g: Game, stopProb: real, draws: seq<Draw>)
    requires stopProb >= 1.0 && |draws| > 0
    requires forall k :: 0 <= k < |draws| ==> 0.0 <= draws[k].stop < 1.0
    ensures StopsWithin(draws, stopProb)
    ensures |Match(m0, m1, g, stopProb, draws).trace| == 1
  {
    assert draws[0].stop < stopProb;
  }

  /** When every cell holds the same pair, the match's result is exactly that pair. */
  lemma ConstantGameResult(m0: AgentModel, m1: AgentModel, g: Game, u: Utility, stopProb: real, draws: seq<Draw>)
    requires IsConstantGame(g, u) && StopsWithin(draws, stopProb)
    ensures AverageUtility(g, Match(m0, m1, g, stopProb, draws).trace) == u
  {
    ConstantGameAverage(g, u, Match(m0, m1, g, stopProb, draws).trace);
  }

  /** Inside a match every agent is running, so no round's action comes from a fallback draw. */
  lemma {:induction false} NoFallbackAfterStart(s: MatchState, draws: seq<Draw>)
    requires s.Valid() && Running(s.agent0) && Running(s.agent1)
    ensures var r := PlayRounds(s, draws); Running(r.agent0) && Running(r.agent1)
    ensures forall k :: 0 <= k < |draws| ==>
              var before := PlayRounds(s, draws[..k]);
              ActionOf(before.agent0, draws[k].coin0).Chosen? && ActionOf(before.agent1, draws[k].coin1).Chosen?
  {
    if draws != [] {
      var init := draws[..|draws| - 1];
      NoFallbackAfterStart(s, init);
      var r := PlayRounds(s, init);
      var d := draws[|draws| - 1];
      var a := RoundActions(r, d);
      RunningNeverRaises(r.agent0, 0, a, d.coin0);
      RunningNeverRaises(r.agent1, 1, a, d.coin1);
      forall k | 0 <= k < |draws|
        ensures var before := PlayRounds(s, draws[..k]);
                ActionOf(before.agent0, draws[k].coin0).Chosen? && ActionOf(before.agent1, draws[k].coin1).Chosen?
      {
        if k < |draws| - 1 {
          assert draws[..k] == init[..k];
          assert draws[k] == init[k];
        } else {
          assert draws[..k] == init;
        }
      }
    }
  }

  /** Two constant-0 agents play cell (0, 0) in every round, whatever the draws. */
  lemma {:induction false} Constant0RoundsPlayCell00(s: MatchState, draws: seq<Draw>)
    requires s.Valid() && s.agent0.Constant0Model? && s.agent1.Constant0Model?
    ensures var r := PlayRounds(s, draws);
            && r.agent0.Constant0Model? && r.agent1.Constant0Model?
            && forall k :: |s.trace| <= k < |r.trace| ==> r.trace[k] == ActionPair(0, 0)
  {
    if draws != [] {
      Constant0RoundsPlayCell00(s, draws[..|draws| - 1]);
    }
  }

  /** A match between two constant-0 agents is worth exactly the payoff pair of cell (0, 0). */
  lemma Constant0MatchResult(m0: AgentModel, m1: AgentModel, g: Game, stopProb: real, draws: seq<Draw>)
    requires m0.Constant0Model? && m1.Constant0Model? && StopsWithin(draws, stopProb)
    ensures AverageUtility(g, Match(m0, m1, g, stopProb, draws).trace) == CellPayoff(g, ActionPair(0, 0))
  {
    Constant0RoundsAverage(g, MatchStart(m0, m1, g), draws[..FirstStop(draws, stopProb) + 1]);
  }

  /** Any non-empty run of rounds between two constant-0 agents averages to cell (0, 0). */
  lemma Constant0RoundsAverage(g: Game, s: MatchState, draws: seq<Draw>)
    requires s.Valid() && s.agent0.Constant0Model? && s.agent1.Constant0Model?
    requires s.trace == [] && |draws| > 0
    ensures AverageUtility(g, PlayRounds(s, draws).trace) == CellPayoff(g, ActionPair(0, 0))
  {
    Constant0RoundsPlayCell00(s, draws);
    ConstantTraceAverage(g, PlayRounds(s, draws).trace, ActionPair(0, 0));
  }
}
