/**
 * The opponent-action counter kept by the fictitious, random and constant-0 agents:
 * `history[a]` counts how often the opponent has played action `a`.
 */
module OpponentHistory {
  import opened Payoff

  type History = h: seq<nat> | |h| == 2 witness [0, 0]

  /** One `update(my_index, actions)` call as the agent sees it. */
  datatype Observation = Observation(myIndex: PlayerIndex, actions: ActionPair) {
    function OpponentAction(): Action {
      actions.At(Other(myIndex))
    }
  }

  function Total(h: History): nat {
    h[0] + h[1]
  }

  /** `history[actions[opp_index]] += 1`. */
  function Observe(h: History, o: Observation): (r: History)
    ensures r[o.OpponentAction()] == h[o.OpponentAction()] + 1
    ensures r[1 - o.OpponentAction()] == h[1 - o.OpponentAction()]
    ensures Total(r) == Total(h) + 1
  {
    h[o.OpponentAction() := h[o.OpponentAction()] + 1]
  }

  /**
   * The module state shared by the agents that only count: the game passed to
   * `startGame` (none before the first call) and the opponent-action counter.
   */
  datatype CounterState = CounterState(game: Option<Game>, history: History)

  /** `startGame(g)`: store the game and reset the counter to `initial`. */
  function Restart(g: Game, initial: History): (s: CounterState)
    ensures s.game == Some(g) && s.history == initial
  {
    CounterState(Some(g), initial)
  }

  /** `update(my_index, actions)`: count the opponent's action; the game is kept. */
  function Record(s: CounterState, o: Observation): (r: CounterState)
    ensures r.game == s.game
    ensures r.history == Observe(s.history, o)
  {
    s.(history := Observe(s.history, o))
  }

  /** The counter after a sequence of updates, applied in order. */
  function ObserveAll(h: History, os: seq<Observation>): History {
    if os == [] then h else Observe(ObserveAll(h, os[..|os| - 1]), os[|os| - 1])
  }

  /** How many of the observations saw the opponent play `a`. */
  function TimesPlayed(os: seq<Observation>, a: Action): nat {
    if os == [] then 0
    else TimesPlayed(os[..|os| - 1], a) + (if os[|os| - 1].OpponentAction() == a then 1 else 0)
  }

  /** Each entry is its starting value plus the number of updates that saw the opponent play it. */
  lemma {:induction false} ObserveAllCounts(h: History, os: seq<Observation>, a: Action)
    ensures ObserveAll(h, os)[a] == h[a] + TimesPlayed(os, a)
  {
    if os != [] {
      ObserveAllCounts(h, os[..|os| - 1], a);
    }
  }

  /** The counter's sum grows by exactly one per update. */
  lemma {:induction false} ObserveAllTotal(h: History, os: seq<Observation>)
    ensures Total(ObserveAll(h, os)) == Total(h) + |os|
  {
    if os != [] {
      ObserveAllTotal(h, os[..|os| - 1]);
    }
  }
}
