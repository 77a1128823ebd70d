/** The constant-0 agent: it counts the opponent's actions and always plays 0. */
module Constant0 {
  import opened Payoff
  import opened OpponentHistory

  const Name := "Constant0"

  /** `history = [0,0]`, both at module load and in `startGame`. */
  const InitialHistory: History := [0, 0]

  function StartGameState(g: Game): CounterState {
    Restart(g, InitialHistory)
  }

  function UpdateState(s: CounterState, o: Observation): CounterState {
    Record(s, o)
  }

  /** `getAction()`: the action is always 0 and the call never raises. */
  function GetAction(s: CounterState): ActionResult
  {
    Chosen(0)
  }

  /** After `startGame` and any updates, `sum(history)` is the number of updates and each entry counts one action. */
  lemma CountsSinceStart(g: Game, os: seq<Observation>, a: Action)
    ensures Total(ObserveAll(StartGameState(g).history, os)) == |os|
    ensures ObserveAll(StartGameState(g).history, os)[a] == TimesPlayed(os, a)
  {
    ObserveAllTotal(InitialHistory, os);
    ObserveAllCounts(InitialHistory, os, a);
  }

  /** The agent's module globals. */
  class Constant0Agent {
    const name: string
    var game: Option<Game>
    var history: History

    function Model(): CounterState
      reads this
    {
      CounterState(game, history)
    }

    constructor ()
      ensures name == Name && Model() == CounterState(None, InitialHistory)
    {
      name := Name;
      game := None;
      history := InitialHistory;
    }

    method StartGame(g: Game)
      modifies this
      ensures Model() == StartGameState(g)
    {
      game := Some(g);
      history := [0, 0];
    }

    method Update(myIndex: PlayerIndex, actions: ActionPair)
      modifies this
      ensures Model() == UpdateState(old(Model()), Observation(myIndex, actions))
      ensures history[1 - actions.At(Other(myIndex))] == old(history[1 - actions.At(Other(myIndex))])
    {
      var oppIndex := Other(myIndex);
      var a := actions.At(oppIndex);
      history := history[a := history[a] + 1];
    }
  }
}
