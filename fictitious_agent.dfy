/**
 * The fictitious-play agent: it counts the opponent's actions (both counts start
 * at one) and best-responds to the mixed strategy those counts describe.
 */
module Fictitious {
  import opened Payoff
  import opened OpponentHistory

  const Name := "FictitiousPlayer"

  /** `history = [1,1]`, both at module load and in `startGame`. */
  const InitialHistory: History := [1, 1]

  /** Both counts stay at least one, so the mixed strategy is always defined. */
  ghost predicate ValidState(s: CounterState) {
    s.history[0] >= 1 && s.history[1] >= 1
  }

  function StartGameState(g: Game): (s: CounterState)
    ensures ValidState(s) && Total(s.history) == 2
  {
    Restart(g, InitialHistory)
  }

  function UpdateState(s: CounterState, o: Observation): (r: CounterState)
    ensures ValidState(s) ==> ValidState(r)
  {
    Record(s, o)
  }

  /** The opponent's empirical mixed strategy `p = [h / sum(history) for h in history]`. */
  function Mixed(h: History): (p: seq<real>)
    requires Total(h) > 0
    ensures |p| == 2 && p[0] >= 0.0 && p[1] >= 0.0
    ensures p[0] + p[1] == 1.0
  {
    var s := Total(h) as real;
    assert h[0] as real / s + h[1] as real / s == (h[0] as real + h[1] as real) / s;
    [h[0] as real / s, h[1] as real / s]
  }

  /** `game[:,:,0].dot(p)`: the expected payoff of each action, always read from player 0's payoffs. */
  function ExpectedValues(g: Game, p: seq<real>): (ev: seq<real>)
    requires |p| == 2
    ensures |ev| == 2
  {
    [g(0, 0, 0) * p[0] + g(0, 1, 0) * p[1], g(1, 0, 0) * p[0] + g(1, 1, 0) * p[1]]
  }

  /** `np.argmax`: the first index at which the maximum occurs. */
  function ArgMax(v: seq<real>): (k: nat)
    requires |v| > 0
    ensures k < |v|
    ensures forall j :: 0 <= j < |v| ==> v[j] <= v[k]
    ensures forall j :: 0 <= j < k ==> v[j] < v[k]
  {
    if |v| == 1 then 0
    else
      var k := ArgMax(v[..|v| - 1]);
      if v[k] < v[|v| - 1] then |v| - 1 else k
  }

  /** `getBestResponse()`. */
  function BestResponse(g: Game, h: History): Action
    requires Total(h) > 0
  {
    ArgMax(ExpectedValues(g, Mixed(h)))
  }

  /** `getAction()`: raises when no game has been stored (`None[:,:,0]`). */
  function GetAction(s: CounterState): ActionResult
    requires ValidState(s)
  {
    match s.game
    case None => Raised("'NoneType' object is not subscriptable")
    case Some(g) => Chosen(BestResponse(g, s.history))
  }

  /** The agent plays 1 exactly when 1's expected payoff is strictly larger; ties go to 0. */
  lemma BestResponseIsStrictImprovement(g: Game, h: History)
    requires Total(h) > 0
    ensures var ev := ExpectedValues(g, Mixed(h));
            BestResponse(g, h) == 1 <==> ev[1] > ev[0]
  {
  }

  /**
   * Dividing by the total does not change the decision: the agent plays 1 exactly
   * when the count-weighted payoff advantage of action 1 is positive.
   */
  lemma BestResponseFromCounts(g: Game, h: History)
    requires Total(h) > 0
    ensures BestResponse(g, h) == 1 <==>
            (g(1, 0, 0) - g(0, 0, 0)) * h[0] as real + (g(1, 1, 0) - g(0, 1, 0)) * h[1] as real > 0.0
  {
    var s := Total(h) as real;
    var p := Mixed(h);
    var ev := ExpectedValues(g, p);
    var d := (g(1, 0, 0) - g(0, 0, 0)) * h[0] as real + (g(1, 1, 0) - g(0, 1, 0)) * h[1] as real;
    assert ev[1] - ev[0] == d / s;
    BestResponseIsStrictImprovement(g, h);
  }

  /** Only player 0's payoffs matter, whatever index the agent plays under. */
  lemma BestResponseReadsPlayer0Payoffs(g1: Game, g2: Game, h: History)
    requires Total(h) > 0
    requires forall a0: Action, a1: Action :: g1(a0, a1, 0) == g2(a0, a1, 0)
    ensures BestResponse(g1, h) == BestResponse(g2, h)
  {
  }

  /** After `startGame` the agent never raises, however many updates follow. */
  lemma {:induction false} NeverRaisesOnceStarted(g: Game, os: seq<Observation>)
    ensures var s := CounterState(Some(g), ObserveAll(InitialHistory, os));
            ValidState(s) && GetAction(s).Chosen?
  {
    ObserveAllCounts(InitialHistory, os, 0);
    ObserveAllCounts(InitialHistory, os, 1);
  }

  /** The agent's module globals. */
  class FictitiousAgent {
    const name: string
    var game: Option<Game>
    var history: History

    ghost predicate Valid()
      reads this
    {
      ValidState(Model())
    }

    function Model(): CounterState
      reads this
    {
      CounterState(game, history)
    }

    /** The state right after the module is loaded. */
    constructor ()
      ensures Valid() && name == Name
      ensures Model() == CounterState(None, InitialHistory)
    {
      name := Name;
      game := None;
      history := InitialHistory;
    }

    method StartGame(g: Game)
      modifies this
      ensures Valid() && Model() == StartGameState(g)
    {
      game := Some(g);
      history := [1, 1];
    }

    method Update(myIndex: PlayerIndex, actions: ActionPair)
      requires Valid()
      modifies this
      ensures Valid()
      ensures Model() == UpdateState(old(Model()), Observation(myIndex, actions))
      ensures history[1 - actions.At(Other(myIndex))] == old(history[1 - actions.At(Other(myIndex))])
    {
      var oppIndex := Other(myIndex);
      var a := actions.At(oppIndex);
      history := history[a := history[a] + 1];
    }
  }
}
