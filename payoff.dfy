/** Actions, payoff tensors and per-player utilities of a repeated 2x2 game. */
module Payoff {

  /** An action of one player: 0 or 1. */
  type Action = a: int | 0 <= a <= 1

  /** The index of a player within a match: 0 or 1. */
  type PlayerIndex = i: int | 0 <= i <= 1

  /** The opponent's index, written `not my_index` in the agents. */
  function Other(i: PlayerIndex): (o: PlayerIndex)
    ensures o != i
  {
    1 - i
  }

  /** The two-element action list of one round: `actions[0]`, `actions[1]`. */
  datatype ActionPair = ActionPair(first: Action, second: Action) {
    function At(i: PlayerIndex): Action {
      if i == 0 then first else second
    }
  }

  /** A 2x2x2 payoff tensor, `game[a0][a1][player]`; it is never changed during a match. */
  type Game = (Action, Action, PlayerIndex) -> real

  /** A pair of utilities, one per player (the source's 1x2 numpy row). */
  datatype Utility = Utility(u0: real, u1: real) {
    function Plus(other: Utility): Utility {
      Utility(u0 + other.u0, u1 + other.u1)
    }

    function DividedBy(n: nat): Utility
      requires n > 0
    {
      Utility(u0 / n as real, u1 / n as real)
    }
  }

  const Zero := Utility(0.0, 0.0)

  /** What `getAction` produced: an action, or an exception it raised. */
  datatype ActionResult = Chosen(action: Action) | Raised(error: string)

  datatype Option<+T> = None | Some(value: T)

  /** The payoff pair `game[actions[0]][actions[1]]`. */
  function CellPayoff(g: Game, actions: ActionPair): Utility {
    Utility(g(actions.first, actions.second, 0), g(actions.first, actions.second, 1))
  }

  /** The sum of the payoff pairs of the rounds in `trace`, accumulated in round order. */
  function TotalPayoff(g: Game, trace: seq<ActionPair>): Utility {
    if trace == [] then Zero
    else TotalPayoff(g, trace[..|trace| - 1]).Plus(CellPayoff(g, trace[|trace| - 1]))
  }

  /** Every cell of `g` holds the same payoff pair `u`. */
  ghost predicate IsConstantGame(g: Game, u: Utility) {
    forall a0: Action, a1: Action :: CellPayoff(g, ActionPair(a0, a1)) == u
  }

  /** In a constant game, the total after n rounds is n times the common payoff pair. */
  lemma {:induction false} ConstantGameTotal(g: Game, u: Utility, trace: seq<ActionPair>)
    requires IsConstantGame(g, u)
    ensures TotalPayoff(g, trace) == Utility(|trace| as real * u.u0, |trace| as real * u.u1)
  {
    if trace != [] {
      var last := trace[|trace| - 1];
      ConstantGameTotal(g, u, trace[..|trace| - 1]);
      assert CellPayoff(g, ActionPair(last.first, last.second)) == u;
    }
  }

  /** In a constant game the per-round average of any non-empty match is the common payoff pair. */
  lemma ConstantGameAverage(g: Game, u: Utility, trace: seq<ActionPair>)
    requires IsConstantGame(g, u) && |trace| > 0
    ensures TotalPayoff(g, trace).DividedBy(|trace|) == u
  {
    ConstantGameTotal(g, u, trace);
  }

  /** The total of a trace extended by one round adds that round's payoff pair. */
  lemma TotalPayoffAppend(g: Game, trace: seq<ActionPair>, round: ActionPair)
    ensures TotalPayoff(g, trace + [round]) == TotalPayoff(g, trace).Plus(CellPayoff(g, round))
  {
    assert (trace + [round])[..|trace|] == trace;
  }

  /** n rounds of the same payoff pair, added up one after the other. */
  function Repeated(n: nat, u: Utility): (r: Utility)
    ensures n == 0 ==> r == Zero
  {
    if n == 0 then Zero else Repeated(n - 1, u).Plus(u)
  }

  /** Adding up n copies of a pair is multiplying it by n, component by component. */
  lemma {:induction false} RepeatedIsProduct(n: nat, u: Utility)
    ensures Repeated(n, u) == Utility(n as real * u.u0, n as real * u.u1)
  {
    if n > 0 {
      RepeatedIsProduct(n - 1, u);
      assert (n - 1) as real * u.u0 + u.u0 == n as real * u.u0;
      assert (n - 1) as real * u.u1 + u.u1 == n as real * u.u1;
    }
  }

  /** n copies of a pair, averaged over n rounds, give the pair back. */
  lemma RepeatedAverage(n: nat, u: Utility)
    requires n > 0
    ensures Repeated(n, u).DividedBy(n) == u
  {
    RepeatedIsProduct(n, u);
  }

  /** A trace that repeats one cell totals that cell's payoff pair, once per round. */
  lemma {:induction false} ConstantTraceTotal(g: Game, trace: seq<ActionPair>, cell: ActionPair)
    requires forall k :: 0 <= k < |trace| ==> trace[k] == cell
    ensures TotalPayoff(g, trace) == Repeated(|trace|, CellPayoff(g, cell))
  {
    if trace != [] {
      ConstantTraceTotal(g, trace[..|trace| - 1], cell);
    }
  }

  /** A non-empty trace that repeats one cell averages to that cell's payoff pair. */
  lemma ConstantTraceAverage(g: Game, trace: seq<ActionPair>, cell: ActionPair)
    requires |trace| > 0 && forall k :: 0 <= k < |trace| ==> trace[k] == cell
    ensures TotalPayoff(g, trace).DividedBy(|trace|) == CellPayoff(g, cell)
  {
    ConstantTraceTotal(g, trace, cell);
    RepeatedAverage(|trace|, CellPayoff(g, cell));
  }
}
