/**
 * The "Ethan Pedersen" agent: it aims for the cells whose reward sum is largest
 * (the cooperative cells) and reacts to the previous round's actions.
 *
 * Each cell of the game is read as the reward pair for the action pair (row, column).
 * That is the evident intent of `game[r, :2]` and `game[r, 2:]`, which slice a 2x4 row
 * layout that the engine's 2x2x2 tensor does not have.
 */
module Ethan {
  import opened Payoff

  const Name := "Ethan Pedersen"

  /** `opp_idx = not my_idx` is evaluated once, at load, while `my_idx` is 0; nothing reassigns it. */
  const OppIdx: PlayerIndex := 1

  /** `no_optimal_actions` is never reassigned from False. */
  const NoOptimalActions := false

  /** The four cells, as (player 0's action, player 1's action). */
  const Cells: seq<ActionPair> := [ActionPair(0, 0), ActionPair(0, 1), ActionPair(1, 0), ActionPair(1, 1)]

  /** `sum(cell)`: the two players' rewards in a cell added up. */
  function CellSum(g: Game, c: ActionPair): real {
    g(c.first, c.second, 0) + g(c.first, c.second, 1)
  }

  /** `sum(max(rewards, key=sum))`: the largest reward sum among `cells`. */
  function MaxSum(g: Game, cells: seq<ActionPair>): (m: real)
    requires |cells| > 0
    ensures forall c :: c in cells ==> CellSum(g, c) <= m
    ensures exists c :: c in cells && CellSum(g, c) == m
  {
    if |cells| == 1 then CellSum(g, cells[0])
    else
      var m := MaxSum(g, cells[..|cells| - 1]);
      assert forall c :: c in cells ==> c in cells[..|cells| - 1] || c == cells[|cells| - 1];
      var last := CellSum(g, cells[|cells| - 1]);
      if m < last then last else m
  }

  /** The cells of `cells`, in order, whose reward sum is `m`. */
  function WithSum(g: Game, cells: seq<ActionPair>, m: real): (r: seq<ActionPair>)
    ensures forall c :: c in r <==> c in cells && CellSum(g, c) == m
    ensures |r| <= |cells|
  {
    if cells == [] then []
    else
      var r := WithSum(g, cells[..|cells| - 1], m);
      assert forall c :: c in cells <==> c in cells[..|cells| - 1] || c == cells[|cells| - 1];
      if CellSum(g, cells[|cells| - 1]) == m then r + [cells[|cells| - 1]] else r
  }

  /** The value `_get_coop_action_pairs` returns. */
  function CoopPairs(g: Game): seq<ActionPair> {
    WithSum(g, Cells, MaxSum(g, Cells))
  }

  ghost predicate NoDuplicates(s: seq<ActionPair>) {
    forall i, j :: 0 <= i < j < |s| ==> s[i] != s[j]
  }

  lemma {:induction false} WithSumNoDuplicates(g: Game, cells: seq<ActionPair>, m: real)
    requires NoDuplicates(cells)
    ensures NoDuplicates(WithSum(g, cells, m))
  {
    if cells != [] {
      WithSumNoDuplicates(g, cells[..|cells| - 1], m);
    }
  }

  /**
   * The cooperative pairs are exactly the cells whose reward sum is the largest of the
   * four; there is at least one and none is listed twice.
   */
  lemma CoopPairsAreTheMaximalCells(g: Game)
    ensures |CoopPairs(g)| >= 1
    ensures NoDuplicates(CoopPairs(g))
    ensures forall c :: c in CoopPairs(g) <==>
                        c in Cells && forall d :: d in Cells ==> CellSum(g, d) <= CellSum(g, c)
  {
    CoopPairsNonEmpty(g);
    WithSumNoDuplicates(g, Cells, MaxSum(g, Cells));
  }

  /** A cell reaching the largest sum exists, so `coop_action_pairs` is never empty. */
  lemma CoopPairsNonEmpty(g: Game)
    ensures CoopPairs(g) != []
  {
    var m := MaxSum(g, Cells);
    assert exists c :: c in Cells && CellSum(g, c) == m;
    var c :| c in Cells && CellSum(g, c) == m;
    assert c in CoopPairs(g);
  }

  /** A list without repeats has more than one element exactly when it holds two different ones. */
  lemma MoreThanOneIffTwoDistinct(s: seq<ActionPair>)
    requires NoDuplicates(s)
    ensures |s| > 1 <==> exists c, d :: c in s && d in s && c != d
  {
    if |s| > 1 {
      assert s[0] in s && s[1] in s && s[0] != s[1];
    } else if |s| == 1 {
      assert forall c :: c in s ==> c == s[0];
    }
  }

  /** `two_optimal_actions` holds exactly when two different cells tie for the largest sum. */
  lemma TwoOptimalIffTie(g: Game)
    ensures |CoopPairs(g)| > 1 <==>
            exists c, d :: c in Cells && d in Cells && c != d &&
                           CellSum(g, c) == MaxSum(g, Cells) && CellSum(g, d) == MaxSum(g, Cells)
  {
    CoopPairsAreTheMaximalCells(g);
    MoreThanOneIffTwoDistinct(CoopPairs(g));
  }

  /** `max(rewards, key=sum)`: the loop over the cells that keeps the largest reward sum. */
  method FindMaxSum(g: Game, cells: seq<ActionPair>) returns (best: real)
    requires |cells| > 0
    ensures best == MaxSum(g, cells)
  {
    best := CellSum(g, cells[0]);
    var k := 1;
    while k < |cells|
      invariant 1 <= k <= |cells|
      invariant best == MaxSum(g, cells[..k])
    {
      assert cells[..k + 1][..k] == cells[..k];
      var s := CellSum(g, cells[k]);
      if best < s {
        best := s;
      }
      k := k + 1;
    }
    assert cells[..|cells|] == cells;
  }

  /** The loop that appends every cell whose reward sum equals `m` to `filtered_optimal_cells`. */
  method FilterBySum(g: Game, cells: seq<ActionPair>, m: real) returns (pairs: seq<ActionPair>)
    ensures pairs == WithSum(g, cells, m)
  {
    pairs := [];
    var k := 0;
    while k < |cells|
      invariant 0 <= k <= |cells|
      invariant pairs == WithSum(g, cells[..k], m)
    {
      assert cells[..k + 1][..k] == cells[..k];
      if CellSum(g, cells[k]) == m {
        pairs := pairs + [cells[k]];
      }
      k := k + 1;
    }
    assert cells[..|cells|] == cells;
  }

  /**
   * `_get_coop_action_pairs()`: find the largest reward sum, then keep the cells that reach it.
   * (The source iterates a Python set, whose order is unspecified; the model fixes row-major order.)
   */
  method GetCoopActionPairs(g: Game) returns (pairs: seq<ActionPair>)
    ensures pairs == CoopPairs(g)
  {
    var best := FindMaxSum(g, Cells);
    pairs := FilterBySum(g, Cells, best);
  }

  /** The agent's module globals (`game`, `prev_actions`, `coop_action_pairs`, `two_optimal_actions`, `my_idx`). */
  type Slots = s: seq<Action> | |s| == 2 witness [0, 0]

  datatype State = State(
    game: Option<Game>,
    prevActions: Slots,
    coopPairs: Option<seq<ActionPair>>,
    twoOptimal: bool,
    myIdx: PlayerIndex)

  /** The globals right after the module is loaded. */
  const LoadState := State(None, [0, 0], None, false, 0)

  /** `startGame(g)`; `my_idx` is not reset and carries over from the previous match. */
  function StartGameState(s: State, g: Game): (r: State)
    ensures r.game == Some(g) && r.myIdx == s.myIdx && r.prevActions == [0, 0]
    ensures r.coopPairs == Some(CoopPairs(g)) && r.twoOptimal == (|CoopPairs(g)| > 1)
  {
    var pairs := CoopPairs(g);
    s.(game := Some(g), prevActions := [0, 0], coopPairs := Some(pairs), twoOptimal := |pairs| > 1)
  }

  /** `update(my_index, actions)`: both slots of `prev_actions` are overwritten. */
  function UpdateState(s: State, myIndex: PlayerIndex, actions: ActionPair): (r: State)
    ensures r.myIdx == myIndex
    ensures r.prevActions == [actions.first, actions.second]
    ensures r.game == s.game && r.coopPairs == s.coopPairs && r.twoOptimal == s.twoOptimal
  {
    var oppIndex := Other(myIndex);
    var prev := s.prevActions[myIndex := actions.At(myIndex)][oppIndex := actions.At(oppIndex)];
    s.(myIdx := myIndex, prevActions := prev)
  }

  /** `not a` on an action (the source returns a Python bool; the model keeps it an action). */
  function Flip(a: Action): Action {
    1 - a
  }

  /**
   * `getAction()`. `coin` is the draw `random.randint(0, 1)` would make in the branch that
   * `no_optimal_actions` switches off. Raises when `startGame` has not run (`coop_action_pairs` is None).
   */
  function GetAction(s: State, coin: Action): ActionResult {
    var myPrev := s.prevActions[s.myIdx];
    var oppPrev := s.prevActions[OppIdx];
    if NoOptimalActions then Chosen(coin)
    else if s.twoOptimal then
      match s.coopPairs
      case None => Raised("argument of type 'NoneType' is not iterable")
      case Some(pairs) =>
        var lo := if s.myIdx <= OppIdx then s.myIdx else OppIdx;
        var hi := if s.myIdx <= OppIdx then OppIdx else s.myIdx;
        var key := ActionPair(s.prevActions[lo], s.prevActions[hi]);
        Chosen(if key in pairs then myPrev else Flip(myPrev))
    else
      match s.coopPairs
      case None => Raised("'NoneType' object is not subscriptable")
      case Some(pairs) =>
        if pairs == [] then Raised("list index out of range")
        else
          var coopPair := pairs[0];
          var oppPrevWasCoop := coopPair.At(OppIdx) == oppPrev;
          Chosen(if oppPrevWasCoop then coopPair.At(s.myIdx) else Flip(coopPair.At(s.myIdx)))
  }

  /** The globals hold what `startGame` computed for some game. */
  ghost predicate Started(s: State) {
    exists g: Game :: s.coopPairs == Some(CoopPairs(g)) && s.twoOptimal == (|CoopPairs(g)| > 1)
  }

  /** Once started, the agent never raises, and `update` keeps it started. */
  lemma NeverRaisesOnceStarted(s: State, myIndex: PlayerIndex, actions: ActionPair, coin: Action)
    requires Started(s)
    ensures GetAction(s, coin).Chosen?
    ensures Started(UpdateState(s, myIndex, actions))
  {
    var g: Game :| s.coopPairs == Some(CoopPairs(g)) && s.twoOptimal == (|CoopPairs(g)| > 1);
    CoopPairsNonEmpty(g);
    ChosenWithPairs(s, coin);
    var u := UpdateState(s, myIndex, actions);
    assert u.coopPairs == Some(CoopPairs(g)) && u.twoOptimal == (|CoopPairs(g)| > 1);
  }

  /** `getAction` only raises when `coop_action_pairs` is missing or empty. */
  lemma ChosenWithPairs(s: State, coin: Action)
    requires s.coopPairs.Some? && s.coopPairs.value != []
    ensures GetAction(s, coin).Chosen?
  {
  }

  lemma StartGameStarts(s: State, g: Game)
    ensures Started(StartGameState(s, g))
  {
    var r := StartGameState(s, g);
    assert r.coopPairs == Some(CoopPairs(g)) && r.twoOptimal == (|CoopPairs(g)| > 1);
  }

  /** The random branch is unreachable: the coin never influences the action. */
  lemma CoinIsNeverUsed(s: State, c1: Action, c2: Action)
    ensures GetAction(s, c1) == GetAction(s, c2)
  {
  }

  /**
   * With a single cooperative pair, playing as player 0: the agent plays its part of the
   * pair if the opponent played the opponent's part last round, and the other action otherwise.
   */
  lemma SingleCoopPairAsPlayer0(g: Game, s: State, actions: ActionPair, coin: Action)
    requires s.coopPairs == Some(CoopPairs(g)) && CoopPairs(g) == [CoopPairs(g)[0]] && !s.twoOptimal
    ensures var cp := CoopPairs(g)[0];
            GetAction(UpdateState(s, 0, actions), coin) ==
            Chosen(if actions.second == cp.second then cp.first else Flip(cp.first))
  {
  }

  /**
   * With a single cooperative pair, playing as player 1: `opp_idx` is still 1, so the
   * agent compares the pair with its OWN previous action and ignores the opponent's.
   */
  lemma SingleCoopPairAsPlayer1(g: Game, s: State, actions: ActionPair, coin: Action)
    requires s.coopPairs == Some(CoopPairs(g)) && CoopPairs(g) == [CoopPairs(g)[0]] && !s.twoOptimal
    ensures var cp := CoopPairs(g)[0];
            GetAction(UpdateState(s, 1, actions), coin) ==
            Chosen(if actions.second == cp.second then cp.second else Flip(cp.second))
  {
  }

  /**
   * With several cooperative pairs, playing as player 0: the agent repeats its previous
   * action if the previous action pair was cooperative, and switches otherwise.
   */
  lemma SeveralCoopPairsAsPlayer0(s: State, actions: ActionPair, coin: Action)
    requires s.coopPairs.Some? && s.twoOptimal
    ensures GetAction(UpdateState(s, 0, actions), coin) ==
            Chosen(if actions in s.coopPairs.value then actions.first else Flip(actions.first))
  {
  }

  /**
   * With several cooperative pairs, playing as player 1: `sorted([1, opp_idx])` is [1, 1],
   * so the pair looked up is (own previous action, own previous action).
   */
  lemma SeveralCoopPairsAsPlayer1(s: State, actions: ActionPair, coin: Action)
    requires s.coopPairs.Some? && s.twoOptimal
    ensures GetAction(UpdateState(s, 1, actions), coin) ==
            Chosen(if ActionPair(actions.second, actions.second) in s.coopPairs.value
                   then actions.second else Flip(actions.second))
  {
  }

  /** The agent's module globals. */
  class EthanAgent {
    const name: string
    var game: Option<Game>
    var prevActions: Slots
    var coopActionPairs: Option<seq<ActionPair>>
    var twoOptimalActions: bool
    var myIdx: PlayerIndex

    function Model(): State
      reads this
    {
      State(game, prevActions, coopActionPairs, twoOptimalActions, myIdx)
    }

    constructor ()
      ensures name == Name && Model() == LoadState
    {
      name := Name;
      game := None;
      prevActions := [0, 0];
      coopActionPairs := None;
      twoOptimalActions := false;
      myIdx := 0;
    }

    method StartGame(g: Game)
      modifies this
      ensures Model() == StartGameState(old(Model()), g)
    {
      game := Some(g);
      prevActions := [0, 0];
      var pairs := GetCoopActionPairs(g);
      coopActionPairs := Some(pairs);
      twoOptimalActions := |pairs| > 1;
    }

    method Update(myIndex: PlayerIndex, actions: ActionPair)
      modifies this
      ensures Model() == UpdateState(old(Model()), myIndex, actions)
    {
      myIdx := myIndex;
      var oppIndex := Other(myIndex);
      prevActions := prevActions[myIndex := actions.At(myIndex)];
      prevActions := prevActions[oppIndex := actions.At(oppIndex)];
    }
  }
}
