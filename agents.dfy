/**
 * The agent interface the engine relies on (`startGame`, `getAction`, `update`, `name`),
 * as a closed sum over the four agent implementations, with a value-level model of
 * each agent's globals that the engine's specification folds over.
 */
module Agents {
  import opened Payoff
  import opened OpponentHistory
  import Fictitious
  import Ethan
  import RandomPlay
  import Constant0

  /** The module globals of one agent, as a value. */
  datatype AgentModel =
    | FictitiousModel(counts: CounterState)
    | EthanModel(ethan: Ethan.State)
    | RandomModel(counts: CounterState)
    | Constant0Model(counts: CounterState)

  /** The fictitious agent's counts stay positive; nothing else is required. */
  ghost predicate ValidModel(m: AgentModel) {
    m.FictitiousModel? ==> Fictitious.ValidState(m.counts)
  }

  /** What `startGame(g)` leaves in the globals. */
  function AfterStartGame(m: AgentModel, g: Game): (r: AgentModel)
    ensures ValidModel(r)
  {
    match m
    case FictitiousModel(_) => FictitiousModel(Fictitious.StartGameState(g))
    case EthanModel(e) => EthanModel(Ethan.StartGameState(e, g))
    case RandomModel(_) => RandomModel(RandomPlay.StartGameState(g))
    case Constant0Model(_) => Constant0Model(Constant0.StartGameState(g))
  }

  /** What `update(my_index, actions)` leaves in the globals. */
  function AfterUpdate(m: AgentModel, myIndex: PlayerIndex, actions: ActionPair): (r: AgentModel)
    ensures ValidModel(m) ==> ValidModel(r)
  {
    var o := Observation(myIndex, actions);
    match m
    case FictitiousModel(c) => FictitiousModel(Fictitious.UpdateState(c, o))
    case EthanModel(e) => EthanModel(Ethan.UpdateState(e, myIndex, actions))
    case RandomModel(c) => RandomModel(RandomPlay.UpdateState(c, o))
    case Constant0Model(c) => Constant0Model(Constant0.UpdateState(c, o))
  }

  /** What `getAction()` returns; `coin` is the random draw an agent may make. */
  function ActionOf(m: AgentModel, coin: Action): ActionResult
    requires ValidModel(m)
  {
    match m
    case FictitiousModel(c) => Fictitious.GetAction(c)
    case EthanModel(e) => Ethan.GetAction(e, coin)
    case RandomModel(c) => RandomPlay.GetAction(c, coin)
    case Constant0Model(c) => Constant0.GetAction(c)
  }

  /** The globals hold what `startGame` set up, possibly followed by updates. */
  ghost predicate Running(m: AgentModel) {
    ValidModel(m) &&
    match m
    case FictitiousModel(c) => c.game.Some?
    case EthanModel(e) => Ethan.Started(e)
    case RandomModel(_) => true
    case Constant0Model(_) => true
  }

  /** `startGame` leaves every agent running. */
  lemma StartGameRuns(m: AgentModel, g: Game)
    ensures Running(AfterStartGame(m, g))
  {
    if m.EthanModel? {
      Ethan.StartGameStarts(m.ethan, g);
    }
  }

  /**
   * A running agent's `getAction` never raises, and updates keep it running; so inside a
   * match the engine's fallback is never used by these four agents.
   */
  lemma RunningNeverRaises(m: AgentModel, myIndex: PlayerIndex, actions: ActionPair, coin: Action)
    requires Running(m)
    ensures Running(AfterUpdate(m, myIndex, actions))
    ensures ActionOf(m, coin).Chosen?
  {
    if m.EthanModel? {
      Ethan.NeverRaisesOnceStarted(m.ethan, myIndex, actions, coin);
    }
  }

  /** Before any `startGame`, the fictitious and Ethan agents raise; the other two do not. */
  lemma RaisesOnlyBeforeStart(coin: Action)
    ensures ActionOf(FictitiousModel(CounterState(None, Fictitious.InitialHistory)), coin).Raised?
    ensures ActionOf(EthanModel(Ethan.LoadState), coin).Raised?
    ensures ActionOf(RandomModel(CounterState(None, RandomPlay.InitialHistory)), coin) == Chosen(coin)
    ensures ActionOf(Constant0Model(CounterState(None, Constant0.InitialHistory)), coin) == Chosen(0)
  {
  }

  /** The constant-0 agent plays 0 in every state; the random agent plays its draw in every state. */
  lemma FixedPolicies(c: CounterState, coin: Action)
    ensures ActionOf(Constant0Model(c), coin) == Chosen(0)
    ensures ActionOf(RandomModel(c), coin) == Chosen(coin)
  {
  }

  /** One agent object, of one of the four kinds. */
  datatype Agent =
    | FictitiousPlayer(f: Fictitious.FictitiousAgent)
    | EthanPlayer(e: Ethan.EthanAgent)
    | RandomPlayer(r: RandomPlay.RandomAgent)
    | Constant0Player(c: Constant0.Constant0Agent)
  {
    /** The object holding this agent's globals. */
    function Obj(): object {
      match this
      case FictitiousPlayer(f) => f
      case EthanPlayer(e) => e
      case RandomPlayer(r) => r
      case Constant0Player(c) => c
    }

    function Name(): string {
      match this
      case FictitiousPlayer(f) => f.name
      case EthanPlayer(e) => e.name
      case RandomPlayer(r) => r.name
      case Constant0Player(c) => c.name
    }

    function Model(): AgentModel
      reads Obj()
    {
      match this
      case FictitiousPlayer(f) => FictitiousModel(f.Model())
      case EthanPlayer(e) => EthanModel(e.Model())
      case RandomPlayer(r) => RandomModel(r.Model())
      case Constant0Player(c) => Constant0Model(c.Model())
    }

    method StartGame(g: Game)
      modifies Obj()
      ensures Model() == AfterStartGame(old(Model()), g)
    {
      match this
      case FictitiousPlayer(f) => f.StartGame(g);
      case EthanPlayer(e) => e.StartGame(g);
      case RandomPlayer(r) => r.StartGame(g);
      case Constant0Player(c) => c.StartGame(g);
    }

    method Update(myIndex: PlayerIndex, actions: ActionPair)
      requires ValidModel(Model())
      modifies Obj()
      ensures Model() == AfterUpdate(old(Model()), myIndex, actions)
    {
      match this
      case FictitiousPlayer(f) => f.Update(myIndex, actions);
      case EthanPlayer(e) => e.Update(myIndex, actions);
      case RandomPlayer(r) => r.Update(myIndex, actions);
      case Constant0Player(c) => c.Update(myIndex, actions);
    }
  }
}
