/**
 * The signals exchanged on the bus and the bus itself.  A Zenject SignalBus
 * delivers a fired signal synchronously to the handlers subscribed for its
 * type; the model keeps the set of subscribed handler tags and a log of every
 * fired signal together with the modelled handlers it reached.
 */
module Signals {
  import opened Configs
  import opened Managers

  /** GameStartedSignal.cs: round, score and difficulty of a game that begins or resumes. */
  datatype GameStartedSignal = GameStartedSignal(roundCount: int, currentScore: int, difficultyConfig: DifficultyConfig)

  datatype Signal =
    | GameStarted(started: GameStartedSignal)
    | RoundChanged(currentRound: int, totalRounds: int)
    | ScoreUpdated(score: int, combo: int)
    | GameCompleted(finalScore: int)
    | MenuLoaded
    | CardSelected(card: Card)
    | ReturnToMenu

  /** The handlers of the two state machines that subscribe to the bus. */
  datatype Handler =
    | FlowOnGameStarted      // GameStateMachine.OnGameStarted
    | FlowOnGameCompleted    // GameStateMachine.OnGameCompleted
    | ControllerOnGameStarted   // GameController.OnGameStarted
    | ControllerOnCardSelected  // GameController.OnCardSelected
    | ControllerOnReturnToMenu  // GameController.OnReturnToMenu

  /** The handlers that listen for the type of signal s. */
  function Listeners(s: Signal): set<Handler> {
    match s
    case GameStarted(_) => {FlowOnGameStarted, ControllerOnGameStarted}
    case GameCompleted(_) => {FlowOnGameCompleted}
    case CardSelected(_) => {ControllerOnCardSelected}
    case ReturnToMenu => {ControllerOnReturnToMenu}
    case _ => {}
  }

  /** One Fire on the bus: the signal and the subscribed handlers it was delivered to. */
  datatype Delivery = Delivery(signal: Signal, receivers: set<Handler>)

  class SignalBus {
    var handlers: set<Handler>
    var published: seq<Delivery>

    constructor ()
      ensures handlers == {} && published == []
    {
      handlers := {};
      published := [];
    }

    /** Subscribe: Zenject refuses a handler that is already subscribed. */
    method Subscribe(h: Handler)
      requires h !in handlers
      modifies this
      ensures handlers == old(handlers) + {h}
      ensures published == old(published)
    {
      handlers := handlers + {h};
    }

    /** Unsubscribe: Zenject refuses a handler that is not subscribed. */
    method Unsubscribe(h: Handler)
      requires h in handlers
      modifies this
      ensures handlers == old(handlers) - {h}
      ensures published == old(published)
    {
      handlers := handlers - {h};
    }

    /** TryUnsubscribe: removes the handler if present, a no-op otherwise. */
    method TryUnsubscribe(h: Handler)
      modifies this
      ensures handlers == old(handlers) - {h}
      ensures published == old(published)
    {
      handlers := handlers - {h};
    }

    /** Fire: the signal reaches exactly the subscribed handlers of its type. */
    method Fire(s: Signal)
      modifies this
      ensures handlers == old(handlers)
      ensures published == old(published) + [Delivery(s, old(handlers) * Listeners(s))]
    {
      published := published + [Delivery(s, handlers * Listeners(s))];
    }
  }
}
