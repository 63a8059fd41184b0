/**
 * The application-flow state machine (GameStateMachine.cs): on activation
 * it checks the stored progress and either resumes the saved game or opens
 * the menu, then alternates between Menu and Playing as games start and end.
 */
module AppFlow {
  import opened Optional
  import opened Configs
  import opened Signals
  import opened Data

  datatype AppState = InitialState | CheckGameState | Menu | Playing

  datatype AppTrigger = CheckStateTrigger | LoadMenuTrigger | PlayTrigger | GameCompletedTrigger

  /** The Permit table configured in Initialize. */
  function AppNext(s: AppState, t: AppTrigger): Option<AppState> {
    match (s, t)
    case (InitialState, CheckStateTrigger) => Some(CheckGameState)
    case (CheckGameState, LoadMenuTrigger) => Some(Menu)
    case (CheckGameState, PlayTrigger) => Some(Playing)
    case (Menu, PlayTrigger) => Some(Playing)
    case (Playing, GameCompletedTrigger) => Some(Menu)
    case _ => None
  }

  /** Past activation the only moves are Check to Menu, Check to Playing, Menu to Playing and Playing to Menu. */
  lemma AppTransitions(s: AppState, t: AppTrigger, s': AppState)
    requires AppNext(s, t) == Some(s')
    ensures s == InitialState <==> s' == CheckGameState
    ensures s != InitialState ==>
      (s == CheckGameState && s' == Menu) || (s == CheckGameState && s' == Playing)
      || (s == Menu && s' == Playing) || (s == Playing && s' == Menu)
  {
  }

  /** No state is terminal: each one permits some trigger. */
  lemma NoTerminalState(s: AppState)
    ensures exists t :: AppNext(s, t).Some?
  {
    match s
    case InitialState => assert AppNext(s, CheckStateTrigger).Some?;
    case CheckGameState => assert AppNext(s, LoadMenuTrigger).Some?;
    case Menu => assert AppNext(s, PlayTrigger).Some?;
    case Playing => assert AppNext(s, GameCompletedTrigger).Some?;
  }

  /** Which of its handlers the flow keeps subscribed while it rests in each state. */
  predicate FlowSubscribedFor(hs: set<Handler>, s: AppState) {
    && (FlowOnGameStarted in hs <==> s == Menu)
    && (FlowOnGameCompleted in hs <==> s == Playing)
  }

  const FlowHandlers: set<Handler> := {FlowOnGameStarted, FlowOnGameCompleted}

  /** The GameStartedSignal that resumes the stored game: saved round, saved score, difficulty at the saved index. */
  function ResumeSignal(difficulties: seq<DifficultyConfig>, data: GameData): (r: GameStartedSignal)
    requires HasGameInProgress(data) && data.currentDifficulty < |difficulties|
    ensures r.roundCount == data.currentRoundCount && r.currentScore == data.currentScore
    ensures r.difficultyConfig in difficulties
  {
    GameStartedSignal(data.currentRoundCount, data.currentScore, difficulties[data.currentDifficulty])
  }

  /**
   * Saving progress for a round of a known difficulty and then resuming
   * gives back the same round, score and difficulty.
   */
  lemma SaveThenResume(data: GameData, difficulties: seq<DifficultyConfig>, d: DifficultyConfig, round: int, score: int)
    requires d in difficulties && round > 0
    ensures var saved := data.(currentDifficulty := IndexOf(difficulties, d), currentRoundCount := round, currentScore := score);
      && HasGameInProgress(saved)
      && saved.currentDifficulty < |difficulties|
      && ResumeSignal(difficulties, saved) == GameStartedSignal(round, score, d)
  {
  }

  /** A cleared store resumes nothing: the next activation opens the menu. */
  lemma ClearedStoreOpensMenu(data: GameData)
    ensures !HasGameInProgress(ClearCurrentGame(data))
    ensures !HasGameInProgress(InitialGameData())
  {
  }

  class GameStateMachine {
    const bus: SignalBus
    const difficulties: seq<DifficultyConfig>
    var state: AppState

    ghost predicate Valid()
      reads this, bus
    {
      FlowSubscribedFor(bus.handlers, state)
    }

    constructor (bus: SignalBus, difficulties: seq<DifficultyConfig>)
      requires FlowSubscribedFor(bus.handlers, InitialState)
      ensures Valid()
      ensures this.bus == bus && this.difficulties == difficulties && state == InitialState
    {
      this.bus := bus;
      this.difficulties := difficulties;
      state := InitialState;
    }

    // ----- entry and exit actions

    /** The exit action of the current state: it unsubscribes exactly what the entry subscribed. */
    method ExitState()
      requires FlowSubscribedFor(bus.handlers, state)
      modifies bus
      ensures bus.handlers == old(bus.handlers) - FlowHandlers
      ensures bus.published == old(bus.published)
    {
      match state
      case InitialState =>
      case CheckGameState =>
      case Menu =>
        bus.TryUnsubscribe(FlowOnGameStarted);
      case Playing =>
        bus.TryUnsubscribe(FlowOnGameCompleted);
    }

    method OnMenuEntry()
      requires FlowSubscribedFor(bus.handlers, InitialState)
      modifies bus
      ensures bus.handlers == old(bus.handlers) + {FlowOnGameStarted}
      ensures bus.published == old(bus.published) + [Delivery(MenuLoaded, {})]
    {
      bus.Subscribe(FlowOnGameStarted);
      assert bus.handlers * Listeners(MenuLoaded) == {};
      bus.Fire(MenuLoaded);
    }

    method OnPlayingEntry()
      requires FlowSubscribedFor(bus.handlers, InitialState)
      modifies bus
      ensures bus.handlers == old(bus.handlers) + {FlowOnGameCompleted}
      ensures bus.published == old(bus.published)
    {
      bus.Subscribe(FlowOnGameCompleted);
    }

    // ----- transitions

    /** LoadMenuTrigger or GameCompletedTrigger: into Menu. */
    method EnterMenu()
      requires Valid() && (state == CheckGameState || state == Playing)
      modifies this`state, bus
      ensures Valid() && state == Menu
      ensures bus.handlers == old(bus.handlers) - FlowHandlers + {FlowOnGameStarted}
      ensures bus.published == old(bus.published) + [Delivery(MenuLoaded, {})]
    {
      ExitState();
      state := Menu;
      OnMenuEntry();
    }

    /** PlayTrigger: into Playing. */
    method EnterPlaying()
      requires Valid() && (state == CheckGameState || state == Menu)
      modifies this`state, bus
      ensures Valid() && state == Playing
      ensures bus.handlers == old(bus.handlers) - FlowHandlers + {FlowOnGameCompleted}
      ensures bus.published == old(bus.published)
    {
      ExitState();
      state := Playing;
      OnPlayingEntry();
    }

    /**
     * Entry of CheckGameState: with a game in progress, announce it on the
     * bus and play; otherwise open the menu.  The saved difficulty index is
     * used to index the difficulty list, so it must be in range.
     */
    method OnCheckGameStateEntry(data: GameData)
      requires Valid() && state == CheckGameState
      requires HasGameInProgress(data) ==> data.currentDifficulty < |difficulties|
      modifies this`state, bus
      ensures Valid()
      ensures HasGameInProgress(data) ==>
        && AppNext(old(state), PlayTrigger) == Some(state) && state == Playing
        && bus.published == old(bus.published)
             + [Delivery(GameStarted(ResumeSignal(difficulties, data)), old(bus.handlers) * {ControllerOnGameStarted})]
        && bus.handlers == old(bus.handlers) + {FlowOnGameCompleted}
      ensures !HasGameInProgress(data) ==>
        && AppNext(old(state), LoadMenuTrigger) == Some(state) && state == Menu
        && bus.published == old(bus.published) + [Delivery(MenuLoaded, {})]
        && bus.handlers == old(bus.handlers) + {FlowOnGameStarted}
    {
      if HasGameInProgress(data) {
        var signal := ResumeSignal(difficulties, data);
        assert bus.handlers * Listeners(GameStarted(signal)) == bus.handlers * {ControllerOnGameStarted};
        bus.Fire(GameStarted(signal));
        EnterPlaying();
      } else {
        EnterMenu();
      }
    }

    // ----- events

    /**
     * Activate: the initial state fires CheckStateTrigger at once, whose
     * entry consults the stored progress data.  The resume signal is fired
     * before the flow has subscribed to GameStartedSignal, so the flow's own
     * OnGameStarted does not receive it.
     */
    method Initialize(data: GameData)
      requires Valid() && state == InitialState
      requires HasGameInProgress(data) ==> data.currentDifficulty < |difficulties|
      modifies this`state, bus
      ensures Valid()
      ensures AppNext(InitialState, CheckStateTrigger) == Some(CheckGameState)
      ensures HasGameInProgress(data) ==>
        && state == Playing
        && |bus.published| == |old(bus.published)| + 1
        && bus.published[|old(bus.published)|].signal == GameStarted(ResumeSignal(difficulties, data))
        && FlowOnGameStarted !in bus.published[|old(bus.published)|].receivers
        && bus.published[|old(bus.published)|].receivers == old(bus.handlers) * {ControllerOnGameStarted}
        && bus.handlers == old(bus.handlers) + {FlowOnGameCompleted}
      ensures !HasGameInProgress(data) ==>
        && state == Menu
        && bus.published == old(bus.published) + [Delivery(MenuLoaded, {})]
        && bus.handlers == old(bus.handlers) + {FlowOnGameStarted}
    {
      state := CheckGameState;
      OnCheckGameStateEntry(data);
    }

    /** The GameStartedSignal handler, subscribed in Menu: PlayTrigger. */
    method OnGameStarted()
      requires Valid() && FlowOnGameStarted in bus.handlers
      modifies this`state, bus
      ensures Valid()
      ensures old(state) == Menu && AppNext(old(state), PlayTrigger) == Some(state) && state == Playing
      ensures bus.handlers == old(bus.handlers) - {FlowOnGameStarted} + {FlowOnGameCompleted}
      ensures bus.published == old(bus.published)
    {
      EnterPlaying();
    }

    /** The GameCompletedSignal handler, subscribed in Playing: GameCompletedTrigger. */
    method OnGameCompleted()
      requires Valid() && FlowOnGameCompleted in bus.handlers
      modifies this`state, bus
      ensures Valid()
      ensures old(state) == Playing && AppNext(old(state), GameCompletedTrigger) == Some(state) && state == Menu
      ensures bus.handlers == old(bus.handlers) - {FlowOnGameCompleted} + {FlowOnGameStarted}
      ensures bus.published == old(bus.published) + [Delivery(MenuLoaded, {})]
    {
      EnterMenu();
    }
  }
}
