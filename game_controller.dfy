/**
 * The round/turn state machine (Controllers/GameController.cs).
 *
 * The Stateless machine is the `state` field together with the transition
 * table `Next`; firing a trigger the table does not permit is a precondition
 * failure, as Stateless throws.  Each method of GameController is one event
 * delivered to the controller: a bus signal reaching one of its subscribed
 * handlers, or a timed continuation (coroutine step or delayed call) that the
 * environment delivers when its delay has elapsed.
 */
module Controllers {
  import opened Optional
  import opened Configs
  import opened Signals
  import opened Data
  import opened Managers

  datatype State = InitialState | WaitingForGameStart | InitializeRound | ChoosingCards | MatchSuccess | MatchFail

  datatype Trigger =
    | StartWaitingTrigger
    | GameStarted
    | RoundInitialized
    | FirstCardSelected
    | SecondCardSelected
    | CardsMatched
    | CardsMismatched
    | AnimationCompleted
    | AllCardsCompleted
    | AllRoundsCompleted
    | ReturnToMenuTrigger

  /** The Permit table configured in Initialize. */
  function Next(s: State, t: Trigger): Option<State> {
    match (s, t)
    case (InitialState, StartWaitingTrigger) => Some(WaitingForGameStart)
    case (WaitingForGameStart, GameStarted) => Some(InitializeRound)
    case (InitializeRound, RoundInitialized) => Some(ChoosingCards)
    case (InitializeRound, ReturnToMenuTrigger) => Some(WaitingForGameStart)
    case (ChoosingCards, CardsMatched) => Some(MatchSuccess)
    case (ChoosingCards, CardsMismatched) => Some(MatchFail)
    case (ChoosingCards, ReturnToMenuTrigger) => Some(WaitingForGameStart)
    case (MatchSuccess, AllCardsCompleted) => Some(InitializeRound)
    case (MatchSuccess, AllRoundsCompleted) => Some(WaitingForGameStart)
    case (MatchSuccess, AnimationCompleted) => Some(ChoosingCards)
    case (MatchSuccess, ReturnToMenuTrigger) => Some(WaitingForGameStart)
    case (MatchFail, AnimationCompleted) => Some(ChoosingCards)
    case (MatchFail, ReturnToMenuTrigger) => Some(WaitingForGameStart)
    case _ => None
  }

  predicate Permitted(s: State, t: Trigger) {
    Next(s, t).Some?
  }

  /** The four states of a round in play, each of which accepts a return to the menu. */
  predicate InRound(s: State) {
    s == InitializeRound || s == ChoosingCards || s == MatchSuccess || s == MatchFail
  }

  /** Every round state, and no other, returns to WaitingForGameStart on ReturnToMenuTrigger. */
  lemma ReturnToMenuFromRoundStates(s: State)
    ensures Permitted(s, ReturnToMenuTrigger) <==> InRound(s)
    ensures InRound(s) ==> Next(s, ReturnToMenuTrigger) == Some(WaitingForGameStart)
  {
  }

  /** A match decision is accepted in ChoosingCards only, so one delivered in any other state throws. */
  lemma DecisionOnlyWhileChoosing(s: State)
    ensures Permitted(s, CardsMatched) <==> s == ChoosingCards
    ensures Permitted(s, CardsMismatched) <==> s == ChoosingCards
  {
  }

  /** A round begins only from a game start or after a completed round, never by re-entering ChoosingCards. */
  lemma RoundStartsOnlyFromStartOrCompletedRound(s: State, t: Trigger)
    ensures Next(s, t) == Some(InitializeRound) <==>
      (s == WaitingForGameStart && t == Trigger.GameStarted) || (s == MatchSuccess && t == AllCardsCompleted)
    ensures Next(s, t) == Some(ChoosingCards) <==>
      (s == InitializeRound && t == RoundInitialized) || ((s == MatchSuccess || s == MatchFail) && t == AnimationCompleted)
  {
  }

  /** The declared selection triggers are never permitted, and the initial state is never re-entered. */
  lemma UnusedTriggers(s: State, t: Trigger)
    ensures !Permitted(s, FirstCardSelected) && !Permitted(s, SecondCardSelected)
    ensures Next(s, t) != Some(InitialState)
  {
  }

  /** Which of its handlers the controller keeps subscribed while it rests in each state. */
  predicate SubscribedFor(hs: set<Handler>, s: State) {
    && (ControllerOnGameStarted in hs <==> s == WaitingForGameStart)
    && (ControllerOnCardSelected in hs <==> s == ChoosingCards)
    && (ControllerOnReturnToMenu in hs <==> InRound(s))
  }

  const ControllerHandlers: set<Handler> := {ControllerOnGameStarted, ControllerOnCardSelected, ControllerOnReturnToMenu}

  /** The coroutine running on the level manager (StopAllCoroutines cancels it). */
  datatype Routine = NoRoutine | ShowAndHideCardsRoutine | MatchSuccessAnimationRoutine | MatchFailAnimationRoutine

  function RoutineOf(s: State): Routine {
    match s
    case InitializeRound => ShowAndHideCardsRoutine
    case MatchSuccess => MatchSuccessAnimationRoutine
    case MatchFail => MatchFailAnimationRoutine
    case _ => NoRoutine
  }

  /** The trigger the decision callback fires for two selected cards. */
  function DecisionTrigger(first: Card, second: Card): Trigger {
    if first.config.cardId == second.config.cardId then CardsMatched else CardsMismatched
  }

  // ---------------------------------------------------------------------------
  // Score and combo bookkeeping

  datatype Outcome = Matched | Mismatched

  datatype Tally = Tally(score: int, combo: int)

  /** The effect of the MatchSuccess and MatchFail entry actions on score and combo. */
  function Resolve(t: Tally, o: Outcome): Tally {
    match o
    case Matched => Tally(t.score + t.combo + 1, t.combo + 1)
    case Mismatched => Tally(if t.score - 1 > 0 then t.score - 1 else 0, 0)
  }

  /** Score and combo after the resolved decisions of a game that started with the given score. */
  function Play(start: int, outcomes: seq<Outcome>): Tally {
    if |outcomes| == 0 then Tally(start, 0)
    else Resolve(Play(start, outcomes[..|outcomes| - 1]), outcomes[|outcomes| - 1])
  }

  /** k consecutive matches. */
  function Streak(k: nat): (r: seq<Outcome>)
    ensures |r| == k && forall i :: 0 <= i < k ==> r[i] == Matched
  {
    if k == 0 then [] else Streak(k - 1) + [Matched]
  }

  /** The score never becomes negative when the game started from a non-negative score. */
  lemma {:induction false} ScoreStaysNonNegative(start: int, outcomes: seq<Outcome>)
    requires start >= 0
    ensures Play(start, outcomes).score >= 0
    ensures Play(start, outcomes).combo >= 0
  {
    if |outcomes| > 0 {
      ScoreStaysNonNegative(start, outcomes[..|outcomes| - 1]);
    }
  }

  /** The combo is the length of the run of matches that ends the history. */
  lemma {:induction false} ComboIsTrailingStreak(start: int, outcomes: seq<Outcome>, k: nat)
    requires k <= |outcomes|
    requires forall i :: |outcomes| - k <= i < |outcomes| ==> outcomes[i] == Matched
    requires k < |outcomes| ==> outcomes[|outcomes| - 1 - k] == Mismatched
    ensures Play(start, outcomes).combo == k
  {
    if k > 0 {
      ComboIsTrailingStreak(start, outcomes[..|outcomes| - 1], k - 1);
    }
  }

  /** 1 + 2 + ... + k. */
  function Triangle(k: nat): (r: nat)
    ensures 2 * r == k * (k + 1)
  {
    if k == 0 then 0 else Triangle(k - 1) + k
  }

  /** k further matches add combo+1, combo+2, ..., combo+k to the score and k to the combo. */
  lemma {:induction false} StreakScores(start: int, outcomes: seq<Outcome>, k: nat)
    ensures var before := Play(start, outcomes);
      Play(start, outcomes + Streak(k)) == Tally(before.score + k * before.combo + Triangle(k), before.combo + k)
  {
    var before := Play(start, outcomes);
    if k == 0 {
      assert outcomes + Streak(0) == outcomes;
    } else {
      StreakScores(start, outcomes, k - 1);
      var longer := outcomes + Streak(k);
      assert longer[..|longer| - 1] == outcomes + Streak(k - 1);
      assert (k - 1) * before.combo + before.combo == k * before.combo;
    }
  }

  /** From combo 0 (game start or right after a mismatch), k matches add the triangular number k(k+1)/2. */
  lemma TriangularStreak(start: int, outcomes: seq<Outcome>, k: nat)
    requires |outcomes| == 0 || outcomes[|outcomes| - 1] == Mismatched
    ensures Play(start, outcomes + Streak(k)).score == Play(start, outcomes).score + k * (k + 1) / 2
    ensures Play(start, outcomes + Streak(k)).combo == k
  {
    StreakScores(start, outcomes, k);
  }

  // ---------------------------------------------------------------------------
  // The controller

  class GameController {
    const bus: SignalBus
    const level: LevelManager
    const config: GameConfig

    var state: State
    var currentRound: int
    var currentScore: int
    var comboCounter: int
    var successfulMatches: int
    var totalPairsInRound: int

    var firstSelectedCard: Option<Card>
    var secondSelectedCard: Option<Card>
    var currentDifficulty: Option<DifficultyConfig>

    /** The coroutine in flight on the level manager. */
    var routine: Routine
    /** Decision callbacks scheduled with DOVirtual.DelayedCall and not yet delivered. */
    var pendingDecisions: nat
    /** GameDataService.CurrentGameData. */
    var gameData: GameData

    /** The score the current game started from and the decisions resolved since. */
    ghost var startScore: int
    ghost var outcomes: seq<Outcome>

    ghost predicate Valid()
      reads this, level, bus
    {
      && level.catalog == config.allCardsConfigs
      && SubscribedFor(bus.handlers, state)
      && routine == RoutineOf(state)
      && Tally(currentScore, comboCounter) == Play(startScore, outcomes)
      && (state == InitialState || state == WaitingForGameStart ==> level.activeCards == [])
      && (InRound(state) ==>
            && currentDifficulty.Some?
            && FitsCatalog(currentDifficulty.value, config.allCardsConfigs)
            && totalPairsInRound == PairsOf(currentDifficulty.value)
            && |level.activeCards| == 2 * totalPairsInRound
            && (DistinctIds(config.allCardsConfigs) ==> Paired(level.activeCards)))
      && (state == ChoosingCards && secondSelectedCard.Some? ==>
            firstSelectedCard.Some? && secondSelectedCard.value != firstSelectedCard.value)
      && (state == MatchSuccess || state == MatchFail ==> firstSelectedCard.Some? && secondSelectedCard.Some?)
      && (state == InitializeRound ==> successfulMatches == 0)
      && (state == ChoosingCards || state == MatchFail ==>
            successfulMatches == 0 || 0 <= successfulMatches < totalPairsInRound)
      && (state == MatchSuccess ==>
            successfulMatches == 1 || 1 <= successfulMatches <= totalPairsInRound)
    }

    constructor (bus: SignalBus, level: LevelManager, config: GameConfig, gameData: GameData)
      requires level.catalog == config.allCardsConfigs && level.activeCards == []
      requires SubscribedFor(bus.handlers, InitialState)
      ensures Valid()
      ensures this.bus == bus && this.level == level && this.config == config && this.gameData == gameData
      ensures state == InitialState && routine == NoRoutine && pendingDecisions == 0
      ensures currentRound == 0 && currentScore == 0 && comboCounter == 0
      ensures successfulMatches == 0 && totalPairsInRound == 0
      ensures firstSelectedCard == None && secondSelectedCard == None && currentDifficulty == None
    {
      this.bus := bus;
      this.level := level;
      this.config := config;
      this.gameData := gameData;
      state := InitialState;
      currentRound, currentScore, comboCounter := 0, 0, 0;
      successfulMatches, totalPairsInRound := 0, 0;
      firstSelectedCard, secondSelectedCard, currentDifficulty := None, None, None;
      routine, pendingDecisions := NoRoutine, 0;
      startScore, outcomes := 0, [];
    }

    // ----- entry and exit actions

    /** The exit action of the current state: it unsubscribes exactly what the entry subscribed. */
    method ExitState()
      requires SubscribedFor(bus.handlers, state)
      modifies bus
      ensures bus.handlers == old(bus.handlers) - ControllerHandlers
      ensures bus.published == old(bus.published)
    {
      match state
      case InitialState =>
      case WaitingForGameStart =>
        bus.Unsubscribe(ControllerOnGameStarted);
      case InitializeRound =>
        bus.TryUnsubscribe(ControllerOnReturnToMenu);
      case ChoosingCards =>
        bus.TryUnsubscribe(ControllerOnCardSelected);
        bus.TryUnsubscribe(ControllerOnReturnToMenu);
      case MatchSuccess =>
        bus.TryUnsubscribe(ControllerOnReturnToMenu);
      case MatchFail =>
        bus.TryUnsubscribe(ControllerOnReturnToMenu);
    }

    method OnWaitingForGameStartEntry()
      requires SubscribedFor(bus.handlers, InitialState)
      modifies bus
      ensures bus.handlers == old(bus.handlers) + {ControllerOnGameStarted}
      ensures bus.published == old(bus.published)
    {
      bus.Subscribe(ControllerOnGameStarted);
    }

    /** Deals the round and starts the reveal coroutine. */
    method OnInitializeRoundEntry(rng: seq<int>)
      requires currentDifficulty.Some? && FitsCatalog(currentDifficulty.value, level.catalog)
      requires ValidLevelDraws(rng, |level.catalog|, PairsOf(currentDifficulty.value))
      requires SubscribedFor(bus.handlers, InitialState)
      modifies this`successfulMatches, this`totalPairsInRound, this`routine, level, bus
      ensures successfulMatches == 0 && totalPairsInRound == PairsOf(currentDifficulty.value)
      ensures |level.activeCards| == 2 * totalPairsInRound
      ensures LaidOut(level.activeCards, BuildDeck(level.catalog, currentDifficulty.value, rng),
                      currentDifficulty.value.gridX, currentDifficulty.value.gridY)
      ensures DistinctIds(level.catalog) ==> Paired(level.activeCards)
      ensures routine == ShowAndHideCardsRoutine
      ensures bus.handlers == old(bus.handlers) + {ControllerOnReturnToMenu}
      ensures bus.published == old(bus.published)
    {
      var d := currentDifficulty.value;
      successfulMatches := 0;
      var gridX := d.gridX;
      var gridY := d.gridY;
      totalPairsInRound := (gridX * gridY) / 2;
      level.InitializeLevel(d, rng);
      if DistinctIds(level.catalog) {
        ActiveCardsPaired(level.activeCards, level.catalog, d, rng);
      }
      bus.Subscribe(ControllerOnReturnToMenu);
      routine := ShowAndHideCardsRoutine;
    }

    method OnChoosingCardsEntry()
      requires SubscribedFor(bus.handlers, InitialState)
      modifies this`firstSelectedCard, this`secondSelectedCard, bus
      ensures firstSelectedCard == None && secondSelectedCard == None
      ensures bus.handlers == old(bus.handlers) + {ControllerOnCardSelected, ControllerOnReturnToMenu}
      ensures bus.published == old(bus.published)
    {
      firstSelectedCard := None;
      secondSelectedCard := None;
      bus.Subscribe(ControllerOnCardSelected);
      bus.Subscribe(ControllerOnReturnToMenu);
    }

    method OnMatchSuccessEntry()
      requires SubscribedFor(bus.handlers, InitialState)
      modifies this`successfulMatches, this`comboCounter, this`currentScore, this`routine, bus
      ensures successfulMatches == old(successfulMatches) + 1
      ensures Tally(currentScore, comboCounter) == Resolve(old(Tally(currentScore, comboCounter)), Matched)
      ensures routine == MatchSuccessAnimationRoutine
      ensures bus.handlers == old(bus.handlers) + {ControllerOnReturnToMenu}
      ensures bus.published == old(bus.published) + [Delivery(ScoreUpdated(currentScore, comboCounter), {})]
    {
      successfulMatches := successfulMatches + 1;
      comboCounter := comboCounter + 1;
      currentScore := currentScore + comboCounter;
      assert bus.handlers * Listeners(ScoreUpdated(currentScore, comboCounter)) == {};
      bus.Fire(ScoreUpdated(currentScore, comboCounter));
      bus.Subscribe(ControllerOnReturnToMenu);
      routine := MatchSuccessAnimationRoutine;
    }

    method OnMatchFailEntry()
      requires SubscribedFor(bus.handlers, InitialState)
      modifies this`comboCounter, this`currentScore, this`routine, bus
      ensures Tally(currentScore, comboCounter) == Resolve(old(Tally(currentScore, comboCounter)), Mismatched)
      ensures routine == MatchFailAnimationRoutine
      ensures bus.handlers == old(bus.handlers) + {ControllerOnReturnToMenu}
      ensures bus.published == old(bus.published) + [Delivery(ScoreUpdated(currentScore, comboCounter), {})]
    {
      comboCounter := 0;
      currentScore := if currentScore - 1 > 0 then currentScore - 1 else 0;
      assert bus.handlers * Listeners(ScoreUpdated(currentScore, comboCounter)) == {};
      bus.Fire(ScoreUpdated(currentScore, comboCounter));
      bus.Subscribe(ControllerOnReturnToMenu);
      routine := MatchFailAnimationRoutine;
    }

    /** Writes exactly the difficulty index, the round and the score into the progress record. */
    method SaveGameProgress()
      requires currentDifficulty.Some?
      modifies this`gameData
      ensures gameData == old(gameData).(
        currentDifficulty := IndexOf(config.difficultyConfigs, currentDifficulty.value),
        currentRoundCount := currentRound,
        currentScore := currentScore)
    {
      var difficultyIndex := IndexOf(config.difficultyConfigs, currentDifficulty.value);
      gameData := gameData.(currentDifficulty := difficultyIndex);
      gameData := gameData.(currentRoundCount := currentRound);
      gameData := gameData.(currentScore := currentScore);
    }

    // ----- transitions: exit action of the state left, new state, entry action of the state entered

    /** GameStarted from waiting, or AllCardsCompleted after the last pair of a round: into InitializeRound. */
    method EnterInitializeRound(rng: seq<int>)
      requires Valid() && (state == WaitingForGameStart || state == MatchSuccess)
      requires currentDifficulty.Some? && FitsCatalog(currentDifficulty.value, config.allCardsConfigs)
      requires ValidLevelDraws(rng, |config.allCardsConfigs|, PairsOf(currentDifficulty.value))
      modifies this`state, this`routine, this`successfulMatches, this`totalPairsInRound, level, bus
      ensures Valid() && state == InitializeRound
      ensures successfulMatches == 0 && totalPairsInRound == PairsOf(currentDifficulty.value)
      ensures LaidOut(level.activeCards, BuildDeck(config.allCardsConfigs, currentDifficulty.value, rng),
                      currentDifficulty.value.gridX, currentDifficulty.value.gridY)
      ensures bus.handlers == old(bus.handlers) - ControllerHandlers + {ControllerOnReturnToMenu}
      ensures bus.published == old(bus.published)
    {
      ExitState();
      state := InitializeRound;
      OnInitializeRoundEntry(rng);
    }

    /** RoundInitialized, or AnimationCompleted after a match or a mismatch: into ChoosingCards. */
    method EnterChoosingCards()
      requires Valid() && (state == InitializeRound || state == MatchSuccess || state == MatchFail)
      requires successfulMatches == 0 || successfulMatches < totalPairsInRound
      modifies this`state, this`routine, this`firstSelectedCard, this`secondSelectedCard, bus
      ensures Valid() && state == ChoosingCards
      ensures routine == NoRoutine && firstSelectedCard == None && secondSelectedCard == None
      ensures bus.handlers == old(bus.handlers) - ControllerHandlers + {ControllerOnCardSelected, ControllerOnReturnToMenu}
      ensures bus.published == old(bus.published)
    {
      routine := NoRoutine;
      ExitState();
      state := ChoosingCards;
      OnChoosingCardsEntry();
    }

    /** CardsMatched: into MatchSuccess, recording the match. */
    method EnterMatchSuccess()
      requires Valid() && state == ChoosingCards && firstSelectedCard.Some? && secondSelectedCard.Some?
      modifies this`state, this`routine, this`successfulMatches, this`comboCounter, this`currentScore
      modifies this`outcomes, bus
      ensures Valid() && state == MatchSuccess
      ensures outcomes == old(outcomes) + [Matched]
      ensures Tally(currentScore, comboCounter) == Resolve(old(Tally(currentScore, comboCounter)), Matched)
      ensures successfulMatches == old(successfulMatches) + 1
      ensures bus.handlers == old(bus.handlers) - ControllerHandlers + {ControllerOnReturnToMenu}
      ensures bus.published == old(bus.published) + [Delivery(ScoreUpdated(currentScore, comboCounter), {})]
    {
      ExitState();
      state := MatchSuccess;
      outcomes := outcomes + [Matched];
      OnMatchSuccessEntry();
    }

    /** CardsMismatched: into MatchFail, recording the mismatch. */
    method EnterMatchFail()
      requires Valid() && state == ChoosingCards && firstSelectedCard.Some? && secondSelectedCard.Some?
      modifies this`state, this`routine, this`comboCounter, this`currentScore, this`outcomes, bus
      ensures Valid() && state == MatchFail
      ensures outcomes == old(outcomes) + [Mismatched]
      ensures Tally(currentScore, comboCounter) == Resolve(old(Tally(currentScore, comboCounter)), Mismatched)
      ensures bus.handlers == old(bus.handlers) - ControllerHandlers + {ControllerOnReturnToMenu}
      ensures bus.published == old(bus.published) + [Delivery(ScoreUpdated(currentScore, comboCounter), {})]
    {
      ExitState();
      state := MatchFail;
      outcomes := outcomes + [Mismatched];
      OnMatchFailEntry();
    }

    /**
     * AllRoundsCompleted or ReturnToMenuTrigger: the coroutine is stopped,
     * the level reset and the controller waits for the next game.  (The
     * source resets the level just before firing either trigger.)
     */
    method LeaveRound()
      requires Valid() && InRound(state)
      modifies this`state, this`routine, level, bus
      ensures Valid() && state == WaitingForGameStart
      ensures routine == NoRoutine && level.activeCards == []
      ensures bus.handlers == old(bus.handlers) - ControllerHandlers + {ControllerOnGameStarted}
      ensures bus.published == old(bus.published)
    {
      routine := NoRoutine;
      level.Reset();
      ExitState();
      state := WaitingForGameStart;
      OnWaitingForGameStartEntry();
    }

    // ----- events

    /** Activate: the initial state fires StartWaitingTrigger at once. */
    method Initialize()
      requires Valid() && state == InitialState
      modifies this`state, bus
      ensures Valid()
      ensures Next(old(state), StartWaitingTrigger) == Some(state) && state == WaitingForGameStart
      ensures bus.handlers == old(bus.handlers) + {ControllerOnGameStarted}
      ensures bus.published == old(bus.published)
    {
      ExitState();
      state := WaitingForGameStart;
      OnWaitingForGameStartEntry();
    }

    /**
     * The GameStartedSignal handler, subscribed while waiting: takes round,
     * difficulty and score from the signal, resets the combo, saves progress,
     * announces the round (and the score when resuming with one) and fires
     * GameStarted, whose entry deals the round from the draws rng.
     */
    method OnGameStarted(signal: GameStartedSignal, rng: seq<int>)
      requires Valid() && ControllerOnGameStarted in bus.handlers
      requires FitsCatalog(signal.difficultyConfig, config.allCardsConfigs)
      requires ValidLevelDraws(rng, |config.allCardsConfigs|, PairsOf(signal.difficultyConfig))
      modifies this`state, this`currentRound, this`currentDifficulty, this`currentScore, this`comboCounter
      modifies this`successfulMatches, this`totalPairsInRound, this`routine, this`gameData
      modifies this`startScore, this`outcomes, level, bus
      ensures Valid()
      ensures Next(old(state), Trigger.GameStarted) == Some(state) && state == InitializeRound
      ensures currentRound == signal.roundCount && currentScore == signal.currentScore && comboCounter == 0
      ensures currentDifficulty == Some(signal.difficultyConfig)
      ensures successfulMatches == 0 && totalPairsInRound == PairsOf(signal.difficultyConfig)
      ensures LaidOut(level.activeCards, BuildDeck(config.allCardsConfigs, signal.difficultyConfig, rng),
                      signal.difficultyConfig.gridX, signal.difficultyConfig.gridY)
      ensures gameData == old(gameData).(
        currentDifficulty := IndexOf(config.difficultyConfigs, signal.difficultyConfig),
        currentRoundCount := signal.roundCount,
        currentScore := signal.currentScore)
      ensures bus.published == old(bus.published)
        + [Delivery(RoundChanged(signal.roundCount, config.totalRounds), {})]
        + (if signal.currentScore > 0 then [Delivery(ScoreUpdated(signal.currentScore, 0), {})] else [])
      ensures bus.handlers == old(bus.handlers) - ControllerHandlers + {ControllerOnReturnToMenu}
    {
      TakeStartSignal(signal);
      EnterInitializeRound(rng);
    }

    /** The part of OnGameStarted before the trigger: adopt, save and announce the signalled game. */
    method TakeStartSignal(signal: GameStartedSignal)
      requires Valid() && state == WaitingForGameStart
      modifies this`currentRound, this`currentDifficulty, this`currentScore, this`comboCounter
      modifies this`gameData, this`startScore, this`outcomes, bus
      ensures Valid()
      ensures currentRound == signal.roundCount && currentScore == signal.currentScore && comboCounter == 0
      ensures currentDifficulty == Some(signal.difficultyConfig)
      ensures gameData == old(gameData).(
        currentDifficulty := IndexOf(config.difficultyConfigs, signal.difficultyConfig),
        currentRoundCount := signal.roundCount,
        currentScore := signal.currentScore)
      ensures bus.published == old(bus.published)
        + [Delivery(RoundChanged(signal.roundCount, config.totalRounds), {})]
        + (if signal.currentScore > 0 then [Delivery(ScoreUpdated(signal.currentScore, 0), {})] else [])
      ensures bus.handlers == old(bus.handlers)
    {
      currentRound := signal.roundCount;
      currentDifficulty := Some(signal.difficultyConfig);
      currentScore := signal.currentScore;
      comboCounter := 0;
      startScore, outcomes := currentScore, [];

      SaveGameProgress();

      assert bus.handlers * Listeners(RoundChanged(currentRound, config.totalRounds)) == {};
      bus.Fire(RoundChanged(currentRound, config.totalRounds));
      if currentScore > 0 {
        assert bus.handlers * Listeners(ScoreUpdated(currentScore, comboCounter)) == {};
        bus.Fire(ScoreUpdated(currentScore, comboCounter));
      }
    }

    /** The reveal coroutine ends: all cards were shown, held and hidden; RoundInitialized fires. */
    method ShowAndHideCardsFinished()
      requires Valid() && routine == ShowAndHideCardsRoutine
      modifies this`state, this`routine, this`firstSelectedCard, this`secondSelectedCard, bus
      ensures Valid()
      ensures Next(old(state), RoundInitialized) == Some(state) && state == ChoosingCards
      ensures firstSelectedCard == None && secondSelectedCard == None
      ensures bus.handlers == old(bus.handlers) - ControllerHandlers + {ControllerOnCardSelected, ControllerOnReturnToMenu}
      ensures bus.published == old(bus.published)
    {
      EnterChoosingCards();
    }

    /**
     * The CardSelectedSignal handler, subscribed while choosing.  A slot
     * fills only from empty and the second only with a card other than the
     * first; filling the second schedules the match decision.
     */
    method OnCardSelected(card: Card)
      requires Valid() && ControllerOnCardSelected in bus.handlers
      modifies this`firstSelectedCard, this`secondSelectedCard, this`pendingDecisions
      ensures Valid()
      ensures old(firstSelectedCard).None? ==>
        firstSelectedCard == Some(card) && secondSelectedCard == None && pendingDecisions == old(pendingDecisions)
      ensures old(firstSelectedCard).Some? && old(secondSelectedCard).None? && card != old(firstSelectedCard).value ==>
        firstSelectedCard == old(firstSelectedCard) && secondSelectedCard == Some(card)
        && pendingDecisions == old(pendingDecisions) + 1
      ensures old(firstSelectedCard).Some? && (old(secondSelectedCard).Some? || card == old(firstSelectedCard).value) ==>
        firstSelectedCard == old(firstSelectedCard) && secondSelectedCard == old(secondSelectedCard)
        && pendingDecisions == old(pendingDecisions)
    {
      if firstSelectedCard.None? {
        firstSelectedCard := Some(card);
      } else if secondSelectedCard.None? && card != firstSelectedCard.value {
        secondSelectedCard := Some(card);
        pendingDecisions := pendingDecisions + 1;
      }
    }

    /**
     * A scheduled decision is delivered: CardsMatched when the two selected
     * cards carry the same CardId, CardsMismatched otherwise.  The callback
     * dereferences both slots, and the fired trigger must be permitted.
     */
    method DecisionDelayElapsed()
      requires Valid() && pendingDecisions > 0
      requires firstSelectedCard.Some? && secondSelectedCard.Some?
      requires Permitted(state, DecisionTrigger(firstSelectedCard.value, secondSelectedCard.value))
      modifies this`state, this`pendingDecisions, this`successfulMatches, this`comboCounter, this`currentScore
      modifies this`routine, this`outcomes, bus
      ensures Valid()
      ensures pendingDecisions == old(pendingDecisions) - 1
      ensures var matched := firstSelectedCard.value.config.cardId == secondSelectedCard.value.config.cardId;
        var outcome := if matched then Matched else Mismatched;
        && old(state) == ChoosingCards
        && Next(old(state), DecisionTrigger(firstSelectedCard.value, secondSelectedCard.value)) == Some(state)
        && (state == MatchSuccess <==> matched)
        && outcomes == old(outcomes) + [outcome]
        && Tally(currentScore, comboCounter) == Resolve(old(Tally(currentScore, comboCounter)), outcome)
        && successfulMatches == old(successfulMatches) + (if matched then 1 else 0)
      ensures bus.handlers == old(bus.handlers) - ControllerHandlers + {ControllerOnReturnToMenu}
      ensures bus.published == old(bus.published) + [Delivery(ScoreUpdated(currentScore, comboCounter), {})]
    {
      pendingDecisions := pendingDecisions - 1;
      DecisionOnlyWhileChoosing(state);
      if DecisionTrigger(firstSelectedCard.value, secondSelectedCard.value) == CardsMatched {
        EnterMatchSuccess();
      } else {
        EnterMatchFail();
      }
    }

    /**
     * The MatchSuccess coroutine ends.  All pairs found on the last round:
     * the high score is updated, the saved game cleared, GameCompleted fired,
     * the level reset and the state returns to waiting.  All pairs found
     * with rounds left: the next round is saved, announced and dealt from rng.
     * Otherwise choosing resumes.
     */
    method MatchSuccessAnimationFinished(rng: seq<int>)
      requires Valid() && routine == MatchSuccessAnimationRoutine
      requires successfulMatches >= totalPairsInRound && currentRound < config.totalRounds ==>
        ValidLevelDraws(rng, |config.allCardsConfigs|, PairsOf(currentDifficulty.value))
      modifies this`state, this`routine, this`currentRound, this`successfulMatches, this`totalPairsInRound
      modifies this`firstSelectedCard, this`secondSelectedCard, this`gameData, level, bus
      ensures Valid()
      ensures old(successfulMatches >= totalPairsInRound && currentRound >= config.totalRounds) ==>
        && Next(old(state), AllRoundsCompleted) == Some(state) && state == WaitingForGameStart
        && level.activeCards == []
        && gameData == ClearCurrentGame(UpdateHighScore(old(gameData),
             IndexOf(config.difficultyConfigs, currentDifficulty.value), currentScore))
        && bus.published == old(bus.published) + [Delivery(GameCompleted(currentScore), old(bus.handlers) * {FlowOnGameCompleted})]
        && bus.handlers == old(bus.handlers) - ControllerHandlers + {ControllerOnGameStarted}
        && currentRound == old(currentRound) && successfulMatches == old(successfulMatches)
        && firstSelectedCard == old(firstSelectedCard) && secondSelectedCard == old(secondSelectedCard)
      ensures old(successfulMatches >= totalPairsInRound && currentRound < config.totalRounds) ==>
        && Next(old(state), AllCardsCompleted) == Some(state) && state == InitializeRound
        && currentRound == old(currentRound) + 1
        && successfulMatches == 0
        && LaidOut(level.activeCards, BuildDeck(config.allCardsConfigs, currentDifficulty.value, rng),
                   currentDifficulty.value.gridX, currentDifficulty.value.gridY)
        && gameData == old(gameData).(
             currentDifficulty := IndexOf(config.difficultyConfigs, currentDifficulty.value),
             currentRoundCount := currentRound,
             currentScore := currentScore)
        && bus.published == old(bus.published) + [Delivery(RoundChanged(currentRound, config.totalRounds), {})]
        && bus.handlers == old(bus.handlers) - ControllerHandlers + {ControllerOnReturnToMenu}
        && firstSelectedCard == old(firstSelectedCard) && secondSelectedCard == old(secondSelectedCard)
      ensures old(successfulMatches < totalPairsInRound) ==>
        && Next(old(state), AnimationCompleted) == Some(state) && state == ChoosingCards
        && firstSelectedCard == None && secondSelectedCard == None
        && currentRound == old(currentRound) && successfulMatches == old(successfulMatches)
        && level.activeCards == old(level.activeCards) && gameData == old(gameData)
        && bus.published == old(bus.published)
        && bus.handlers == old(bus.handlers) - ControllerHandlers + {ControllerOnCardSelected, ControllerOnReturnToMenu}
    {
      if successfulMatches >= totalPairsInRound {
        if currentRound >= config.totalRounds {
          CompleteGame();
        } else {
          AdvanceRound(rng);
        }
      } else {
        EnterChoosingCards();
      }
    }

    /** The last pair of the last round: record the high score, clear the saved game, announce the end, wait. */
    method CompleteGame()
      requires Valid() && state == MatchSuccess
      modifies this`state, this`routine, this`gameData, level, bus
      ensures Valid() && state == WaitingForGameStart && level.activeCards == []
      ensures gameData == ClearCurrentGame(UpdateHighScore(old(gameData),
        IndexOf(config.difficultyConfigs, currentDifficulty.value), currentScore))
      ensures bus.published == old(bus.published) + [Delivery(GameCompleted(currentScore), old(bus.handlers) * {FlowOnGameCompleted})]
      ensures bus.handlers == old(bus.handlers) - ControllerHandlers + {ControllerOnGameStarted}
    {
      var difficultyIndex := IndexOf(config.difficultyConfigs, currentDifficulty.value);
      gameData := UpdateHighScore(gameData, difficultyIndex, currentScore);
      gameData := ClearCurrentGame(gameData);
      bus.Fire(GameCompleted(currentScore));
      LeaveRound();
    }

    /** The last pair of a round with rounds left: save and announce the next round, then deal it. */
    method AdvanceRound(rng: seq<int>)
      requires Valid() && state == MatchSuccess
      requires ValidLevelDraws(rng, |config.allCardsConfigs|, PairsOf(currentDifficulty.value))
      modifies this`state, this`routine, this`currentRound, this`successfulMatches, this`totalPairsInRound
      modifies this`gameData, level, bus
      ensures Valid() && state == InitializeRound
      ensures currentRound == old(currentRound) + 1 && successfulMatches == 0
      ensures LaidOut(level.activeCards, BuildDeck(config.allCardsConfigs, currentDifficulty.value, rng),
                      currentDifficulty.value.gridX, currentDifficulty.value.gridY)
      ensures gameData == old(gameData).(
        currentDifficulty := IndexOf(config.difficultyConfigs, currentDifficulty.value),
        currentRoundCount := currentRound,
        currentScore := currentScore)
      ensures bus.published == old(bus.published) + [Delivery(RoundChanged(currentRound, config.totalRounds), {})]
      ensures bus.handlers == old(bus.handlers) - ControllerHandlers + {ControllerOnReturnToMenu}
    {
      currentRound := currentRound + 1;
      SaveGameProgress();
      assert bus.handlers * Listeners(RoundChanged(currentRound, config.totalRounds)) == {};
      bus.Fire(RoundChanged(currentRound, config.totalRounds));
      EnterInitializeRound(rng);
    }

    /** The MatchFail coroutine ends: both cards are hidden again and choosing resumes. */
    method MatchFailAnimationFinished()
      requires Valid() && routine == MatchFailAnimationRoutine
      modifies this`state, this`routine, this`firstSelectedCard, this`secondSelectedCard, bus
      ensures Valid()
      ensures Next(old(state), AnimationCompleted) == Some(state) && state == ChoosingCards
      ensures firstSelectedCard == None && secondSelectedCard == None
      ensures bus.handlers == old(bus.handlers) - ControllerHandlers + {ControllerOnCardSelected, ControllerOnReturnToMenu}
      ensures bus.published == old(bus.published)
    {
      EnterChoosingCards();
    }

    /**
     * The ReturnToMenuSignal handler, subscribed in every round state: stops
     * the coroutine, resets the level, clears the saved game, returns to
     * waiting and fires GameCompleted with the score as it stands.  A
     * decision already scheduled is not cancelled.
     */
    method OnReturnToMenu()
      requires Valid() && ControllerOnReturnToMenu in bus.handlers
      modifies this`state, this`routine, this`gameData, level, bus
      ensures Valid()
      ensures InRound(old(state))
      ensures Next(old(state), ReturnToMenuTrigger) == Some(state) && state == WaitingForGameStart
      ensures routine == NoRoutine && level.activeCards == []
      ensures gameData == ClearCurrentGame(old(gameData))
      ensures bus.published == old(bus.published) + [Delivery(GameCompleted(currentScore), old(bus.handlers) * {FlowOnGameCompleted})]
      ensures bus.handlers == old(bus.handlers) - ControllerHandlers + {ControllerOnGameStarted}
    {
      gameData := ClearCurrentGame(gameData);
      LeaveRound();
      assert bus.handlers * Listeners(GameCompleted(currentScore)) == old(bus.handlers) * {FlowOnGameCompleted};
      bus.Fire(GameCompleted(currentScore));
    }
  }
}
