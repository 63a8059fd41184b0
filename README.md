# Memory-match game core in Dafny

This project models the core of a Unity card-matching game. Each round deals a grid of face-down cards made of pairs of catalog entries. The player turns two cards at a time; equal CardIds score a match, unequal ones a mismatch. A game lasts a fixed number of rounds, and progress is saved so an interrupted game can resume.

Three parts of the game are modelled:

- **The round/turn state machine** (`GameController`). Its states are WaitingForGameStart, InitializeRound, ChoosingCards, MatchSuccess and MatchFail. The model covers:
  - the transition table;
  - the entry and exit actions, which subscribe and unsubscribe bus handlers, start coroutines and update score and combo;
  - card selection and the delayed match decision;
  - the end-of-round and end-of-game bookkeeping;
  - return to the menu;
  - saving progress.
- **The application-flow state machine** (`GameStateMachine`). On activation it checks the stored progress. Then it either resumes the saved game by announcing it on the bus, or opens the menu. After that it alternates between Menu and Playing.
- **Level construction** (`LevelManager`). `InitializeLevel` shuffles the card catalog and takes the first `gridX*gridY/2` entries. It writes each entry twice, shuffles that deck again and deals it row by row onto the grid. `Reset` and the in-place Fisher–Yates `ShuffleList` are modelled too.

Modules follow the game's namespaces:

| module | file | contents |
|---|---|---|
| `Optional` | `optional.dfy` | `Option` |
| `Configs` | `configs.dfy` | card, difficulty and game configuration; `IndexOf` for list lookup |
| `Data` | `game_data.dfy` | the progress record and its operations |
| `Signals` | `signals.dfy` | signal payloads and the `SignalBus` class |
| `Managers` | `level_manager.dfy` | the `LevelManager` class and the value-level specification of the shuffle and the deck |
| `Controllers` | `game_controller.dfy` | the `GameController` class |
| `AppFlow` | `game_state_machine.dfy` | the `GameStateMachine` class |

How the runtime is modelled:

- **State machines.** A Stateless machine is a `state` field plus a transition function (`Next`, `AppNext`). Firing a trigger the table does not permit throws in Stateless. In the model that case is a precondition the caller must meet.
- **Signal bus.** A Zenject signal bus is a class with two fields: the set of subscribed handler tags, and a log of deliveries. Each delivery records the fired signal and the subscribed handlers of its type that received it. Subscribing a handler already present is refused, and so is a strict unsubscribe of a handler that is absent; `TryUnsubscribe` is a no-op then. The handlers named in a delivery are run by the caller, as the next event.
- **Timers.** A coroutine (`ShowAndHideCardsRoutine` and the two animation routines) is a `routine` field. The environment ends it by calling the matching `…Finished` method. `StopAllCoroutines` clears the field. A `DOVirtual.DelayedCall` decision is a counter, `pendingDecisions`. Return to the menu does not cancel it, because the source does not.
- **Randomness.** `Random.Range(0, i + 1)` becomes a sequence of draws supplied by the caller. The k-th draw of a shuffle of n items is used for i = n-1-k and lies in [0, i]. `InitializeLevel` uses the draws for the catalog shuffle first, then those for the pair shuffle.
- **Score.** Each controller carries a ghost history of resolved decisions. `Valid()` ties the score and combo to a left fold, `Play`, over that history. The scoring lemmas are about `Play`.

## Model

| member | source | states |
|---|---|---|
| `Controllers.ReturnToMenuFromRoundStates` | Assets/Scripts/Controllers/GameController.cs:83-108 | ReturnToMenuTrigger is permitted exactly in the four round states, and from each it leads to WaitingForGameStart |
| `Controllers.DecisionOnlyWhileChoosing` | Assets/Scripts/Controllers/GameController.cs:89-94 | CardsMatched and CardsMismatched are permitted exactly in ChoosingCards, so a decision delivered in any other state is an unpermitted trigger |
| `Controllers.RoundStartsOnlyFromStartOrCompletedRound` | Assets/Scripts/Controllers/GameController.cs:78-108 | InitializeRound is entered only from Waiting on GameStarted or from MatchSuccess on AllCardsCompleted; ChoosingCards only on RoundInitialized or AnimationCompleted, both directions |
| `Controllers.UnusedTriggers` | Assets/Scripts/Controllers/GameController.cs:42-55 | FirstCardSelected and SecondCardSelected are declared but permitted nowhere; no transition re-enters InitialState |
| `Controllers.ScoreStaysNonNegative` | Assets/Scripts/Controllers/GameController.cs:297-299 | starting from a non-negative score, score and combo stay non-negative over any sequence of matches and mismatches |
| `Controllers.ComboIsTrailingStreak` | Assets/Scripts/Controllers/GameController.cs:229-231 | the combo equals the number of matches since the last mismatch (or the game start) |
| `Controllers.StreakScores` | Assets/Scripts/Controllers/GameController.cs:229-232 | k further matches raise the combo by k and the score by k·combo + 1+2+…+k |
| `Controllers.TriangularStreak` | Assets/Scripts/Controllers/GameController.cs:229-232 | from combo 0, at game start or right after a mismatch, k matches add exactly k(k+1)/2 |
| `Controllers.Triangle` | Assets/Scripts/Controllers/GameController.cs:229-232 | 1+2+…+k, with twice it equal to k(k+1) |
| `Controllers.Streak` | Assets/Scripts/Controllers/GameController.cs:229-232 | a run of k matches |
| `Controllers.GameController.constructor` | Assets/Scripts/Controllers/GameController.cs:57-68 | the controller starts in InitialState with zero counters, empty slots and no routine or pending decision |
| `Controllers.GameController.ExitState` | Assets/Scripts/Controllers/GameController.cs:118-121 | each exit action removes exactly the controller handlers its entry added: strict unsubscribe on leaving Waiting, TryUnsubscribe elsewhere |
| `Controllers.GameController.OnWaitingForGameStartEntry` | Assets/Scripts/Controllers/GameController.cs:113-116 | subscribes the GameStartedSignal handler |
| `Controllers.GameController.OnInitializeRoundEntry` | Assets/Scripts/Controllers/GameController.cs:148-161 | successful matches become 0; total pairs become gridX*gridY/2; the level is dealt from the draws, and pairs hold when catalog CardIds are distinct; ReturnToMenu is subscribed; the reveal routine starts |
| `Controllers.GameController.OnChoosingCardsEntry` | Assets/Scripts/Controllers/GameController.cs:185-192 | both selection slots are cleared and the CardSelected and ReturnToMenu handlers are subscribed |
| `Controllers.GameController.OnMatchSuccessEntry` | Assets/Scripts/Controllers/GameController.cs:227-241 | successful matches and combo rise by 1, the score rises by the new combo, ScoreUpdated is fired, ReturnToMenu is subscribed, the success routine starts |
| `Controllers.GameController.OnMatchFailEntry` | Assets/Scripts/Controllers/GameController.cs:295-308 | combo becomes 0, score becomes max(0, score-1), ScoreUpdated is fired, ReturnToMenu is subscribed, the fail routine starts |
| `Controllers.GameController.SaveGameProgress` | Assets/Scripts/Controllers/GameController.cs:345-352 | the progress record changes in exactly three fields: difficulty index (by lookup in the difficulty list), round and score |
| `Controllers.GameController.EnterInitializeRound` | Assets/Scripts/Controllers/GameController.cs:78-87 | exit, move to InitializeRound, entry; the controller invariant is preserved |
| `Controllers.GameController.EnterChoosingCards` | Assets/Scripts/Controllers/GameController.cs:83-101 | exit, move to ChoosingCards, entry; the invariant is preserved and the slots are empty |
| `Controllers.GameController.EnterMatchSuccess` | Assets/Scripts/Controllers/GameController.cs:89-102 | exit ChoosingCards, enter MatchSuccess; the history gains a match and the tally follows `Resolve` |
| `Controllers.GameController.EnterMatchFail` | Assets/Scripts/Controllers/GameController.cs:89-108 | exit ChoosingCards, enter MatchFail; the history gains a mismatch and the tally follows `Resolve` |
| `Controllers.GameController.LeaveRound` | Assets/Scripts/Controllers/GameController.cs:259-262 | from any round state: the routine stops, the level is reset, the state becomes Waiting and only the GameStarted handler stays subscribed |
| `Controllers.GameController.Initialize` | Assets/Scripts/Controllers/GameController.cs:70-111 | activation moves InitialState to WaitingForGameStart and subscribes the GameStarted handler |
| `Controllers.GameController.OnGameStarted` | Assets/Scripts/Controllers/GameController.cs:123-146 | round, difficulty and score come from the signal; combo is 0; progress is saved; RoundChanged is fired, then ScoreUpdated when the score is positive; the state becomes InitializeRound with the round dealt |
| `Controllers.GameController.TakeStartSignal` | Assets/Scripts/Controllers/GameController.cs:123-144 | the part of OnGameStarted before its trigger: the adopted fields, the saved record and the fired signals |
| `Controllers.GameController.ShowAndHideCardsFinished` | Assets/Scripts/Controllers/GameController.cs:168-183 | the reveal routine ends in ChoosingCards with empty slots |
| `Controllers.GameController.OnCardSelected` | Assets/Scripts/Controllers/GameController.cs:200-225 | the first slot fills only when empty; the second only when empty and with a different card, and only then is a decision scheduled; all other selections change nothing |
| `Controllers.GameController.DecisionDelayElapsed` | Assets/Scripts/Controllers/GameController.cs:212-222 | CardsMatched is fired exactly when the two slots hold equal CardIds, otherwise CardsMismatched; it decides MatchSuccess or MatchFail, the history and the tally |
| `Controllers.GameController.MatchSuccessAnimationFinished` | Assets/Scripts/Controllers/GameController.cs:248-293 | three cases: game over (cleared level, high score updated, save cleared, GameCompleted fired, Waiting); next round (round+1 saved, RoundChanged fired, new round dealt); otherwise ChoosingCards with round, score and level untouched |
| `Controllers.GameController.CompleteGame` | Assets/Scripts/Controllers/GameController.cs:258-271 | the game-over case: high score, cleared save, GameCompleted to the subscribed flow handler, Waiting with no cards |
| `Controllers.GameController.AdvanceRound` | Assets/Scripts/Controllers/GameController.cs:272-286 | the next-round case: round+1, progress saved, RoundChanged, InitializeRound with the new round dealt |
| `Controllers.GameController.MatchFailAnimationFinished` | Assets/Scripts/Controllers/GameController.cs:315-324 | the fail routine ends in ChoosingCards with empty slots |
| `Controllers.GameController.OnReturnToMenu` | Assets/Scripts/Controllers/GameController.cs:326-343 | only from a round state: routine stopped, level reset, save cleared (high scores kept), Waiting, and GameCompleted fired with the unchanged score |
| `AppFlow.AppTransitions` | Assets/Scripts/GameStateMachine.cs:40-57 | past activation the only moves are Check→Menu, Check→Playing, Menu→Playing and Playing→Menu; CheckGameState is entered only from InitialState |
| `AppFlow.NoTerminalState` | Assets/Scripts/GameStateMachine.cs:40-57 | every state permits some trigger |
| `AppFlow.ResumeSignal` | Assets/Scripts/GameStateMachine.cs:67-75 | the resume signal carries the saved round, the saved score and the difficulty at the saved index, which must lie in range |
| `AppFlow.SaveThenResume` | Assets/Scripts/GameStateMachine.cs:64-75 | after progress is saved for a round > 0 of a listed difficulty, a game is in progress and the resume signal recovers exactly that round, score and difficulty |
| `AppFlow.ClearedStoreOpensMenu` | Assets/Scripts/Data/GameData.cs:13-18 | a cleared or freshly initialised record holds no game in progress |
| `AppFlow.GameStateMachine.constructor` | Assets/Scripts/GameStateMachine.cs:36 | the flow starts in InitialState |
| `AppFlow.GameStateMachine.ExitState` | Assets/Scripts/GameStateMachine.cs:92-105 | each exit removes exactly what its entry subscribed |
| `AppFlow.GameStateMachine.OnMenuEntry` | Assets/Scripts/GameStateMachine.cs:86-90 | subscribes the GameStarted handler and fires MenuLoaded |
| `AppFlow.GameStateMachine.OnPlayingEntry` | Assets/Scripts/GameStateMachine.cs:97-100 | subscribes the GameCompleted handler |
| `AppFlow.GameStateMachine.EnterMenu` | Assets/Scripts/GameStateMachine.cs:46-57 | exit, move to Menu, entry; at rest Menu holds exactly the GameStarted handler |
| `AppFlow.GameStateMachine.EnterPlaying` | Assets/Scripts/GameStateMachine.cs:47-57 | exit, move to Playing, entry; at rest Playing holds exactly the GameCompleted handler |
| `AppFlow.GameStateMachine.OnCheckGameStateEntry` | Assets/Scripts/GameStateMachine.cs:62-84 | with a game in progress, one GameStarted resume signal is fired and the state becomes Playing; otherwise Menu and MenuLoaded |
| `AppFlow.GameStateMachine.Initialize` | Assets/Scripts/GameStateMachine.cs:38-60 | activation passes through CheckGameState; the resume signal reaches only the controller's handler, never the flow's own OnGameStarted |
| `AppFlow.GameStateMachine.OnGameStarted` | Assets/Scripts/GameStateMachine.cs:107-110 | only in Menu, and it moves to Playing |
| `AppFlow.GameStateMachine.OnGameCompleted` | Assets/Scripts/GameStateMachine.cs:112-115 | only in Playing; it moves to Menu and fires MenuLoaded |
| `Managers.Swap` | Assets/Scripts/Managers/LevelManager.cs:101-103 | positions i and j are exchanged and all other positions are kept |
| `Managers.SwapPermutes` | Assets/Scripts/Managers/LevelManager.cs:101-103 | a swap preserves the multiset |
| `Managers.FisherYates` | Assets/Scripts/Managers/LevelManager.cs:98-104 | the swaps for i, i-1, …, 1 preserve the length |
| `Managers.FisherYatesPermutes` | Assets/Scripts/Managers/LevelManager.cs:98-104 | those swaps preserve the multiset |
| `Managers.ShuffledIsPermutation` | Assets/Scripts/Managers/LevelManager.cs:96-105 | the shuffled list is a permutation of its input: same length, same multiset |
| `Managers.PairUp` | Assets/Scripts/Managers/LevelManager.cs:43-48 | the pair list is twice as long as the chosen entries |
| `Managers.PairUpPlaces` | Assets/Scripts/Managers/LevelManager.cs:43-48 | the i-th chosen entry is at positions 2i and 2i+1 |
| `Managers.PairUpCounts` | Assets/Scripts/Managers/LevelManager.cs:43-48 | the pair list holds every chosen entry exactly twice as often as the chosen list |
| `Managers.ChosenConfigs` | Assets/Scripts/Managers/LevelManager.cs:36-46 | exactly pairsNeeded entries are chosen, which needs the catalog to hold at least pairsNeeded |
| `Managers.DeckShape` | Assets/Scripts/Managers/LevelManager.cs:35-50 | the deck has gridX*gridY cards, each chosen entry twice, which needs an even gridX*gridY |
| `Managers.DistinctAtMostOnce` | Assets/Scripts/Configs/CardConfig.cs:6-11 | a catalog with distinct CardIds holds each entry at most once |
| `Managers.DeckIsPaired` | Assets/Scripts/Managers/LevelManager.cs:38-50 | with distinct catalog CardIds, every entry in the deck occurs exactly twice |
| `Managers.CountIdIsDeckCount` | Assets/Scripts/Managers/LevelManager.cs:69-71 | the number of dealt cards with a CardId equals that entry's count in the deck |
| `Managers.ActiveCardsPaired` | Assets/Scripts/Managers/LevelManager.cs:43-71 | pair invariant: with distinct CardIds, both cards of every CardId on the table are present, exactly twice |
| `Managers.LevelManager.constructor` | Assets/Scripts/Managers/LevelManager.cs:22-27 | no active cards at start |
| `Managers.LevelManager.Reset` | Assets/Scripts/Managers/LevelManager.cs:80-93 | no active card survives |
| `Managers.LevelManager.ShuffleList` | Assets/Scripts/Managers/LevelManager.cs:96-105 | the in-place loop leaves the array equal to `Shuffled` of its old contents, a permutation; every index it touches is in bounds |
| `Managers.LevelManager.InitializeLevel` | Assets/Scripts/Managers/LevelManager.cs:29-78 | after a Reset, the active cards are exactly the built deck dealt row by row: gridX*gridY cards, with card y*gridX+x in cell (x, y) carrying deck entry y*gridX+x |
| `Managers.LevelManager.CollectPairs` | Assets/Scripts/Managers/LevelManager.cs:43-48 | the loop builds the pairs of the first pairsNeeded shuffled entries |
| `Managers.LevelManager.DealCards` | Assets/Scripts/Managers/LevelManager.cs:56-74 | the nested loops deal exactly one card per cell in row-major order |
| `Data.InitialGameData` | Assets/Scripts/Data/GameData.cs:13-18 | a new record has no game in progress and no high scores |
| `Data.UpdateHighScore` | Assets/Scripts/Controllers/GameController.cs:264-265 | the high score of the index becomes the larger of the stored one and the score; other indices and fields are unchanged |
| `Data.ClearCurrentGame` | Assets/Scripts/Controllers/GameController.cs:266 | no game is in progress afterwards and the high scores are kept |
| `Configs.IndexOf` | Assets/Scripts/Controllers/GameController.cs:264 | the first index of the element, or -1 exactly when the element is absent |
| `Signals.SignalBus.Subscribe` | Assets/Scripts/Controllers/GameController.cs:115 | adds a handler that was not subscribed |
| `Signals.SignalBus.Unsubscribe` | Assets/Scripts/Controllers/GameController.cs:120 | removes a handler that was subscribed |
| `Signals.SignalBus.TryUnsubscribe` | Assets/Scripts/GameStateMachine.cs:94 | removes the handler if present |
| `Signals.SignalBus.Fire` | Assets/Scripts/GameStateMachine.cs:70-75 | appends one delivery, reaching exactly the subscribed handlers of the signal's type |

## Left out

- Timing. The model leaves out `WaitForSeconds`, `CardShowDuration`, the one-second decision delay and the 0.5 s animation waits. Each timed continuation is instead an event the environment delivers (`ShowAndHideCardsFinished`, `DecisionDelayElapsed`, `MatchSuccessAnimationFinished`, `MatchFailAnimationFinished`). The order of those deliveries is not constrained beyond each method's preconditions.
- Rendering and animation are left out: card Show, Hide and Complete, the float grid positions, card spacing and container scaling (LevelManager.cs:52-54, 61-68, 76-77, 92). A dealt card is a `Card` value. It holds its deal index, which stands for the component's identity, its grid cell and its catalog entry.
- Audio (SoundManager), input (PlayerController raycasts) and the HUD and main-menu UI are left out. A card selection is an abstract event that carries the selected card.
- Persistence I/O is left out: GameDataService, JSON and PlayerPrefs. `SaveGameData` calls do nothing in the model. The progress record is a value field of the controller.
- GameData.cs declares neither `CurrentScore` nor `HasGameInProgress`, `UpdateHighScore`, `ClearCurrentGame` or `GetHighScore`, yet the controller and the flow use them. The model gives them their documented meanings:
  - a game is in progress iff the difficulty index is at least 0 and the round is positive;
  - the stored high score is only raised;
  - clearing resets round, index and score and keeps the high scores.
- The progress record is saved only when a game starts and when a round advances (SaveGameProgress call sites). A score change within a round does not save it; the model follows the code.
- Configs are compared by value rather than by reference, both in `IndexOf` and for cards in `OnCardSelected`. Within one round the card values are distinct, because each carries its deal index.
- `Controllers.GameController.DecisionDelayElapsed`: in the source a decision fires a trigger. If the state is not ChoosingCards, for example after return to the menu, Stateless throws. If a slot was cleared, the callback dereferences null. Both cases are preconditions here, and `DecisionOnlyWhileChoosing` states the first.
- `AppFlow.GameStateMachine.Initialize`: the source indexes the difficulty list with the saved difficulty index and throws when it is out of range. Here an in-range index is a precondition whenever a game is in progress.
- `Managers.LevelManager.InitializeLevel`: an odd `gridX*gridY`, or a catalog smaller than `pairsNeeded`, makes the source index past the end of a list and throw. Both cases are preconditions here (`FitsCatalog`). The draw sequence must supply exactly the draws the two shuffles consume.
- Grid dimensions are natural numbers and 32-bit `int` overflow is not modelled. Round, score and combo stay far below the range in play.
- `Dispose` of both state machines is left out. It only unsubscribes handlers at teardown.
- The Stateless and Zenject internals, the installer wiring and the order in which the two machines are activated are left out. The model covers only each library's documented behaviour, as described above.
- The handlers listed in a delivery run as separate calls after the firing method returns. The source runs them synchronously inside the fire. In every firing modelled here, nothing the firing method does after the fire depends on those handlers' effects, so each object's final state is the same either way.
