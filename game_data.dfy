/**
 * The persisted progress record (Data/GameData.cs) and the record operations
 * its callers use.  GameData.cs declares CurrentRoundCount, CurrentDifficulty,
 * the high-score dictionary and Init; the callers also read CurrentScore and
 * call HasGameInProgress, GetHighScore, UpdateHighScore and ClearCurrentGame,
 * which are given here the minimal meaning the progress store promises:
 * a game is in progress iff a difficulty is chosen and a round has begun,
 * the high score only grows, and clearing forgets the current game only.
 */
module Data {

  datatype GameData = GameData(
    currentRoundCount: int,
    currentDifficulty: int,
    currentScore: int,
    highScores: map<int, int>)

  /** A game is in progress iff a difficulty index is stored and a round has begun. */
  predicate HasGameInProgress(d: GameData) {
    d.currentDifficulty >= 0 && d.currentRoundCount > 0
  }

  /** Init: no difficulty (-1), round 0, no high scores. */
  function InitialGameData(): (d: GameData)
    ensures !HasGameInProgress(d)
    ensures d.highScores == map[]
  {
    GameData(0, -1, 0, map[])
  }

  /** The stored high score for a difficulty index, 0 when none is stored. */
  function GetHighScore(d: GameData, index: int): int {
    if index in d.highScores then d.highScores[index] else 0
  }

  /** Stores score as the high score of index when it beats the stored one. */
  function UpdateHighScore(d: GameData, index: int, score: int): (r: GameData)
    ensures GetHighScore(r, index) == if score > GetHighScore(d, index) then score else GetHighScore(d, index)
    ensures forall j :: j != index ==> GetHighScore(r, j) == GetHighScore(d, j)
    ensures r.(highScores := d.highScores) == d
  {
    if score > GetHighScore(d, index) then d.(highScores := d.highScores[index := score]) else d
  }

  /** Forgets the game in progress and keeps the high scores. */
  function ClearCurrentGame(d: GameData): (r: GameData)
    ensures !HasGameInProgress(r)
    ensures r.highScores == d.highScores
  {
    d.(currentRoundCount := 0, currentDifficulty := -1, currentScore := 0)
  }
}
