/**
 * The static configuration the core reads: card catalog entries, difficulty
 * layouts and the game-wide settings (the files under Configs).  Only the fields the
 * game logic reads are kept; icons, names and durations are presentation.
 */
module Configs {

  /** CardConfig.cs: a catalog entry; the logic only ever reads its CardId. */
  datatype CardConfig = CardConfig(cardId: int)

  /** DifficultyConfig.DifficultyEnum. */
  datatype Difficulty = Easy | Normal | Hard | Extreme | God

  /**
   * DifficultyConfig.cs.  LevelLayout is a Vector2 that every reader casts to
   * int; the model keeps the two grid dimensions as non-negative integers.
   */
  datatype DifficultyConfig = DifficultyConfig(difficulty: Difficulty, gridX: nat, gridY: nat)

  /** GameConfig.cs, without CardShowDuration (timing is not modelled). */
  datatype GameConfig = GameConfig(
    difficultyConfigs: seq<DifficultyConfig>,
    allCardsConfigs: seq<CardConfig>,
    totalRounds: int)

  /** Number of cards a difficulty deals: gridX * gridY. */
  function TotalCards(d: DifficultyConfig): nat {
    d.gridX * d.gridY
  }

  /** Pairs in a round, (gridX * gridY) / 2, computed alike by the level and the controller. */
  function PairsOf(d: DifficultyConfig): nat {
    TotalCards(d) / 2
  }

  /**
   * What InitializeLevel needs of a difficulty so that it never indexes past
   * the end of a list: an even number of cards, and a catalog holding at
   * least as many entries as there are pairs.
   */
  predicate FitsCatalog(d: DifficultyConfig, catalog: seq<CardConfig>) {
    TotalCards(d) % 2 == 0 && PairsOf(d) <= |catalog|
  }

  /**
   * DifficultyConfigs.IndexOf: the first position holding x, or -1 when x is absent.
   * (The source compares configuration objects by reference; the model
   * compares them by value.)
   */
  function IndexOf(s: seq<DifficultyConfig>, x: DifficultyConfig): (r: int)
    ensures -1 <= r < |s|
    ensures r == -1 <==> x !in s
    ensures 0 <= r ==> s[r] == x && x !in s[..r]
  {
    if |s| == 0 then -1
    else if s[0] == x then 0
    else
      var k := IndexOf(s[1..], x);
      if k == -1 then -1 else k + 1
  }
}
