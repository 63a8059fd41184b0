/**
 * Level deck construction (Managers/LevelManager.cs): InitializeLevel deals
 * gridX * gridY cards, two copies of each of the first pairsNeeded entries of
 * a shuffled catalog, shuffled again and laid out row by row; Reset empties
 * the active cards; ShuffleList is an in-place Fisher-Yates shuffle.
 *
 * Random.Range(0, i + 1) is replaced by a stream of draws supplied by the
 * caller: the k-th draw of a shuffle of n items is taken for i = n - 1 - k and
 * lies in [0, i].
 */
module Managers {
  import opened Configs

  /** A dealt card: its position in the deck, its grid cell and its catalog entry. */
  datatype Card = Card(index: nat, x: nat, y: nat, config: CardConfig)

  // ---------------------------------------------------------------------------
  // Fisher-Yates on values

  /** Number of draws a shuffle of n items consumes: one per i in n-1 .. 1. */
  function DrawCount(n: nat): nat {
    if n == 0 then 0 else n - 1
  }

  /** The draws a shuffle of n items can receive: the k-th lies in [0, n - 1 - k]. */
  predicate ValidDraws(draws: seq<int>, n: nat) {
    |draws| == DrawCount(n) && forall k :: 0 <= k < |draws| ==> 0 <= draws[k] <= n - 1 - k
  }

  /** s with positions i and j exchanged. */
  function Swap<T>(s: seq<T>, i: nat, j: nat): (r: seq<T>)
    requires i < |s| && j < |s|
    ensures |r| == |s| && r[i] == s[j] && r[j] == s[i]
    ensures forall k :: 0 <= k < |s| && k != i && k != j ==> r[k] == s[k]
  {
    s[i := s[j]][j := s[i]]
  }

  lemma SwapPermutes<T>(s: seq<T>, i: nat, j: nat)
    requires i < |s| && j < |s|
    ensures multiset(Swap(s, i, j)) == multiset(s)
  {
  }

  /** The swaps of the shuffle loop for i, i - 1, ..., 1, applied to s. */
  function FisherYates<T>(s: seq<T>, i: nat, draws: seq<int>): (r: seq<T>)
    requires i < |s|
    requires ValidDraws(draws, |s|)
    ensures |r| == |s|
    decreases i
  {
    if i == 0 then s
    else FisherYates(Swap(s, i, draws[|s| - 1 - i]), i - 1, draws)
  }

  lemma {:induction false} FisherYatesPermutes<T>(s: seq<T>, i: nat, draws: seq<int>)
    requires i < |s|
    requires ValidDraws(draws, |s|)
    ensures multiset(FisherYates(s, i, draws)) == multiset(s)
    decreases i
  {
    if i > 0 {
      var j := draws[|s| - 1 - i];
      SwapPermutes(s, i, j);
      FisherYatesPermutes(Swap(s, i, j), i - 1, draws);
    }
  }

  /** The list ShuffleList leaves behind. */
  function Shuffled<T>(s: seq<T>, draws: seq<int>): seq<T>
    requires ValidDraws(draws, |s|)
  {
    if |s| == 0 then s else FisherYates(s, |s| - 1, draws)
  }

  /** Shuffling is a permutation: same length, same occurrence count of every element. */
  lemma ShuffledIsPermutation<T>(s: seq<T>, draws: seq<int>)
    requires ValidDraws(draws, |s|)
    ensures |Shuffled(s, draws)| == |s|
    ensures multiset(Shuffled(s, draws)) == multiset(s)
  {
    if |s| > 0 {
      FisherYatesPermutes(s, |s| - 1, draws);
    }
  }

  // ---------------------------------------------------------------------------
  // The deck

  /** Two consecutive copies of every element, in order (the cardPairs loop). */
  function PairUp<T>(s: seq<T>): (r: seq<T>)
    ensures |r| == 2 * |s|
  {
    if |s| == 0 then [] else PairUp(s[..|s| - 1]) + [s[|s| - 1], s[|s| - 1]]
  }

  /** Each chosen element occupies two consecutive places, in the order chosen. */
  lemma {:induction false} PairUpPlaces<T>(s: seq<T>, i: nat)
    requires i < |s|
    ensures PairUp(s)[2 * i] == s[i] && PairUp(s)[2 * i + 1] == s[i]
  {
    if i < |s| - 1 {
      PairUpPlaces(s[..|s| - 1], i);
    }
  }

  lemma {:induction false} PairUpCounts<T>(s: seq<T>)
    ensures multiset(PairUp(s)) == multiset(s) + multiset(s)
  {
    if |s| > 0 {
      var init, last := s[..|s| - 1], s[|s| - 1];
      assert s == init + [last];
      PairUpCounts(init);
    }
  }

  /** The draws InitializeLevel consumes: the catalog shuffle's, then the pair shuffle's. */
  predicate ValidLevelDraws(rng: seq<int>, catalogSize: nat, pairs: nat) {
    && |rng| == DrawCount(catalogSize) + DrawCount(2 * pairs)
    && ValidDraws(rng[..DrawCount(catalogSize)], catalogSize)
    && ValidDraws(rng[DrawCount(catalogSize)..], 2 * pairs)
  }

  /** The catalog entries a round uses: the first pairsNeeded of the shuffled catalog. */
  function ChosenConfigs(catalog: seq<CardConfig>, d: DifficultyConfig, rng: seq<int>): (r: seq<CardConfig>)
    requires FitsCatalog(d, catalog)
    requires ValidLevelDraws(rng, |catalog|, PairsOf(d))
    ensures |r| == PairsOf(d)
  {
    var shuffled := Shuffled(catalog, rng[..DrawCount(|catalog|)]);
    ShuffledIsPermutation(catalog, rng[..DrawCount(|catalog|)]);
    shuffled[..PairsOf(d)]
  }

  /** The dealt deck: the chosen entries paired up, then shuffled. */
  function BuildDeck(catalog: seq<CardConfig>, d: DifficultyConfig, rng: seq<int>): seq<CardConfig>
    requires FitsCatalog(d, catalog)
    requires ValidLevelDraws(rng, |catalog|, PairsOf(d))
  {
    Shuffled(PairUp(ChosenConfigs(catalog, d, rng)), rng[DrawCount(|catalog|)..])
  }

  /** The deck has one card per grid cell and each chosen entry exactly twice. */
  lemma DeckShape(catalog: seq<CardConfig>, d: DifficultyConfig, rng: seq<int>)
    requires FitsCatalog(d, catalog)
    requires ValidLevelDraws(rng, |catalog|, PairsOf(d))
    ensures |BuildDeck(catalog, d, rng)| == TotalCards(d)
    ensures multiset(BuildDeck(catalog, d, rng)) == multiset(ChosenConfigs(catalog, d, rng)) + multiset(ChosenConfigs(catalog, d, rng))
  {
    var pairs := PairUp(ChosenConfigs(catalog, d, rng));
    PairUpCounts(ChosenConfigs(catalog, d, rng));
    ShuffledIsPermutation(pairs, rng[DrawCount(|catalog|)..]);
  }

  /** Catalog entries carry pairwise distinct CardIds. */
  predicate DistinctIds(s: seq<CardConfig>) {
    forall i, j :: 0 <= i < j < |s| ==> s[i].cardId != s[j].cardId
  }

  lemma {:induction false} DistinctAtMostOnce(s: seq<CardConfig>, c: CardConfig)
    requires DistinctIds(s)
    ensures multiset(s)[c] <= 1
  {
    if |s| > 0 {
      var rest := s[1..];
      assert s == [s[0]] + rest;
      assert DistinctIds(rest) by {
        forall i, j | 0 <= i < j < |rest| ensures rest[i].cardId != rest[j].cardId {
          assert rest[i] == s[i + 1] && rest[j] == s[j + 1];
        }
      }
      DistinctAtMostOnce(rest, c);
      if c == s[0] {
        assert c !in rest by {
          forall j | 0 <= j < |rest| ensures rest[j] != c {
            assert rest[j] == s[j + 1];
          }
        }
      }
    }
  }

  /** With a catalog of distinct CardIds, every entry present in the deck occurs exactly twice. */
  lemma DeckIsPaired(catalog: seq<CardConfig>, d: DifficultyConfig, rng: seq<int>, c: CardConfig)
    requires FitsCatalog(d, catalog)
    requires ValidLevelDraws(rng, |catalog|, PairsOf(d))
    requires DistinctIds(catalog)
    requires c in BuildDeck(catalog, d, rng)
    ensures multiset(BuildDeck(catalog, d, rng))[c] == 2
  {
    var catalogDraws := rng[..DrawCount(|catalog|)];
    var shuffled := Shuffled(catalog, catalogDraws);
    ShuffledIsPermutation(catalog, catalogDraws);
    DistinctAtMostOnce(catalog, c);
    var chosen := ChosenConfigs(catalog, d, rng);
    assert shuffled == chosen + shuffled[PairsOf(d)..];
    assert multiset(chosen)[c] <= 1;
    DeckShape(catalog, d, rng);
    assert multiset(BuildDeck(catalog, d, rng))[c] > 0;
  }

  // ---------------------------------------------------------------------------
  // The active cards

  /** Index of grid cell (x, y) in row-major order. */
  function CellIndex(x: nat, y: nat, gridX: nat): nat {
    y * gridX + x
  }

  /**
   * cards deals deck row by row on a gridX-by-gridY grid: card k sits in the
   * cell whose row-major index is k and carries deck[k].
   */
  predicate LaidOut(cards: seq<Card>, deck: seq<CardConfig>, gridX: nat, gridY: nat) {
    && |cards| == |deck|
    && forall k :: 0 <= k < |cards| ==>
         && cards[k].index == k
         && cards[k].config == deck[k]
         && cards[k].x < gridX && cards[k].y < gridY
         && CellIndex(cards[k].x, cards[k].y, gridX) == k
  }

  /** Number of cards carrying a given CardId. */
  function CountId(cards: seq<Card>, id: int): nat {
    if |cards| == 0 then 0
    else CountId(cards[..|cards| - 1], id) + (if cards[|cards| - 1].config.cardId == id then 1 else 0)
  }

  lemma {:induction false} CountIdIsDeckCount(cards: seq<Card>, deck: seq<CardConfig>, id: int)
    requires |cards| == |deck|
    requires forall k :: 0 <= k < |cards| ==> cards[k].config == deck[k]
    ensures CountId(cards, id) == multiset(deck)[CardConfig(id)]
  {
    if |cards| > 0 {
      var n := |cards| - 1;
      assert deck == deck[..n] + [deck[n]];
      CountIdIsDeckCount(cards[..n], deck[..n], id);
    }
  }

  /** Every CardId on the table occurs exactly twice. */
  predicate Paired(cards: seq<Card>) {
    forall k :: 0 <= k < |cards| ==> CountId(cards, cards[k].config.cardId) == 2
  }

  /** Pair invariant: with distinct catalog CardIds, the dealt cards are paired. */
  lemma ActiveCardsPaired(cards: seq<Card>, catalog: seq<CardConfig>, d: DifficultyConfig, rng: seq<int>)
    requires FitsCatalog(d, catalog)
    requires ValidLevelDraws(rng, |catalog|, PairsOf(d))
    requires DistinctIds(catalog)
    requires LaidOut(cards, BuildDeck(catalog, d, rng), d.gridX, d.gridY)
    ensures Paired(cards)
  {
    var deck := BuildDeck(catalog, d, rng);
    forall k | 0 <= k < |cards| ensures CountId(cards, cards[k].config.cardId) == 2 {
      CountIdIsDeckCount(cards, deck, cards[k].config.cardId);
      assert deck[k] == CardConfig(cards[k].config.cardId);
      DeckIsPaired(catalog, d, rng, deck[k]);
    }
  }

  lemma CellInGrid(x: nat, y: nat, gridX: nat, gridY: nat)
    requires x < gridX && y < gridY
    ensures CellIndex(x, y, gridX) < gridX * gridY
  {
    calc {
      y * gridX + x;
    <  y * gridX + gridX;
    == (y + 1) * gridX;
    <= { assert y + 1 <= gridY; } gridY * gridX;
    }
  }

  lemma NextRow(y: nat, gridX: nat, gridY: nat)
    requires y < gridY
    ensures y * gridX + gridX == (y + 1) * gridX <= gridX * gridY
  {
  }

  // ---------------------------------------------------------------------------
  // The level manager

  class LevelManager {
    /** GameConfig.AllCardsConfigs, injected. */
    const catalog: seq<CardConfig>
    var activeCards: seq<Card>

    constructor (catalog: seq<CardConfig>)
      ensures this.catalog == catalog && activeCards == []
    {
      this.catalog := catalog;
      activeCards := [];
    }

    /** Destroys every active card: none survives. */
    method Reset()
      modifies this
      ensures activeCards == []
    {
      activeCards := [];
    }

    /** Fisher-Yates in place: for i from Count - 1 down to 1, swap list[i] with list[draw]. */
    method ShuffleList<T>(list: array<T>, draws: seq<int>)
      requires ValidDraws(draws, list.Length)
      modifies list
      ensures list[..] == Shuffled(old(list[..]), draws)
      ensures multiset(list[..]) == multiset(old(list[..]))
    {
      var n := list.Length;
      ghost var goal := Shuffled(list[..], draws);
      var i := n - 1;
      while i > 0
        invariant n == 0 ==> i == -1 && list[..] == goal
        invariant n > 0 ==> 0 <= i < n && FisherYates(list[..], i, draws) == goal
      {
        var randomIndex := draws[n - 1 - i];
        ghost var before := list[..];
        var temp := list[i];
        list[i] := list[randomIndex];
        list[randomIndex] := temp;
        assert list[..] == before[i := before[randomIndex]][randomIndex := before[i]];
        i := i - 1;
      }
      ShuffledIsPermutation(old(list[..]), draws);
    }

    /** Deals the round of a difficulty after a Reset. */
    method InitializeLevel(config: DifficultyConfig, rng: seq<int>)
      requires FitsCatalog(config, catalog)
      requires ValidLevelDraws(rng, |catalog|, PairsOf(config))
      modifies this
      ensures |activeCards| == TotalCards(config)
      ensures LaidOut(activeCards, BuildDeck(catalog, config, rng), config.gridX, config.gridY)
    {
      Reset();
      var gridX := config.gridX;
      var gridY := config.gridY;
      var totalCards := gridX * gridY;
      var pairsNeeded := totalCards / 2;

      var shuffledConfigs := new CardConfig[|catalog|](k requires 0 <= k < |catalog| => catalog[k]);
      assert shuffledConfigs[..] == catalog;
      var split := DrawCount(|catalog|);
      ShuffleList(shuffledConfigs, rng[..split]);

      var cardPairs := CollectPairs(shuffledConfigs, pairsNeeded);
      assert cardPairs == PairUp(ChosenConfigs(catalog, config, rng));

      var pairsArray := new CardConfig[|cardPairs|](k requires 0 <= k < |cardPairs| => cardPairs[k]);
      assert pairsArray[..] == cardPairs;
      ShuffleList(pairsArray, rng[split..]);
      var deck := pairsArray[..];
      assert deck == BuildDeck(catalog, config, rng);
      DeckShape(catalog, config, rng);

      DealCards(deck, gridX, gridY);
    }

    /** The cardPairs loop of InitializeLevel: each of the first pairsNeeded entries, twice. */
    method CollectPairs(shuffled: array<CardConfig>, pairsNeeded: nat) returns (cardPairs: seq<CardConfig>)
      requires pairsNeeded <= shuffled.Length
      ensures cardPairs == PairUp(shuffled[..pairsNeeded])
    {
      cardPairs := [];
      var i := 0;
      while i < pairsNeeded
        invariant 0 <= i <= pairsNeeded
        invariant cardPairs == PairUp(shuffled[..i])
      {
        assert shuffled[..i + 1][..i] == shuffled[..i];
        cardPairs := cardPairs + [shuffled[i]];
        cardPairs := cardPairs + [shuffled[i]];
        i := i + 1;
      }
    }

    /** The nested y/x loops of InitializeLevel: one card per cell, in row-major order. */
    method DealCards(deck: seq<CardConfig>, gridX: nat, gridY: nat)
      requires |deck| == gridX * gridY
      requires activeCards == []
      modifies this
      ensures LaidOut(activeCards, deck, gridX, gridY)
    {
      var cardIndex := 0;
      var y := 0;
      while y < gridY
        invariant 0 <= y <= gridY
        invariant cardIndex == y * gridX <= |deck|
        invariant |activeCards| == cardIndex
        invariant forall k :: 0 <= k < |activeCards| ==>
          && activeCards[k].index == k
          && activeCards[k].config == deck[k]
          && activeCards[k].x < gridX && activeCards[k].y < gridY
          && CellIndex(activeCards[k].x, activeCards[k].y, gridX) == k
      {
        var x := 0;
        while x < gridX
          invariant 0 <= x <= gridX
          invariant cardIndex == y * gridX + x <= |deck|
          invariant |activeCards| == cardIndex
          invariant forall k :: 0 <= k < |activeCards| ==>
            && activeCards[k].index == k
            && activeCards[k].config == deck[k]
            && activeCards[k].x < gridX && activeCards[k].y < gridY
            && CellIndex(activeCards[k].x, activeCards[k].y, gridX) == k
        {
          CellInGrid(x, y, gridX, gridY);
          activeCards := activeCards + [Card(cardIndex, x, y, deck[cardIndex])];
          cardIndex := cardIndex + 1;
          x := x + 1;
        }
        NextRow(y, gridX, gridY);
        y := y + 1;
      }
      assert y * gridX == |deck|;
    }
  }
}
