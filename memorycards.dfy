/** Memory Cards: a grid of face-down cards holding pairs of symbols. The
    player turns two cards over; equal symbols stay matched, unequal ones
    are turned back. The level is complete when every pair is matched. */
module MemoryCards {
  import opened Selection

  const MaxLevel := 20

  /** The twenty symbols a deck takes its pairs from, in order. */
  const Symbols: seq<string> := [
    "\U{1F31F}", "\U{1F3AF}", "\U{1F525}", "\U{1F48E}", "\U{1F308}",
    "\U{26A1}", "\U{1F3AA}", "\U{1F680}", "\U{1F3A8}", "\U{1F3AD}",
    "\U{1F3B5}", "\U{1F3B2}", "\U{1F38A}", "\U{1F388}", "\U{1F381}",
    "\U{1F3C6}", "\U{1F33A}", "\U{1F98B}", "\U{1F338}", "\U{1F340}"
  ]

  /** The single card a deck of odd size would get. */
  const Filler := "\U{1F3AD}"

  lemma SymbolsDistinct()
    ensures |Symbols| == 20 && Distinct(Symbols)
  {
  }

  datatype Grid = Grid(rows: nat, cols: nat)

  /** The grid of a level: 2x2 up to level 4, then 2x3, 3x4, 4x4 and 4x5. */
  function GridConfig(level: int): (g: Grid)
    ensures level <= 4 ==> g == Grid(2, 2)
    ensures level >= 17 ==> g == Grid(4, 5)
  {
    if level <= 4 then Grid(2, 2)
    else if level <= 8 then Grid(2, 3)
    else if level <= 12 then Grid(3, 4)
    else if level <= 16 then Grid(4, 4)
    else Grid(4, 5)
  }

  /** How many cards a level deals. */
  function Area(level: int): (n: nat)
    ensures n == 4 || n == 6 || n == 12 || n == 16 || n == 20
    ensures n % 2 == 0 && n / 2 <= |Symbols|
  {
    GridConfig(level).rows * GridConfig(level).cols
  }

  /** Later levels never deal fewer cards. */
  lemma AreaMonotone(a: int, b: int)
    requires a <= b
    ensures Area(a) <= Area(b)
  {
  }

  datatype Card = Card(id: int, value: string, isFlipped: bool, isMatched: bool)

  function Values(cards: seq<Card>): (vs: seq<string>)
    ensures |vs| == |cards|
  {
    seq(|cards|, i requires 0 <= i < |cards| => cards[i].value)
  }

  /** The symbols of a level's deck before shuffling: the first `n / 2`
      symbols twice, and the filler if the grid had an odd size. */
  function DeckValues(level: int): (vs: seq<string>)
    ensures |vs| == Area(level)
  {
    var total := Area(level);
    var pairs := Symbols[..total / 2];
    pairs + pairs + (if total % 2 == 1 then [Filler] else [])
  }

  /** The deal of `initializeGame`, the randomised sort giving `order`. */
  function Deal(level: int, order: seq<nat>): (deck: seq<Card>)
    requires IsPermutation(order, Area(level))
    ensures |deck| == Area(level)
    ensures forall i :: 0 <= i < |deck| ==>
      deck[i].id == i && !deck[i].isFlipped && !deck[i].isMatched
    ensures multiset(Values(deck)) == multiset(DeckValues(level))
    ensures MatchedCount(deck) == 0
  {
    var shuffled := Select(DeckValues(level), order)[..Area(level)];
    var deck := seq(|shuffled|, i requires 0 <= i < |shuffled| => Card(i, shuffled[i], false, false));
    PermutationKeepsElements(DeckValues(level), order);
    assert Values(deck) == Select(DeckValues(level), order);
    CountZero(deck);
    deck
  }

  /** Each of the first `n / 2` symbols is dealt exactly twice, and no
      other symbol is dealt. */
  lemma EachSymbolTwice(level: int, order: seq<nat>, s: string)
    requires IsPermutation(order, Area(level))
    ensures s in Symbols[..Area(level) / 2] ==> multiset(Values(Deal(level, order)))[s] == 2
    ensures s !in Symbols[..Area(level) / 2] ==> multiset(Values(Deal(level, order)))[s] == 0
  {
    var pairs := Symbols[..Area(level) / 2];
    SymbolsDistinct();
    assert Distinct(pairs);
    DistinctOnce(pairs, s);
    assert DeckValues(level) == pairs + pairs;
  }

  function Flag(c: Card): nat {
    if c.isMatched then 1 else 0
  }

  /** How many cards are matched. */
  function MatchedCount(cards: seq<Card>): (n: nat)
    ensures n <= |cards|
  {
    if cards == [] then 0 else MatchedCount(cards[..|cards| - 1]) + Flag(cards[|cards| - 1])
  }

  /** Replacing one card changes the count by that card's difference. */
  lemma {:induction false} CountUpdate(cards: seq<Card>, k: nat, c: Card)
    requires k < |cards|
    ensures MatchedCount(cards[k := c]) == MatchedCount(cards) - Flag(cards[k]) + Flag(c)
  {
    var last := |cards| - 1;
    if k == last {
      assert cards[k := c][..last] == cards[..last];
    } else {
      assert cards[k := c][..last] == cards[..last][k := c];
      CountUpdate(cards[..last], k, c);
    }
  }

  /** All cards are matched exactly when the count is the deck's size. */
  lemma {:induction false} CountAll(cards: seq<Card>)
    ensures MatchedCount(cards) == |cards| <==> forall i :: 0 <= i < |cards| ==> cards[i].isMatched
  {
    if cards != [] {
      var last := |cards| - 1;
      CountAll(cards[..last]);
      if forall i :: 0 <= i < |cards| ==> cards[i].isMatched {
        assert forall i :: 0 <= i < last ==> cards[..last][i].isMatched;
      }
      if MatchedCount(cards) == |cards| {
        assert forall i :: 0 <= i < last ==> cards[..last][i] == cards[i];
      }
    }
  }

  /** Changing a card's flags keeps the symbols where they are. */
  lemma ValuesUpdate(cards: seq<Card>, k: nat, c: Card)
    requires k < |cards| && c.value == cards[k].value
    ensures Values(cards[k := c]) == Values(cards)
  {
    assert forall i :: 0 <= i < |cards| ==> Values(cards[k := c])[i] == Values(cards)[i];
  }

  /** Card ids are their positions, as the deal numbers them. */
  predicate Indexed(cards: seq<Card>) {
    forall i :: 0 <= i < |cards| ==> cards[i].id == i
  }

  /** `cards.map(card => card.id === id ? { ...card, isFlipped: true } : card)`. */
  function FlipUp(cards: seq<Card>, id: nat): (r: seq<Card>)
    ensures |r| == |cards|
  {
    seq(|cards|, i requires 0 <= i < |cards| =>
      if cards[i].id == id then cards[i].(isFlipped := true) else cards[i])
  }

  /** The cards whose ids are in `pair`, marked matched. */
  function MarkMatched(cards: seq<Card>, pair: seq<nat>): (r: seq<Card>)
    ensures |r| == |cards|
  {
    seq(|cards|, i requires 0 <= i < |cards| =>
      if cards[i].id in pair then cards[i].(isMatched := true) else cards[i])
  }

  /** The cards whose ids are in `pair`, turned face down. */
  function TurnDown(cards: seq<Card>, pair: seq<nat>): (r: seq<Card>)
    ensures |r| == |cards|
  {
    seq(|cards|, i requires 0 <= i < |cards| =>
      if cards[i].id in pair then cards[i].(isFlipped := false) else cards[i])
  }

  /** Turning one unmatched card over changes only that card, keeps the
      symbols where they are and matches nothing. */
  lemma FlipUpEffect(cards: seq<Card>, id: nat)
    requires Indexed(cards) && id < |cards|
    ensures FlipUp(cards, id) == cards[id := cards[id].(isFlipped := true)]
    ensures Values(FlipUp(cards, id)) == Values(cards)
    ensures MatchedCount(FlipUp(cards, id)) == MatchedCount(cards)
  {
    assert FlipUp(cards, id) == cards[id := cards[id].(isFlipped := true)];
    ValuesUpdate(cards, id, cards[id].(isFlipped := true));
    CountUpdate(cards, id, cards[id].(isFlipped := true));
  }

  /** With ids equal to positions, matching the cards of a pair updates
      exactly those two positions. */
  lemma MarkMatchedIsUpdate(cards: seq<Card>, a: nat, b: nat)
    requires Indexed(cards) && a < |cards| && b < |cards| && a != b
    ensures MarkMatched(cards, [a, b])
         == cards[a := cards[a].(isMatched := true)][b := cards[b].(isMatched := true)]
  {
    var c2 := cards[a := cards[a].(isMatched := true)][b := cards[b].(isMatched := true)];
    var r := MarkMatched(cards, [a, b]);
    forall i | 0 <= i < |cards| ensures r[i] == c2[i] {
      if i != a && i != b {
        assert cards[i].id !in [a, b];
      }
    }
  }

  /** Matching two distinct unmatched cards adds two to the count and keeps
      the symbols where they are. */
  lemma MarkMatchedEffect(cards: seq<Card>, a: nat, b: nat)
    requires Indexed(cards) && a < |cards| && b < |cards| && a != b
    requires !cards[a].isMatched && !cards[b].isMatched
    ensures MarkMatched(cards, [a, b])
         == cards[a := cards[a].(isMatched := true)][b := cards[b].(isMatched := true)]
    ensures Values(MarkMatched(cards, [a, b])) == Values(cards)
    ensures MatchedCount(MarkMatched(cards, [a, b])) == MatchedCount(cards) + 2
  {
    MarkMatchedIsUpdate(cards, a, b);
    var c1 := cards[a := cards[a].(isMatched := true)];
    ValuesUpdate(cards, a, c1[a]);
    ValuesUpdate(c1, b, cards[b].(isMatched := true));
    CountUpdate(cards, a, c1[a]);
    CountUpdate(c1, b, cards[b].(isMatched := true));
  }

  /** With ids equal to positions, turning a pair back updates exactly
      those two positions. */
  lemma TurnDownIsUpdate(cards: seq<Card>, a: nat, b: nat)
    requires Indexed(cards) && a < |cards| && b < |cards| && a != b
    ensures TurnDown(cards, [a, b])
         == cards[a := cards[a].(isFlipped := false)][b := cards[b].(isFlipped := false)]
  {
    var c2 := cards[a := cards[a].(isFlipped := false)][b := cards[b].(isFlipped := false)];
    var r := TurnDown(cards, [a, b]);
    forall i | 0 <= i < |cards| ensures r[i] == c2[i] {
      if i != a && i != b {
        assert cards[i].id !in [a, b];
      }
    }
  }

  /** Turning two cards back changes neither the symbols nor the count. */
  lemma TurnDownEffect(cards: seq<Card>, a: nat, b: nat)
    requires Indexed(cards) && a < |cards| && b < |cards| && a != b
    ensures TurnDown(cards, [a, b])
         == cards[a := cards[a].(isFlipped := false)][b := cards[b].(isFlipped := false)]
    ensures Values(TurnDown(cards, [a, b])) == Values(cards)
    ensures MatchedCount(TurnDown(cards, [a, b])) == MatchedCount(cards)
  {
    TurnDownIsUpdate(cards, a, b);
    var c1 := cards[a := cards[a].(isFlipped := false)];
    ValuesUpdate(cards, a, c1[a]);
    ValuesUpdate(c1, b, cards[b].(isFlipped := false));
    CountUpdate(cards, a, c1[a]);
    CountUpdate(c1, b, cards[b].(isFlipped := false));
  }

  /** How the card flags agree with the turned-over list and the pair
      count: the face-up unmatched cards are exactly the turned-over ones,
      of which there are at most two; matched cards stay face up; and two
      cards are matched per matched pair. */
  predicate Table(cards: seq<Card>, flipped: seq<nat>, pairs: nat) {
    Indexed(cards) &&
    |flipped| <= 2 && Distinct(flipped) && InRange(flipped, |cards|) &&
    (forall i :: 0 <= i < |cards| ==>
       (cards[i].isFlipped && !cards[i].isMatched <==> i in flipped)) &&
    (forall i :: 0 <= i < |cards| && cards[i].isMatched ==> cards[i].isFlipped) &&
    MatchedCount(cards) == 2 * pairs
  }

  /** A fresh deal satisfies the table invariant with nothing turned over. */
  lemma TableAfterDeal(level: int, order: seq<nat>)
    requires IsPermutation(order, Area(level))
    ensures Table(Deal(level, order), [], 0)
  {
  }

  /** While a card is turned over, not every pair is matched. */
  lemma TableUnfinished(cards: seq<Card>, flipped: seq<nat>, pairs: nat)
    requires Table(cards, flipped, pairs) && flipped != []
    ensures 2 * pairs < |cards|
  {
    assert flipped[0] in flipped;
    CountAll(cards);
  }

  /** Turning over a card that is neither face up nor matched, with fewer
      than two turned over, keeps the invariant. */
  lemma TableAfterFlip(cards: seq<Card>, flipped: seq<nat>, pairs: nat, id: nat)
    requires Table(cards, flipped, pairs) && |flipped| < 2 && id < |cards|
    requires !cards[id].isFlipped && !cards[id].isMatched
    ensures Table(FlipUp(cards, id), flipped + [id], pairs)
    ensures Values(FlipUp(cards, id)) == Values(cards)
  {
    FlipUpEffect(cards, id);
    assert id !in flipped;
  }

  /** Matching the two turned-over cards keeps the invariant with one more pair. */
  lemma TableAfterMatch(cards: seq<Card>, flipped: seq<nat>, pairs: nat)
    requires Table(cards, flipped, pairs) && |flipped| == 2
    ensures Table(MarkMatched(cards, flipped), [], pairs + 1)
    ensures Values(MarkMatched(cards, flipped)) == Values(cards)
  {
    var a, b := flipped[0], flipped[1];
    assert a in flipped && b in flipped && flipped == [a, b];
    MarkMatchedEffect(cards, a, b);
  }

  /** Turning the two turned-over cards back keeps the invariant. */
  lemma TableAfterTurnDown(cards: seq<Card>, flipped: seq<nat>, pairs: nat)
    requires Table(cards, flipped, pairs) && |flipped| == 2
    ensures Table(TurnDown(cards, flipped), [], pairs)
    ensures Values(TurnDown(cards, flipped)) == Values(cards)
  {
    var a, b := flipped[0], flipped[1];
    assert a in flipped && b in flipped && flipped == [a, b];
    TurnDownEffect(cards, a, b);
  }

  class Game {
    var level: int
    var cards: seq<Card>
    var flippedCards: seq<nat>
    var matchedPairs: nat
    var moves: nat
    var gameComplete: bool
    var score: int

    ghost predicate Valid()
      reads this
    {
      1 <= level <= MaxLevel && score >= 0 &&
      |cards| == Area(level) &&
      multiset(Values(cards)) == multiset(DeckValues(level)) &&
      Table(cards, flippedCards, matchedPairs) &&
      (gameComplete ==> 2 * matchedPairs == |cards|)
    }

    /** Mounting: level 1, score 0 and the first deal. */
    constructor (order: seq<nat>)
      requires IsPermutation(order, Area(1))
      ensures Valid() && level == 1 && score == 0
      ensures cards == Deal(1, order) && flippedCards == [] && matchedPairs == 0 && moves == 0
      ensures !gameComplete
    {
      level := 1;
      score := 0;
      cards := Deal(1, order);
      flippedCards := [];
      matchedPairs := 0;
      moves := 0;
      gameComplete := false;
      new;
      TableAfterDeal(1, order);
    }

    /** `initializeGame`: a new deal for the level, nothing turned over. */
    method InitializeGame(order: seq<nat>)
      requires 1 <= level <= MaxLevel && score >= 0 && IsPermutation(order, Area(level))
      modifies this`cards, this`flippedCards, this`matchedPairs, this`moves, this`gameComplete
      ensures Valid()
      ensures cards == Deal(level, order) && flippedCards == [] && matchedPairs == 0 && moves == 0
      ensures !gameComplete
    {
      cards := Deal(level, order);
      flippedCards := [];
      matchedPairs := 0;
      moves := 0;
      gameComplete := false;
      TableAfterDeal(level, order);
    }

    /** `handleCardClick`. Ignored while two cards are turned over and on a
        card already turned over or matched; otherwise the card is turned
        over, and turning over the second card counts one move. (The card
        with `id == cardId` is the one at position `cardId`.) */
    method HandleCardClick(cardId: nat)
      requires Valid() && cardId < |cards|
      modifies this`cards, this`flippedCards, this`moves
      ensures Valid()
      ensures old(|flippedCards| >= 2 || cards[cardId].isFlipped || cards[cardId].isMatched) ==>
        cards == old(cards) && flippedCards == old(flippedCards) && moves == old(moves)
      ensures !old(|flippedCards| >= 2 || cards[cardId].isFlipped || cards[cardId].isMatched) ==>
        flippedCards == old(flippedCards) + [cardId] &&
        cards == old(cards)[cardId := old(cards[cardId]).(isFlipped := true)] &&
        moves == old(moves) + (if |flippedCards| == 2 then 1 else 0)
    {
      if |flippedCards| >= 2 || cards[cardId].isFlipped || cards[cardId].isMatched {
        return;
      }
      FlipUpEffect(cards, cardId);
      TableAfterFlip(cards, flippedCards, matchedPairs, cardId);
      flippedCards := flippedCards + [cardId];
      cards := FlipUp(cards, cardId);
      if |flippedCards| == 2 {
        moves := moves + 1;
      }
    }

    /** The deferred resolution after the second card: equal symbols are
        matched for (21 - level) * 10 points, unequal ones are turned back
        and nothing else changes. */
    method ResolveFlip()
      requires Valid() && |flippedCards| == 2
      modifies this`cards, this`flippedCards, this`matchedPairs, this`score
      ensures Valid() && flippedCards == []
      ensures var a, b := old(flippedCards[0]), old(flippedCards[1]);
        if old(cards[a].value == cards[b].value) then
          cards == old(cards)[a := old(cards[a]).(isMatched := true)][b := old(cards[b]).(isMatched := true)] &&
          matchedPairs == old(matchedPairs) + 1 && score == old(score) + (21 - level) * 10
        else
          cards == old(cards)[a := old(cards[a]).(isFlipped := false)][b := old(cards[b]).(isFlipped := false)] &&
          matchedPairs == old(matchedPairs) && score == old(score)
    {
      var a, b := flippedCards[0], flippedCards[1];
      assert a in flippedCards && b in flippedCards && flippedCards == [a, b];
      TableUnfinished(cards, flippedCards, matchedPairs);
      if cards[a].value == cards[b].value {
        MarkMatchedEffect(cards, a, b);
        TableAfterMatch(cards, flippedCards, matchedPairs);
        cards := MarkMatched(cards, flippedCards);
        matchedPairs := matchedPairs + 1;
        score := score + (21 - level) * 10;
      } else {
        TurnDownEffect(cards, a, b);
        TableAfterTurnDown(cards, flippedCards, matchedPairs);
        cards := TurnDown(cards, flippedCards);
      }
      flippedCards := [];
    }

    /** The completion effect: the level is complete once every pair is
        matched; completion then means that every card is matched. */
    method CheckComplete()
      requires Valid()
      modifies this`gameComplete
      ensures Valid()
      ensures gameComplete == (old(gameComplete) || (matchedPairs == |cards| / 2 && |cards| / 2 > 0))
      ensures gameComplete <==> forall i :: 0 <= i < |cards| ==> cards[i].isMatched
    {
      var totalPairs := |cards| / 2;
      if matchedPairs == totalPairs && totalPairs > 0 {
        gameComplete := true;
      }
      CountAll(cards);
    }

    /** `nextLevel`, followed by the deal the level change triggers. */
    method NextLevel(order: seq<nat>)
      requires Valid() && IsPermutation(order, Area(if level < MaxLevel then level + 1 else 1))
      modifies this
      ensures Valid()
      ensures level == if old(level) < MaxLevel then old(level) + 1 else 1
      ensures score == if old(level) < MaxLevel then old(score) else 0
      ensures cards == Deal(level, order) && flippedCards == [] && matchedPairs == 0 && moves == 0
      ensures !gameComplete
    {
      if level < MaxLevel {
        level := level + 1;
      } else {
        level := 1;
        score := 0;
      }
      InitializeGame(order);
    }

    /** `resetGame`: level 1, score 0 and a new deal. */
    method ResetGame(order: seq<nat>)
      requires Valid() && IsPermutation(order, Area(1))
      modifies this
      ensures Valid() && level == 1 && score == 0
      ensures cards == Deal(1, order) && flippedCards == [] && matchedPairs == 0 && moves == 0
      ensures !gameComplete
    {
      level := 1;
      score := 0;
      InitializeGame(order);
    }
  }

  /** A deck with no matched card has a count of zero. */
  lemma {:induction false} CountZero(cards: seq<Card>)
    requires forall i :: 0 <= i < |cards| ==> !cards[i].isMatched
    ensures MatchedCount(cards) == 0
  {
    if cards != [] {
      CountZero(cards[..|cards| - 1]);
    }
  }
}
