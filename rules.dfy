/** The configurable rule set: hand sizes, redraw count, deck composition,
    and the pattern predicates that score a rank-sorted hand against its
    rank-frequency list. */
module Rules {
  import opened Cards

  const DefaultHandSize: nat := 5
  const DefaultRedraws: nat := 1

  const Suits: seq<string> := ["hearts", "clubs", "diamonds", "spades"]
  /** The ranks 2 to 14 in ascending order. */
  const Ranks: seq<int> := seq(13, i => i + 2)

  /** The default deck: suit by suit in the order of Suits, and within a suit
      the ranks ascending. */
  function StandardDeck(): (d: seq<Card>)
    ensures |d| == 52
  {
    seq(52, i requires 0 <= i < 52 => Card(Ranks[i % 13], Suits[i / 13]))
  }

  /** A card that belongs to the default deck. */
  predicate IsStandardCard(c: Card)
  {
    2 <= c.rank <= 14 && c.suit in Suits
  }

  /** All cards share one suit. */
  predicate SingleSuit(s: seq<Card>)
  {
    forall i, j | 0 <= i < j < |s| :: s[i].suit == s[j].suit
  }

  /** The ranks run down by one from the first card: s[i] has rank s[0].rank - i. */
  predicate DescendingRun(s: seq<Card>)
  {
    forall i | 0 <= i < |s| :: s[i].rank == s[0].rank - i
  }

  /** The full-house condition with its redundant first comparison dropped:
      the second group holds at least half the play size (rounded down) and
      the first group exceeds it by the parity of the play size. */
  predicate FullHouseCounts(playHandSize: nat, f: seq<nat>)
  {
    2 <= |f| && f[1] >= playHandSize / 2 && f[0] == f[1] + playHandSize % 2
  }

  /** The first two frequencies describe two pairs. */
  predicate TwoPairs(f: seq<nat>)
  {
    2 <= |f| && f[0] == 2 && f[1] == 2
  }

  /** A frequency list that fits a hand of n cards: no group and no two
      leading groups together are larger than the hand. */
  predicate FitsHand(f: seq<nat>, n: nat)
  {
    (forall i | 0 <= i < |f| :: f[i] <= n) && (2 <= |f| ==> f[0] + f[1] <= n)
  }

  class GameRules {
    var handSize: nat
    var playHandSize: nat
    var redrawsAvailable: nat
    var deckCards: seq<Card>

    /** The defaults: five cards dealt, five played, one redraw, the standard deck. */
    constructor()
      ensures handSize == 5 && playHandSize == 5 && redrawsAvailable == 1
      ensures deckCards == StandardDeck() && DeckSize() == 52
    {
      var cards := BuildDeckCards();
      handSize := DefaultHandSize;
      playHandSize := DefaultHandSize;
      redrawsAvailable := DefaultRedraws;
      deckCards := cards;
    }

    /** Builds the default deck suit by suit, pushing one card per rank. */
    static method BuildDeckCards() returns (cards: seq<Card>)
      ensures cards == StandardDeck()
    {
      cards := [];
      for si := 0 to |Suits|
        invariant cards == StandardDeck()[..13 * si]
      {
        for ri := 0 to |Ranks|
          invariant cards == StandardDeck()[..13 * si + ri]
        {
          StandardDeckAt(si, ri);
          assert StandardDeck()[..13 * si + ri + 1] == StandardDeck()[..13 * si + ri] + [StandardDeck()[13 * si + ri]];
          cards := cards + [Card(Ranks[ri], Suits[si])];
        }
      }
    }

    /** A copy of the configured deck, card by card in the same order. */
    method DeckCards() returns (cards: seq<Card>)
      ensures cards == deckCards
    {
      cards := [];
      for i := 0 to |deckCards|
        invariant cards == deckCards[..i]
      {
        cards := cards + [Card(deckCards[i].rank, deckCards[i].suit)];
      }
      assert deckCards[..|deckCards|] == deckCards;
    }

    /** Pushes cards onto the configured deck one at a time; any card may be
        added any number of times, and the other settings stay as they are. */
    method AppendCards(t: seq<Card>)
      modifies this
      ensures deckCards == old(deckCards) + t
      ensures DeckSize() == old(DeckSize()) + |t|
      ensures handSize == old(handSize) && playHandSize == old(playHandSize)
      ensures redrawsAvailable == old(redrawsAvailable)
    {
      for i := 0 to |t|
        invariant deckCards == old(deckCards) + t[..i]
        invariant handSize == old(handSize) && playHandSize == old(playHandSize)
        invariant redrawsAvailable == old(redrawsAvailable)
      {
        assert t[..i + 1] == t[..i] + [t[i]];
        deckCards := deckCards + [t[i]];
      }
      assert t[..|t|] == t;
    }

    /** The number of configured cards. */
    function DeckSize(): nat
      reads this
    {
      |deckCards|
    }

    /** A flush: exactly playHandSize cards, all of the first card's suit. */
    function IsFlush(sortedCards: seq<Card>, cardFrequencies: seq<nat>): (r: HandRank)
      reads this
      ensures r.matches <==> |sortedCards| == playHandSize && SingleSuit(sortedCards)
      ensures r.matches ==> r.rank == SumRanks(sortedCards) && r.value == |sortedCards|
      ensures !r.matches ==> r == NoMatch
    {
      if |sortedCards| == playHandSize &&
         forall i | 0 <= i < |sortedCards| :: sortedCards[i].suit == sortedCards[0].suit
      then HandRank(true, SumRanks(sortedCards), |sortedCards|)
      else NoMatch
    }

    /** A straight: exactly playHandSize cards, each one rank below the card
        before it; an ace never counts low. */
    function IsStraight(sortedCards: seq<Card>, cardFrequencies: seq<nat>): (r: HandRank)
      reads this
      ensures r.matches <==> |sortedCards| == playHandSize && DescendingRun(sortedCards)
      ensures r.matches ==> r.rank == SumRanks(sortedCards) && r.value == |sortedCards|
      ensures !r.matches ==> r == NoMatch
    {
      StepsFormRun(sortedCards);
      if |sortedCards| == playHandSize &&
         forall i | 0 <= i < |sortedCards| :: i == 0 || sortedCards[i].rank == sortedCards[i - 1].rank - 1
      then HandRank(true, SumRanks(sortedCards), |sortedCards|)
      else NoMatch
    }

    /** The full house generalised to any play size (3+2, 3+3, 4+3, ...):
        the two largest groups must hold at least half the play size rounded
        up and rounded down, and differ by the parity of the play size. */
    function IsFullHouse(sortedCards: seq<Card>, cardFrequencies: seq<nat>): (r: Outcome<HandRank>)
      reads this
      ensures !FullHouseCounts(playHandSize, cardFrequencies) ==> r == Returns(NoMatch)
      ensures FullHouseCounts(playHandSize, cardFrequencies) ==>
        var value := cardFrequencies[0] + cardFrequencies[1];
        && (r.Throws? <==> |sortedCards| < value)
        && (r.Returns? ==> r.value == HandRank(true, SumRanks(sortedCards[..value]), value))
      ensures r.Returns? && r.value.matches ==>
        r.value.value >= playHandSize && r.value.value % 2 == playHandSize % 2
      ensures FitsHand(cardFrequencies, |sortedCards|) ==> r.Returns?
    {
      var f := cardFrequencies;
      var evenPlayHandSize := playHandSize % 2 == 0;
      var matches := 2 <= |f| &&
        f[0] >= (playHandSize + 1) / 2 &&
        f[1] >= playHandSize / 2 &&
        f[0] == (if evenPlayHandSize then f[1] else f[1] + 1);
      if !matches then Returns(NoMatch)
      else
        var value := f[0] + f[1];
        match TopRankSum(sortedCards, value)
        case Throws => Throws
        case Returns(rank) => Returns(HandRank(matches, rank, value))
    }

    /** n of a kind, read from the frequency at frequencyIndex: a match when
        that group holds more than one card; a missing entry never matches. */
    function GetNOfAKind(sortedCards: seq<Card>, cardFrequencies: seq<nat>, frequencyIndex: nat): (r: Outcome<HandRank>)
      ensures var f := cardFrequencies; var k := frequencyIndex;
        && (r.Throws? <==> k < |f| && 1 < f[k] && |sortedCards| < f[k])
        && (r.Returns? ==> (r.value.matches <==> k < |f| && 1 < f[k]))
        && (r.Returns? && r.value.matches ==>
              r.value.value == f[k] && r.value.rank == SumRanks(sortedCards[..f[k]]))
        && (r.Returns? && !r.value.matches ==> r.value == NoMatch)
    {
      var matches := frequencyIndex < |cardFrequencies| && cardFrequencies[frequencyIndex] > 1;
      if !matches then Returns(NoMatch)
      else
        var frequency := cardFrequencies[frequencyIndex];
        match TopRankSum(sortedCards, frequency)
        case Throws => Throws
        case Returns(rank) => Returns(HandRank(matches, rank, frequency))
    }

    /** One tuple or two pairs. The result matches whenever the first group
        is a tuple; its value is 2 for two pairs and 1 otherwise, and its rank
        sums the top four or top two cards, even when it does not match. */
    function IsNTuples(sortedCards: seq<Card>, cardFrequencies: seq<nat>): (r: Outcome<HandRank>)
      ensures |sortedCards| < 2 ==> r.Throws?
      ensures FitsHand(cardFrequencies, |sortedCards|) ==> (r.Throws? <==> |sortedCards| < 2)
      ensures r.Returns? ==> |sortedCards| >= if TwoPairs(cardFrequencies) then 4 else 2
      ensures r.Returns? ==> var f := cardFrequencies;
        && (r.value.matches <==> 0 < |f| && f[0] > 1)
        && (r.value.value == if TwoPairs(f) then 2 else 1)
        && r.value.rank == SumRanks(sortedCards[..if TwoPairs(f) then 4 else 2])
    {
      match GetNOfAKind(sortedCards, cardFrequencies, 0)
      case Throws => Throws
      case Returns(nOfAKindRank) =>
        if nOfAKindRank.matches && nOfAKindRank.value == 2 then
          match GetNOfAKind(sortedCards, cardFrequencies, 1)
          case Throws => Throws
          case Returns(secondRank) => TuplesRank(sortedCards, nOfAKindRank.matches, secondRank.value == 2)
        else
          TuplesRank(sortedCards, nOfAKindRank.matches, false)
    }

    /** The rank sum of the cards of a hand, which throws when the hand has
        fewer than n cards. */
    method CalculateRank(sortedCards: seq<Card>, n: nat) returns (rank: Outcome<int>)
      ensures rank == TopRankSum(sortedCards, n)
    {
      var sum := 0;
      var i := 0;
      while i < n
        invariant 0 <= i <= n && i <= |sortedCards|
        invariant sum == SumRanks(sortedCards[..i])
      {
        if i == |sortedCards| {
          return Throws;
        }
        assert sortedCards[..i + 1][..i] == sortedCards[..i];
        sum := sum + sortedCards[i].rank;
        i := i + 1;
      }
      rank := Returns(sum);
    }
  }

  /** The result of the tuple predicate once both group tests are known. */
  function TuplesRank(sortedCards: seq<Card>, isPair: bool, isTwoPairs: bool): Outcome<HandRank>
  {
    match TopRankSum(sortedCards, if isTwoPairs then 4 else 2)
    case Throws => Throws
    case Returns(rank) => Returns(HandRank(isTwoPairs || isPair, rank, if isTwoPairs then 2 else 1))
  }

  /** With at most p cards the full-house condition takes the whole hand:
      it holds exactly when the hand has p cards split into groups of p/2
      rounded up and rounded down. */
  lemma FullHouseFillsHand(p: nat, f: seq<nat>, n: nat)
    requires FitsHand(f, n) && n <= p
    ensures FullHouseCounts(p, f) <==> n == p && 2 <= |f| && f[0] == (p + 1) / 2 && f[1] == p / 2
  {
    assert p == 2 * (p / 2) + p % 2;
  }

  /** Rank steps of one between neighbours are the same as a run down from
      the first card. */
  lemma {:induction false} StepsFormRun(s: seq<Card>)
    ensures (forall i | 0 <= i < |s| :: i == 0 || s[i].rank == s[i - 1].rank - 1) <==> DescendingRun(s)
  {
    if |s| > 1 {
      var s' := s[..|s| - 1];
      StepsFormRun(s');
      if forall i | 0 <= i < |s| :: i == 0 || s[i].rank == s[i - 1].rank - 1 {
        assert forall i | 0 <= i < |s'| :: i == 0 || s'[i].rank == s'[i - 1].rank - 1;
        assert DescendingRun(s');
        assert s[|s| - 1].rank == s[|s| - 2].rank - 1 == s'[|s'| - 1].rank - 1;
      }
    }
  }

  /** The index of card (Ranks[ri], Suits[si]) in the default deck. */
  lemma StandardDeckAt(si: nat, ri: nat)
    requires si < |Suits| && ri < |Ranks|
    ensures 13 * si + ri < 52 && StandardDeck()[13 * si + ri] == Card(Ranks[ri], Suits[si])
  {
    var i := 13 * si + ri;
    assert i / 13 == si && i % 13 == ri;
  }

  /** The default deck holds every standard card exactly once: every pair of
      positions holds different cards, and a card is in it exactly when it is
      a standard card. */
  lemma StandardDeckExactlyOnce()
    ensures forall i, j | 0 <= i < j < 52 :: StandardDeck()[i] != StandardDeck()[j]
    ensures forall c :: c in StandardDeck() <==> IsStandardCard(c)
  {
    var d := StandardDeck();
    forall i, j | 0 <= i < j < 52 ensures d[i] != d[j] {
      assert i == 13 * (i / 13) + i % 13 && j == 13 * (j / 13) + j % 13;
      if i / 13 == j / 13 {
        assert d[i].rank != d[j].rank;
      } else {
        assert d[i].suit != d[j].suit;
      }
    }
    forall c | IsStandardCard(c) ensures c in d {
      var si :| 0 <= si < 4 && Suits[si] == c.suit;
      StandardDeckAt(si, c.rank - 2);
    }
  }
}
