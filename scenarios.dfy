/** The repository's own test cases, stated against the model. */
module Scenarios {
  import opened Cards
  import opened Sorting
  import opened Rules
  import opened Frequencies
  import opened PokerHand
  import opened Decks

  /** A run of count cards of suit-A, from rank top downwards. */
  function Run(top: int, count: nat): (s: seq<Card>)
    ensures |s| == count
  {
    seq(count, i => Card(top - i, "suit-A"))
  }

  /** The rank sum of each prefix is the previous prefix's plus one rank. */
  lemma PrefixSums(s: seq<Card>)
    ensures forall k | 0 < k <= |s| :: SumRanks(s[..k]) == SumRanks(s[..k - 1]) + s[k - 1].rank
  {
    forall k | 0 < k <= |s| ensures SumRanks(s[..k]) == SumRanks(s[..k - 1]) + s[k - 1].rank {
      assert s[..k][..k - 1] == s[..k - 1];
    }
  }

  /** The rank sum of a run of count cards from rank top. */
  lemma {:induction false} RunSum(top: int, count: nat)
    ensures 2 * SumRanks(Run(top, count)) == count * (2 * top - count + 1)
  {
    if count > 0 {
      assert Run(top, count)[..count - 1] == Run(top, count - 1);
      RunSum(top, count - 1);
    }
  }

  /** Any run of one suit as long as the play size, of at least two cards,
      is labelled a straight flush, and it is already in rank order. */
  lemma RunIsStraightFlush(rules: GameRules, top: int, count: nat)
    requires rules.playHandSize == count && count >= 2
    ensures SortedDown(Run(top, count), RankOf)
    ensures Classify(rules, Run(top, count), FrequencyTable(Run(top, count))) == Returns("Straight Flush")
  {
    var s := Run(top, count);
    HandTableHolds(s);
    StraightFlushWins(rules, s, FrequencyTable(s));
  }

  /** The three-card deck used by the deck tests. */
  function Fixture(): seq<Card>
  {
    [Card(1, "suit-A"), Card(1, "suit-B"), Card(2, "suit-A")]
  }

  /** Flush cases of the rule tests: four cards, a second suit, and flushes
      of five and of seven cards. */
  lemma FlushCases(rules: GameRules)
    requires rules.playHandSize == 5
    ensures rules.IsFlush(Run(4, 4), []) == NoMatch
    ensures rules.IsFlush([Card(5, "suit-B")] + Run(4, 4), []) == NoMatch
    ensures rules.IsFlush(Run(5, 5), []) == HandRank(true, 5 + 4 + 3 + 2 + 1, 5)
  {
    var b := [Card(5, "suit-B")] + Run(4, 4);
    assert b[0].suit != b[1].suit;
    RunSum(5, 5);
  }

  lemma SevenCardFlush(rules: GameRules)
    requires rules.playHandSize == 7
    ensures var hand := [Card(9, "suit-A"), Card(8, "suit-A")] + Run(5, 5);
      rules.IsFlush(hand, []) == HandRank(true, 9 + 8 + 5 + 4 + 3 + 2 + 1, 7)
  {
    var hand := [Card(9, "suit-A"), Card(8, "suit-A")] + Run(5, 5);
    PrefixSums(hand);
    assert hand[..0] == [] && hand[..7] == hand;
    assert SumRanks(hand[..1]) == 9;
    assert SumRanks(hand[..2]) == 17;
    assert SumRanks(hand[..3]) == 22;
    assert SumRanks(hand[..4]) == 26;
    assert SumRanks(hand[..5]) == 29;
    assert SumRanks(hand[..6]) == 31;
  }

  /** Straight cases of the rule tests: four cards, a gap, and straights of
      five and of seven cards. */
  lemma StraightCases(rules: GameRules)
    requires rules.playHandSize == 5
    ensures rules.IsStraight(Run(4, 4), []) == NoMatch
    ensures rules.IsStraight([Card(6, "suit-A")] + Run(4, 4), []) == NoMatch
    ensures rules.IsStraight(Run(5, 5), []) == HandRank(true, 5 + 4 + 3 + 2 + 1, 5)
  {
    var g := [Card(6, "suit-A")] + Run(4, 4);
    assert g[1].rank != g[0].rank - 1;
    RunSum(5, 5);
  }

  lemma SevenCardStraight(rules: GameRules)
    requires rules.playHandSize == 7
    ensures rules.IsStraight(Run(7, 7), []) == HandRank(true, 7 + 6 + 5 + 4 + 3 + 2 + 1, 7)
  {
    RunSum(7, 7);
  }

  /** Full-house cases of the rule tests for the default play size: two
      pairs, a pair and a triple in the wrong order, three and two singles,
      and three and two. */
  lemma FullHouseCases(rules: GameRules)
    requires rules.playHandSize == 5
    ensures rules.IsFullHouse([Card(3, "suit-A"), Card(3, "suit-B"), Card(2, "suit-A"), Card(2, "suit-B")], [2, 2]) == Returns(NoMatch)
    ensures rules.IsFullHouse([Card(3, "suit-A"), Card(3, "suit-B"), Card(2, "suit-A"), Card(2, "suit-B"), Card(1, "suit-A")], [2, 2, 1]) == Returns(NoMatch)
    ensures rules.IsFullHouse([Card(3, "suit-A"), Card(3, "suit-B"), Card(2, "suit-A"), Card(2, "suit-B"), Card(2, "suit-C")], [2, 3]) == Returns(NoMatch)
    ensures rules.IsFullHouse([Card(3, "suit-A"), Card(3, "suit-B"), Card(3, "suit-C"), Card(2, "suit-A"), Card(1, "suit-A")], [3, 1, 1]) == Returns(NoMatch)
    ensures var hand := [Card(3, "suit-A"), Card(3, "suit-B"), Card(3, "suit-C"), Card(2, "suit-A"), Card(2, "suit-B")];
      rules.IsFullHouse(hand, [3, 2]) == Returns(HandRank(true, 3 + 3 + 3 + 2 + 2, 5))
  {
    var hand := [Card(3, "suit-A"), Card(3, "suit-B"), Card(3, "suit-C"), Card(2, "suit-A"), Card(2, "suit-B")];
    PrefixSums(hand);
    assert hand[..0] == [] && hand[..5] == hand;
    assert SumRanks(hand[..1]) == 3;
    assert SumRanks(hand[..2]) == 6;
    assert SumRanks(hand[..3]) == 9;
    assert SumRanks(hand[..4]) == 11;
  }

  /** Full houses of six cards (3 and 3) and of seven cards (4 and 3). */
  lemma LargerFullHouses(rules: GameRules)
    ensures rules.playHandSize == 6 ==>
      var hand := [Card(3, "suit-A"), Card(3, "suit-B"), Card(3, "suit-C"), Card(2, "suit-A"), Card(2, "suit-B"), Card(2, "suit-C")];
      rules.IsFullHouse(hand, [3, 3]) == Returns(HandRank(true, 3 + 3 + 3 + 2 + 2 + 2, 6))
    ensures rules.playHandSize == 7 ==>
      var hand := [Card(3, "suit-A"), Card(3, "suit-B"), Card(3, "suit-C"), Card(3, "suit-D"), Card(2, "suit-A"), Card(2, "suit-B"), Card(2, "suit-C")];
      rules.IsFullHouse(hand, [4, 3]) == Returns(HandRank(true, 3 + 3 + 3 + 3 + 2 + 2 + 2, 7))
  {
    var six := [Card(3, "suit-A"), Card(3, "suit-B"), Card(3, "suit-C"), Card(2, "suit-A"), Card(2, "suit-B"), Card(2, "suit-C")];
    var seven := [Card(3, "suit-A"), Card(3, "suit-B"), Card(3, "suit-C"), Card(3, "suit-D"), Card(2, "suit-A"), Card(2, "suit-B"), Card(2, "suit-C")];
    PrefixSums(six);
    PrefixSums(seven);
    assert six[..0] == [] && six[..6] == six;
    assert SumRanks(six[..1]) == 3;
    assert SumRanks(six[..2]) == 6;
    assert SumRanks(six[..3]) == 9;
    assert SumRanks(six[..4]) == 11;
    assert SumRanks(six[..5]) == 13;
    assert seven[..0] == [] && seven[..7] == seven;
    assert SumRanks(seven[..1]) == 3;
    assert SumRanks(seven[..2]) == 6;
    assert SumRanks(seven[..3]) == 9;
    assert SumRanks(seven[..4]) == 12;
    assert SumRanks(seven[..5]) == 14;
    assert SumRanks(seven[..6]) == 16;
  }

  /** A hand of one card or none makes the classification throw, whatever
      the rules. */
  lemma ShortHandsThrow(rules: GameRules, c: Card)
    ensures Classify(rules, [c], FrequencyTable([c])).Throws?
    ensures Classify(rules, [], FrequencyTable([])).Throws?
  {
    ThrowsIffShort(rules, [c]);
    ThrowsIffShort(rules, []);
  }

  /** With a play size of two, two cards of different ranks and suits are
      labelled "Full House": their frequencies 1 and 1 meet the generalised
      condition. */
  lemma TwoCardFullHouse(rules: GameRules)
    requires rules.playHandSize == 2
    ensures Classify(rules, [Card(9, "hearts"), Card(4, "clubs")], FrequencyTable([Card(9, "hearts"), Card(4, "clubs")])) == Returns("Full House")
  {
    var s := [Card(9, "hearts"), Card(4, "clubs")];
    HandTableHolds(s);
    var f := FrequencyTable(s);
    DistinctLeadingFrequencies(s);
    assert s[0].suit != s[1].suit;
    FullHouseLabel(rules, s, f);
  }

  /** At small play sizes the generalised condition also accepts hands that
      are not full houses: two pairs at play size 2, a pair and a single at
      play size 1. */
  lemma SmallPlaySizeFullHouses(rules: GameRules)
    ensures rules.playHandSize == 2 ==>
      var hand := [Card(3, "suit-A"), Card(3, "suit-B"), Card(2, "suit-A"), Card(2, "suit-B"), Card(1, "suit-A")];
      rules.IsFullHouse(hand, [2, 2, 1]) == Returns(HandRank(true, 3 + 3 + 2 + 2, 4))
    ensures rules.playHandSize == 1 ==>
      var hand := [Card(3, "suit-A"), Card(3, "suit-B"), Card(2, "suit-A")];
      rules.IsFullHouse(hand, [2, 1]) == Returns(HandRank(true, 3 + 3 + 2, 3))
  {
    var five := [Card(3, "suit-A"), Card(3, "suit-B"), Card(2, "suit-A"), Card(2, "suit-B"), Card(1, "suit-A")];
    var three := [Card(3, "suit-A"), Card(3, "suit-B"), Card(2, "suit-A")];
    PrefixSums(five);
    PrefixSums(three);
    assert five[..0] == [] && three[..0] == [] && three[..3] == three;
    assert SumRanks(five[..1]) == 3;
    assert SumRanks(five[..2]) == 6;
    assert SumRanks(five[..3]) == 8;
    assert SumRanks(three[..1]) == 3;
    assert SumRanks(three[..2]) == 6;
  }

  /** Sorting and labelling the five-card run of one suit, already in rank
      order, gives a straight flush and leaves the cards in place. */
  method EvaluateStraightFlush() returns (category: Outcome<string>, sorted: seq<Card>)
    ensures category == Returns("Straight Flush") && sorted == Run(5, 5)
  {
    var rules := new GameRules();
    var hand := Run(5, 5);
    var cards := new Card[5](i requires 0 <= i < 5 => hand[i]);
    assert cards[..] == hand;
    RunIsStraightFlush(rules, 5, 5);
    SortedIsFixed(hand, RankOf);
    category := Evaluate(cards, rules);
    sorted := cards[..];
  }

  /** A new deck over the fixture holds its three cards in order; dealing
      two leaves the third; a reset restores the full fixture. */
  method DealAndReset() returns (initial: seq<Card>, dealt: seq<Card>, left: nat, last: Card, restored: seq<Card>)
    ensures initial == Fixture()
    ensures dealt == Fixture()[..2] && left == 1 && last == Fixture()[2]
    ensures restored == Fixture()
  {
    var rules := new GameRules();
    rules.deckCards := Fixture();
    var deck := new Deck(rules);
    initial := deck.cards[..];
    dealt := deck.Deal(2);
    left := deck.Remaining();
    last := deck.cards[0];
    deck.Reset();
    restored := deck.cards[..];
  }

  /** Shuffling the fixture with every random number 0 changes its order,
      and two decks shuffled with the same draws end in the same order. */
  method ShuffleFixture() returns (first: seq<Card>, second: seq<Card>)
    ensures first != Fixture() && first == second
  {
    var rules := new GameRules();
    rules.deckCards := Fixture();
    var deck1 := new Deck(rules);
    var deck2 := new Deck(rules);
    deck1.Shuffle([0, 0]);
    deck2.Shuffle([0, 0]);
    first, second := deck1.cards[..], deck2.cards[..];
    ZeroDrawsFixture(Card(1, "suit-A"), Card(1, "suit-B"), Card(2, "suit-A"));
  }

  /** Appending cards to the configured deck, duplicates included, grows
      the deck size by one per card. */
  method GrowDeck() returns (sizes: seq<nat>)
    ensures sizes == [52, 53, 54, 55]
  {
    var rules := new GameRules();
    sizes := [rules.DeckSize()];
    var card := Card(1, "suit-A");
    for n := 0 to 3
      invariant rules.DeckSize() == 52 + n && sizes == seq(n + 1, i => 52 + i)
    {
      rules.AppendCards([card]);
      sizes := sizes + [rules.DeckSize()];
    }
  }
}
