/** Classification of a played hand into the label of its best pattern. */
module PokerHand {
  import opened Cards
  import opened Sorting
  import opened Rules
  import opened Frequencies

  /** The words for group sizes used in n-of-a-kind labels. */
  const NOfAKindWords: map<int, string> := map[
    2 := "Pair", 3 := "Three", 4 := "Four", 5 := "Five", 6 := "Six", 7 := "Seven",
    8 := "Eight", 9 := "Nine", 10 := "Ten", 11 := "Eleven", 12 := "Twelve"]

  /** The words for numbers of tuples. */
  const TupleWords: map<int, string> := map[
    2 := "Two", 3 := "Three", 4 := "Four", 5 := "Five", 6 := "Six", 7 := "Seven",
    8 := "Eight", 9 := "Nine"]

  /** A table entry interpolated into a template string: a missing entry is
      printed as "undefined". */
  function Lookup(words: map<int, string>, n: int): string
  {
    if n in words then words[n] else "undefined"
  }

  /** The word for a number of tuples. */
  function StringifyNumberOfTuples(n: int): string
  {
    Lookup(TupleWords, n)
  }

  /** The label of n cards of one rank: the table word for two, otherwise
      the table word followed by " of a Kind". */
  function StringifyNOfAKind(n: int): string
  {
    if n == 2 then Lookup(NOfAKindWords, n) else Lookup(NOfAKindWords, n) + " of a Kind"
  }

  /** The tuple word is "undefined" outside 2..9, and two tuples read "Two". */
  lemma TupleWordsDefined(n: int)
    ensures StringifyNumberOfTuples(n) == "undefined" <==> !(2 <= n <= 9)
    ensures StringifyNumberOfTuples(n) == "Two" <==> n == 2
    ensures StringifyNumberOfTuples(2) + " Pair" == "Two Pair"
  {
    if 2 <= n <= 9 {
      assert n == 2 || n == 3 || n == 4 || n == 5 || n == 6 || n == 7 || n == 8 || n == 9;
    }
  }

  /** "Pair" names two cards, "Three of a Kind" three and "Four of a Kind"
      four; the word is "undefined" outside 2..12, and no n-of-a-kind label
      is one of the fixed labels. */
  lemma NOfAKindLabels(n: int)
    ensures StringifyNOfAKind(n) == "Pair" <==> n == 2
    ensures StringifyNOfAKind(n) == "Three of a Kind" <==> n == 3
    ensures StringifyNOfAKind(n) == "Four of a Kind" <==> n == 4
    ensures StringifyNOfAKind(n) == "undefined of a Kind" <==> !(2 <= n <= 12)
    ensures StringifyNOfAKind(n) !in {"Straight Flush", "Full House", "Flush", "Straight", "Two Pair", "High Card"}
  {
    var w := Lookup(NOfAKindWords, n);
    var suffix := " of a Kind";
    if n != 2 {
      var t := StringifyNOfAKind(n);
      assert t == w + suffix;
      assert t[|t| - 1] == 'd';
      assert "Three of a Kind" == "Three" + suffix;
      assert "Four of a Kind" == "Four" + suffix;
      assert "undefined of a Kind" == "undefined" + suffix;
      SuffixCancel(w, "Three", suffix);
      SuffixCancel(w, "Four", suffix);
      SuffixCancel(w, "undefined", suffix);
      if 2 <= n <= 12 {
        assert n == 3 || n == 4 || n == 5 || n == 6 || n == 7 || n == 8 || n == 9 ||
          n == 10 || n == 11 || n == 12;
      }
    }
  }

  lemma SuffixCancel(a: string, b: string, suffix: string)
    ensures a + suffix == b + suffix <==> a == b
  {
    if a + suffix == b + suffix {
      assert |a| == |b|;
      assert a == (a + suffix)[..|a|];
      assert b == (b + suffix)[..|b|];
    }
  }

  /** The fixed priority chain over the five pattern results. */
  function Label(flush: HandRank, straight: HandRank, fullHouse: HandRank, nOfAKind: HandRank, pairs: HandRank): string
  {
    if flush.matches && straight.matches then "Straight Flush"
    else if nOfAKind.matches && nOfAKind.value == 4 then StringifyNOfAKind(nOfAKind.value)
    else if fullHouse.matches then "Full House"
    else if flush.matches then "Flush"
    else if straight.matches then "Straight"
    else if nOfAKind.matches && nOfAKind.value == 3 then StringifyNOfAKind(nOfAKind.value)
    else if pairs.matches then
      if pairs.value >= 2 then StringifyNumberOfTuples(pairs.value) + " Pair"
      else StringifyNOfAKind(nOfAKind.value)
    else "High Card"
  }

  /** Runs the five pattern predicates in order on a sorted hand and its
      frequency list and labels the hand; a predicate that throws makes the
      whole classification throw. */
  function Classify(rules: GameRules, sortedCards: seq<Card>, frequencies: seq<nat>): (r: Outcome<string>)
    reads rules
    ensures r.Throws? <==>
      rules.IsFullHouse(sortedCards, frequencies).Throws? ||
      rules.GetNOfAKind(sortedCards, frequencies, 0).Throws? ||
      rules.IsNTuples(sortedCards, frequencies).Throws?
    ensures FitsHand(frequencies, |sortedCards|) ==> (r.Throws? <==> |sortedCards| < 2)
  {
    var flush := rules.IsFlush(sortedCards, frequencies);
    var straight := rules.IsStraight(sortedCards, frequencies);
    match rules.IsFullHouse(sortedCards, frequencies)
    case Throws => Throws
    case Returns(fullHouse) =>
      match rules.GetNOfAKind(sortedCards, frequencies, 0)
      case Throws => Throws
      case Returns(nOfAKind) =>
        match rules.IsNTuples(sortedCards, frequencies)
        case Throws => Throws
        case Returns(pairs) => Returns(Label(flush, straight, fullHouse, nOfAKind, pairs))
  }

  /** Sorts the played cards in place by rank, largest first, builds their
      frequency list and classifies them. */
  method Evaluate(cards: array<Card>, gameRules: GameRules) returns (category: Outcome<string>)
    modifies cards
    ensures cards[..] == InsertionSorted(old(cards[..]), RankOf)
    ensures multiset(cards[..]) == multiset(old(cards[..])) && SortedDown(cards[..], RankOf)
    ensures category == Classify(gameRules, cards[..], FrequencyTable(cards[..]))
  {
    SortDescending(cards, RankOf);
    SortedIsPermutation(old(cards[..]), RankOf);
    SortedIsOrdered(old(cards[..]), RankOf);
    var sortedCards := cards[..];
    var frequencies := RankFrequencies(sortedCards);
    var isFlushRank := gameRules.IsFlush(sortedCards, frequencies);
    var isStraightRank := gameRules.IsStraight(sortedCards, frequencies);
    var isFullHouseRank := gameRules.IsFullHouse(sortedCards, frequencies);
    if isFullHouseRank.Throws? {
      return Throws;
    }
    var nOfAKindRank := gameRules.GetNOfAKind(sortedCards, frequencies, 0);
    if nOfAKindRank.Throws? {
      return Throws;
    }
    var pairsRank := gameRules.IsNTuples(sortedCards, frequencies);
    if pairsRank.Throws? {
      return Throws;
    }
    category := Returns(Label(isFlushRank, isStraightRank, isFullHouseRank.value, nOfAKindRank.value, pairsRank.value));
  }

  /** A flush of the configured play size. */
  predicate Flush(rules: GameRules, s: seq<Card>)
    reads rules
  {
    |s| == rules.playHandSize && SingleSuit(s)
  }

  /** A straight of the configured play size. */
  predicate Straight(rules: GameRules, s: seq<Card>)
    reads rules
  {
    |s| == rules.playHandSize && DescendingRun(s)
  }

  /** The facts about a hand of at least two cards and its frequency list
      that decide the label; the hand's own frequency list has them all. */
  predicate HandTable(s: seq<Card>, f: seq<nat>)
  {
    && |s| >= 2 && |f| >= 2 && FitsHand(f, |s|) && f[0] >= 1
    && (f[0] <= 1 <==> AllRanksDistinct(s))
    && (AllRanksDistinct(s) ==> f[1] == 1)
  }

  /** A hand of at least two cards and its own frequency list. */
  lemma HandTableHolds(s: seq<Card>)
    requires |s| >= 2
    ensures HandTable(s, FrequencyTable(s))
  {
    FrequencyTableLength(s);
    FrequencyTableFits(s);
    TopFrequencyDistinct(s);
    if AllRanksDistinct(s) {
      DistinctLeadingFrequencies(s);
    }
  }

  /** On such a list no predicate throws; the full house, n of a kind and
      tuple results depend only on the frequencies. */
  lemma TableComponents(rules: GameRules, s: seq<Card>, f: seq<nat>)
    requires HandTable(s, f)
    ensures rules.IsFullHouse(s, f).Returns?
    ensures rules.IsFullHouse(s, f).value.matches <==> FullHouseCounts(rules.playHandSize, f)
    ensures rules.GetNOfAKind(s, f, 0).Returns?
    ensures rules.GetNOfAKind(s, f, 0).value.matches <==> f[0] > 1
    ensures f[0] > 1 ==> rules.GetNOfAKind(s, f, 0).value.value == f[0]
    ensures rules.IsNTuples(s, f).Returns?
    ensures rules.IsNTuples(s, f).value.matches <==> f[0] > 1
    ensures rules.IsNTuples(s, f).value.value == if TwoPairs(f) then 2 else 1
    ensures Classify(rules, s, f) == Returns(Label(rules.IsFlush(s, f), rules.IsStraight(s, f),
      rules.IsFullHouse(s, f).value, rules.GetNOfAKind(s, f, 0).value, rules.IsNTuples(s, f).value))
  {
  }

  /** A run down by one never repeats a rank. */
  lemma RunHasDistinctRanks(s: seq<Card>)
    requires DescendingRun(s)
    ensures AllRanksDistinct(s)
  {
  }

  /** The classification of a hand with its own frequency list throws
      exactly when the hand has fewer than two cards. */
  lemma ThrowsIffShort(rules: GameRules, s: seq<Card>)
    ensures Classify(rules, s, FrequencyTable(s)).Throws? <==> |s| < 2
  {
    if |s| >= 2 {
      HandTableHolds(s);
      TableComponents(rules, s, FrequencyTable(s));
    } else {
      FrequencyTableFits(s);
    }
  }

  /** A flush that is also a straight is a straight flush, and only then. */
  lemma StraightFlushWins(rules: GameRules, s: seq<Card>, f: seq<nat>)
    requires HandTable(s, f)
    ensures Classify(rules, s, f) == Returns("Straight Flush") <==> Flush(rules, s) && Straight(rules, s)
  {
    TableComponents(rules, s, f);
    NOfAKindLabels(f[0]);
  }

  /** A first frequency of four is labelled four of a kind, ahead of full
      house, flush and straight: a straight flush never repeats a rank. */
  lemma FourOfAKindFirst(rules: GameRules, s: seq<Card>, f: seq<nat>)
    requires HandTable(s, f)
    ensures Classify(rules, s, f) == Returns("Four of a Kind") <==> f[0] == 4
  {
    TableComponents(rules, s, f);
    NOfAKindLabels(f[0]);
    if DescendingRun(s) {
      RunHasDistinctRanks(s);
    }
  }

  /** The full-house label: the full-house condition, and neither four of a
      kind nor a straight flush. */
  lemma FullHouseLabel(rules: GameRules, s: seq<Card>, f: seq<nat>)
    requires HandTable(s, f)
    ensures Classify(rules, s, f) == Returns("Full House") <==>
      FullHouseCounts(rules.playHandSize, f) && f[0] != 4 && !(Flush(rules, s) && Straight(rules, s))
  {
    TableComponents(rules, s, f);
    NOfAKindLabels(f[0]);
  }

  /** The flush label: a flush that is neither a straight, nor four of a
      kind, nor a full house. */
  lemma FlushLabel(rules: GameRules, s: seq<Card>, f: seq<nat>)
    requires HandTable(s, f)
    ensures Classify(rules, s, f) == Returns("Flush") <==>
      Flush(rules, s) && !Straight(rules, s) && f[0] != 4 && !FullHouseCounts(rules.playHandSize, f)
  {
    TableComponents(rules, s, f);
    NOfAKindLabels(f[0]);
  }

  /** The straight label: a straight that is neither a flush nor a full
      house; a straight is never four of a kind. */
  lemma StraightLabel(rules: GameRules, s: seq<Card>, f: seq<nat>)
    requires HandTable(s, f)
    ensures Classify(rules, s, f) == Returns("Straight") <==>
      Straight(rules, s) && !Flush(rules, s) && !FullHouseCounts(rules.playHandSize, f)
  {
    TableComponents(rules, s, f);
    NOfAKindLabels(f[0]);
    TupleWordsDefined(2);
    if DescendingRun(s) {
      RunHasDistinctRanks(s);
    }
  }

  /** The three-of-a-kind label: a first frequency of three and no full
      house, flush or straight. */
  lemma ThreeOfAKindLabel(rules: GameRules, s: seq<Card>, f: seq<nat>)
    requires HandTable(s, f)
    ensures Classify(rules, s, f) == Returns("Three of a Kind") <==>
      f[0] == 3 && !FullHouseCounts(rules.playHandSize, f) && !Flush(rules, s) && !Straight(rules, s)
  {
    TableComponents(rules, s, f);
    NOfAKindLabels(f[0]);
    if DescendingRun(s) {
      RunHasDistinctRanks(s);
    }
  }

  /** The two-pair label: the two leading groups are pairs and no earlier
      pattern applied. */
  lemma TwoPairLabel(rules: GameRules, s: seq<Card>, f: seq<nat>)
    requires HandTable(s, f)
    ensures Classify(rules, s, f) == Returns("Two Pair") <==>
      TwoPairs(f) && !FullHouseCounts(rules.playHandSize, f) && !Flush(rules, s) && !Straight(rules, s)
  {
    TableComponents(rules, s, f);
    NOfAKindLabels(f[0]);
    TupleWordsDefined(2);
  }

  /** A single tuple is labelled by its size: "Pair" for two, and the
      n-of-a-kind label for five or more, three and four being taken by the
      earlier labels. */
  lemma SingleTupleLabel(rules: GameRules, s: seq<Card>, f: seq<nat>)
    requires HandTable(s, f)
    ensures (f[0] > 1 && f[0] != 3 && f[0] != 4 && !TwoPairs(f) &&
             !FullHouseCounts(rules.playHandSize, f) && !Flush(rules, s) && !Straight(rules, s)) ==>
      Classify(rules, s, f) == Returns(StringifyNOfAKind(f[0]))
    ensures Classify(rules, s, f) == Returns("Pair") <==>
      f[0] == 2 && !TwoPairs(f) && !FullHouseCounts(rules.playHandSize, f) && !Flush(rules, s) && !Straight(rules, s)
  {
    TableComponents(rules, s, f);
    NOfAKindLabels(f[0]);
  }

  /** High card: no two cards share a rank, no flush, no straight, and a
      play size other than 0 and 2, the two sizes for which every hand of
      distinct ranks meets the full-house condition. */
  lemma HighCardLabel(rules: GameRules, s: seq<Card>, f: seq<nat>)
    requires HandTable(s, f)
    ensures Classify(rules, s, f) == Returns("High Card") <==>
      AllRanksDistinct(s) && !Flush(rules, s) && !Straight(rules, s) &&
      rules.playHandSize != 0 && rules.playHandSize != 2
  {
    TableComponents(rules, s, f);
    NOfAKindLabels(f[0]);
  }
}
