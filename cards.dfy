/** The value types of the engine: a playing card, the result of a pattern
    predicate, and the outcome of a computation that may throw. */
module Cards {

  /** A card is a plain (rank, suit) record; nothing restricts either field,
      and two equal cards are simply equal values. */
  datatype Card = Card(rank: int, suit: string)

  /** The result of a pattern predicate: whether it matched, a numeric
      strength and an auxiliary count whose meaning depends on the predicate. */
  datatype HandRank = HandRank(matches: bool, rank: int, value: int)

  /** The fixed result of a predicate that did not match. */
  const NoMatch := HandRank(false, 0, 0)

  /** A computation that either returns a value or throws, which is what the
      rank sum does when it reads a card past the end of the hand. */
  datatype Outcome<+T> = Returns(value: T) | Throws

  function RankOf(c: Card): int { c.rank }

  /** Sum of the ranks of all cards of s. */
  function SumRanks(s: seq<Card>): int
  {
    if s == [] then 0 else SumRanks(s[..|s| - 1]) + s[|s| - 1].rank
  }

  /** The rank sum of the first n cards, which throws when the hand holds
      fewer than n cards. */
  function TopRankSum(s: seq<Card>, n: nat): (r: Outcome<int>)
    ensures r.Returns? <==> n <= |s|
  {
    if n <= |s| then Returns(SumRanks(s[..n])) else Throws
  }

  /** Taking one more card, while the hand lasts, adds that card's rank to
      the sum. */
  lemma TopRankSumStep(s: seq<Card>, n: nat)
    requires n < |s|
    ensures TopRankSum(s, n + 1) == Returns(TopRankSum(s, n).value + s[n].rank)
  {
    assert s[..n + 1][..n] == s[..n];
  }

  lemma {:induction false} SumRanksAppend(a: seq<Card>, b: seq<Card>)
    ensures SumRanks(a + b) == SumRanks(a) + SumRanks(b)
    decreases |b|
  {
    if b == [] {
      assert a + b == a;
    } else {
      var b' := b[..|b| - 1];
      assert (a + b)[..|a + b| - 1] == a + b';
      SumRanksAppend(a, b');
    }
  }
}
