/** The draw pile: a copy of the configured deck that is shuffled in place
    and dealt from the front. */
module Decks {
  import opened Cards
  import opened Rules

  /** s with the entries at positions i and j exchanged. */
  function Swap(s: seq<Card>, i: nat, j: nat): seq<Card>
    requires i < |s| && j < |s|
  {
    s[i := s[j]][j := s[i]]
  }

  /** Random positions for shuffling n cards: one per step, and step k,
      which handles position n - 1 - k, draws a position no larger. */
  predicate ValidDraws(draws: seq<nat>, n: nat)
  {
    |draws| == (if n == 0 then 0 else n - 1) && forall k | 0 <= k < |draws| :: draws[k] <= n - 1 - k
  }

  /** The Fisher-Yates steps k, k + 1, ... applied to s: step k exchanges
      position |s| - 1 - k with position draws[k]. */
  function ShuffledFrom(s: seq<Card>, draws: seq<nat>, k: nat): seq<Card>
    requires ValidDraws(draws, |s|) && k <= |draws|
    decreases |draws| - k
  {
    if k == |draws| then s
    else ShuffledFrom(Swap(s, |s| - 1 - k, draws[k]), draws, k + 1)
  }

  /** The order a shuffle with the given draws leaves the cards in. */
  function Shuffled(s: seq<Card>, draws: seq<nat>): seq<Card>
    requires ValidDraws(draws, |s|)
  {
    ShuffledFrom(s, draws, 0)
  }

  /** The number of cards a deal of n takes from a pile of the given size:
      none for a negative count, at most the whole pile. */
  function DealCount(n: int, size: nat): (k: nat)
    ensures k <= size
    ensures 0 <= n <= size ==> k == n
    ensures n < 0 ==> k == 0
    ensures n > size ==> k == size
  {
    if n < 0 then 0 else if n > size then size else n
  }

  class Deck {
    const gameRules: GameRules
    var cards: array<Card>

    /** A deck over the given rules, holding a fresh copy of their cards. */
    constructor(gameRules: GameRules)
      ensures this.gameRules == gameRules
      ensures cards[..] == gameRules.deckCards && fresh(cards)
      ensures Remaining() == gameRules.DeckSize()
    {
      this.gameRules := gameRules;
      cards := new Card[0];
      new;
      Reset();
    }

    /** Replaces the pile by a fresh copy of the configured deck, in order. */
    method Reset()
      modifies this
      ensures cards[..] == gameRules.deckCards && fresh(cards)
      ensures Remaining() == gameRules.DeckSize()
    {
      var deck := gameRules.DeckCards();
      cards := new Card[|deck|](i requires 0 <= i < |deck| => deck[i]);
    }

    /** Fisher-Yates in place: for i from the last position down to 1,
        exchange positions i and j, where j is the next draw and 0 <= j <= i. */
    method Shuffle(draws: seq<nat>)
      requires ValidDraws(draws, cards.Length)
      modifies cards
      ensures cards[..] == Shuffled(old(cards[..]), draws)
    {
      var i := cards.Length - 1;
      while i > 0
        invariant -1 <= i < cards.Length
        invariant cards.Length - 1 - i <= |draws|
        invariant i <= 0 ==> cards.Length - 1 - i == |draws|
        invariant ShuffledFrom(cards[..], draws, cards.Length - 1 - i) == Shuffled(old(cards[..]), draws)
      {
        var j := draws[cards.Length - 1 - i];
        ghost var before := cards[..];
        cards[i], cards[j] := cards[j], cards[i];
        assert cards[..] == Swap(before, i, j);
        i := i - 1;
      }
    }

    /** Takes the first n cards off the pile, in order; the rest stays in
        order. */
    method Deal(n: int) returns (dealt: seq<Card>)
      modifies this
      ensures var k := DealCount(n, old(cards.Length));
        dealt == old(cards[..])[..k] && cards[..] == old(cards[..])[k..]
      ensures dealt + cards[..] == old(cards[..])
      ensures Remaining() == old(Remaining()) - |dealt|
      ensures fresh(cards)
    {
      var k := DealCount(n, cards.Length);
      dealt := cards[..k];
      var rest := cards[k..];
      cards := new Card[|rest|](i requires 0 <= i < |rest| => rest[i]);
    }

    /** The number of cards left in the pile. */
    function Remaining(): nat
      reads this
    {
      cards.Length
    }
  }

  /** A shuffle only moves cards: it keeps every card with its multiplicity. */
  lemma {:induction false} ShufflePermutes(s: seq<Card>, draws: seq<nat>, k: nat)
    requires ValidDraws(draws, |s|) && k <= |draws|
    ensures |ShuffledFrom(s, draws, k)| == |s|
    ensures multiset(ShuffledFrom(s, draws, k)) == multiset(s)
    decreases |draws| - k
  {
    if k < |draws| {
      var i, j := |s| - 1 - k, draws[k];
      var t := Swap(s, i, j);
      SwapPermutes(s, i, j);
      ShufflePermutes(t, draws, k + 1);
    }
  }

  lemma SwapPermutes(s: seq<Card>, i: nat, j: nat)
    requires i < |s| && j < |s|
    ensures |Swap(s, i, j)| == |s| && multiset(Swap(s, i, j)) == multiset(s)
  {
    var t := s[i := s[j]];
    assert multiset(t) == multiset(s) - multiset{s[i]} + multiset{s[j]};
    assert multiset(t[j := s[i]]) == multiset(t) - multiset{t[j]} + multiset{s[i]};
  }

  /** With every draw 0, each step exchanges position i with the front; the
      three-card fixture [a, b, c] comes out as [b, c, a], which is its
      original order only when all three cards are equal. */
  lemma ZeroDrawsFixture(a: Card, b: Card, c: Card)
    ensures Shuffled([a, b, c], [0, 0]) == [b, c, a]
    ensures [b, c, a] == [a, b, c] <==> a == b && b == c
  {
    assert ValidDraws([0, 0], 3);
    var step1 := Swap([a, b, c], 2, 0);
    assert step1 == [c, b, a];
    assert Swap(step1, 1, 0) == [b, c, a];
  }

  /** The draws of a shuffle in which every random number is 0. */
  function ZeroDraws(n: nat): seq<nat>
  {
    seq(if n == 0 then 0 else n - 1, _ => 0)
  }

  /** The order after the all-zero steps down to position m: s[m] at the
      front, then s[1..m], then the tail past m, then s[0]. */
  function ZeroDrawsState(s: seq<Card>, m: nat): seq<Card>
    requires 1 <= m < |s|
  {
    [s[m]] + s[1..m] + s[m + 1..] + [s[0]]
  }

  lemma {:induction false} ZeroDrawsFrom(s: seq<Card>, m: nat)
    requires 1 <= m < |s|
    ensures ValidDraws(ZeroDraws(|s|), |s|)
    ensures ShuffledFrom(ZeroDrawsState(s, m), ZeroDraws(|s|), |s| - m) == s[1..] + [s[0]]
    decreases m
  {
    var draws := ZeroDraws(|s|);
    var t := ZeroDrawsState(s, m);
    if m == 1 {
      assert t == s[1..] + [s[0]];
    } else {
      assert draws[|s| - m] == 0;
      assert t[m - 1] == s[m - 1];
      assert Swap(t, m - 1, 0) == ZeroDrawsState(s, m - 1);
      ZeroDrawsFrom(s, m - 1);
    }
  }

  /** With every random number 0 the shuffle moves the first card to the
      back and every other card one place forward. */
  lemma ZeroDrawsRotate(s: seq<Card>)
    requires |s| >= 2
    ensures ValidDraws(ZeroDraws(|s|), |s|)
    ensures Shuffled(s, ZeroDraws(|s|)) == s[1..] + [s[0]]
  {
    var n := |s|;
    assert Swap(s, n - 1, 0) == ZeroDrawsState(s, n - 1);
    ZeroDrawsFrom(s, n - 1);
  }
}
