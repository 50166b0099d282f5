/** The rank-frequency list of a played hand: how many cards share each
    distinct rank, largest count first, padded with one 0 when the hand has
    fewer than two distinct ranks. */
module Frequencies {
  import opened Cards
  import opened Sorting
  import Rules

  /** The number of cards of s that have rank r. */
  function Count(s: seq<Card>, r: int): nat
  {
    if s == [] then 0 else Count(s[..|s| - 1], r) + (if s[|s| - 1].rank == r then 1 else 0)
  }

  /** The ranks present in s. */
  function RankSet(s: seq<Card>): set<int>
  {
    if s == [] then {} else RankSet(s[..|s| - 1]) + {s[|s| - 1].rank}
  }

  /** The ranks present in s, each once, in order of first appearance. */
  function DistinctRanks(s: seq<Card>): seq<int>
  {
    if s == [] then []
    else
      var d := DistinctRanks(s[..|s| - 1]);
      if s[|s| - 1].rank in d then d else d + [s[|s| - 1].rank]
  }

  predicate Distinct(ks: seq<int>)
  {
    forall i, j | 0 <= i < j < |ks| :: ks[i] != ks[j]
  }

  predicate AllRanksDistinct(s: seq<Card>)
  {
    forall i, j | 0 <= i < j < |s| :: s[i].rank != s[j].rank
  }

  /** The counts of the ranks ks, in the order of ks. */
  function CountsAt(s: seq<Card>, ks: seq<int>): (f: seq<nat>)
    ensures |f| == |ks|
  {
    if ks == [] then [] else CountsAt(s, ks[..|ks| - 1]) + [Count(s, ks[|ks| - 1])]
  }

  function Sum(f: seq<nat>): nat
  {
    if f == [] then 0 else Sum(f[..|f| - 1]) + f[|f| - 1]
  }

  /** One 0 appended to a list of fewer than two counts. */
  function PadToTwo(f: seq<nat>): seq<nat>
  {
    if |f| < 2 then f + [0] else f
  }

  /** The counts of the distinct ranks of a hand, sorted largest first. */
  function SortedCounts(s: seq<Card>): seq<nat>
  {
    InsertionSorted(CountsAt(s, DistinctRanks(s)), Identity)
  }

  /** The frequency list of a hand: the sorted counts, then padded. */
  function FrequencyTable(s: seq<Card>): seq<nat>
  {
    PadToTwo(SortedCounts(s))
  }

  /** Counts the cards per rank into a dictionary, lists its values, sorts
      them largest first and pads the list with a 0 when it is shorter than
      two. */
  method RankFrequencies(cards: seq<Card>) returns (frequencies: seq<nat>)
    ensures frequencies == FrequencyTable(cards)
  {
    var rankCounts := CountRanks(cards);
    var values := ListCounts(cards, rankCounts);
    var sorted := new nat[|values|](i requires 0 <= i < |values| => values[i]);
    assert sorted[..] == values;
    SortDescending(sorted, Identity);
    ghost var counts := CountsAt(cards, DistinctRanks(cards));
    SortedUnique(InsertionSorted(values, Identity), InsertionSorted(counts, Identity)) by {
      SortedIsOrdered(values, Identity);
      SortedIsOrdered(counts, Identity);
      SortedIsPermutation(values, Identity);
      SortedIsPermutation(counts, Identity);
    }
    frequencies := sorted[..];
    if |frequencies| < 2 {
      frequencies := frequencies + [0];
    }
  }

  /** The dictionary from each rank present in the hand to its count. */
  method CountRanks(cards: seq<Card>) returns (rankCounts: map<int, nat>)
    ensures rankCounts.Keys == RankSet(cards)
    ensures forall r | r in rankCounts :: rankCounts[r] == Count(cards, r)
  {
    rankCounts := map[];
    for i := 0 to |cards|
      invariant rankCounts.Keys == RankSet(cards[..i])
      invariant forall r | r in rankCounts :: rankCounts[r] == Count(cards[..i], r)
    {
      assert cards[..i + 1][..i] == cards[..i];
      var rank := cards[i].rank;
      RankSetMembers(cards[..i], rank);
      rankCounts := rankCounts[rank := (if rank in rankCounts then rankCounts[rank] else 0) + 1];
    }
    assert cards[..|cards|] == cards;
  }

  /** The values of the rank dictionary, taken out one key at a time. The
      order in which the keys are taken is left open: whatever it is, the
      values are the counts of the distinct ranks of the hand. */
  method ListCounts(cards: seq<Card>, rankCounts: map<int, nat>) returns (values: seq<nat>)
    requires rankCounts.Keys == RankSet(cards)
    requires forall r | r in rankCounts :: rankCounts[r] == Count(cards, r)
    ensures multiset(values) == multiset(CountsAt(cards, DistinctRanks(cards)))
  {
    values := [];
    ghost var keys: seq<int> := [];
    var rest := rankCounts.Keys;
    while rest != {}
      invariant rest <= rankCounts.Keys
      invariant Distinct(keys)
      invariant forall k :: k in keys <==> k in rankCounts.Keys && k !in rest
      invariant values == CountsAt(cards, keys)
      decreases |rest|
    {
      HasMember(rest);
      var k :| k in rest;
      assert (keys + [k])[..|keys|] == keys;
      values := values + [rankCounts[k]];
      keys := keys + [k];
      rest := rest - {k};
    }
    DistinctRanksEnumerates(cards);
    EnumerationsAgree(cards, keys, DistinctRanks(cards));
  }

  lemma {:induction false} RankSetMembers(s: seq<Card>, r: int)
    ensures r in RankSet(s) <==> exists i | 0 <= i < |s| :: s[i].rank == r
    ensures r in RankSet(s) <==> Count(s, r) > 0
  {
    if s != [] {
      var s' := s[..|s| - 1];
      RankSetMembers(s', r);
      if exists i | 0 <= i < |s| :: s[i].rank == r {
        var i :| 0 <= i < |s| && s[i].rank == r;
        if i < |s'| {
          assert s'[i] == s[i];
        }
      }
      if exists i | 0 <= i < |s'| :: s'[i].rank == r {
        var i :| 0 <= i < |s'| && s'[i].rank == r;
        assert s[i] == s'[i];
      }
    }
  }

  /** DistinctRanks lists every rank of s exactly once. */
  lemma {:induction false} DistinctRanksEnumerates(s: seq<Card>)
    ensures Distinct(DistinctRanks(s))
    ensures forall k :: k in DistinctRanks(s) <==> k in RankSet(s)
  {
    if s != [] {
      DistinctRanksEnumerates(s[..|s| - 1]);
    }
  }

  lemma {:induction false} CountsAtAppend(s: seq<Card>, a: seq<int>, b: seq<int>)
    ensures CountsAt(s, a + b) == CountsAt(s, a) + CountsAt(s, b)
    decreases |b|
  {
    if b == [] {
      assert a + b == a;
    } else {
      assert (a + b)[..|a + b| - 1] == a + b[..|b| - 1];
      CountsAtAppend(s, a, b[..|b| - 1]);
    }
  }

  lemma HasMember(ks: set<int>)
    ensures ks != {} ==> exists k :: k in ks
  {
    if !exists k :: k in ks {
      assert ks == {};
    }
  }

  lemma FirstIsMember(ks: seq<int>)
    ensures ks != [] ==> ks[0] in ks
  {
  }

  /** Taking one element out of a list without repetitions. */
  lemma RemoveOne(ks: seq<int>, m: nat)
    requires Distinct(ks) && m < |ks|
    ensures var ks' := ks[..m] + ks[m + 1..];
      && Distinct(ks')
      && (forall k :: k in ks' <==> k in ks && k != ks[m])
  {
    var ks' := ks[..m] + ks[m + 1..];
    forall i, j | 0 <= i < j < |ks'| ensures ks'[i] != ks'[j] {
      var i0 := if i < m then i else i + 1;
      var j0 := if j < m then j else j + 1;
      assert ks'[i] == ks[i0] && ks'[j] == ks[j0];
    }
    forall k ensures k in ks' <==> k in ks && k != ks[m] {
      if k in ks' {
        var p :| 0 <= p < |ks'| && ks'[p] == k;
        assert ks[if p < m then p else p + 1] == k;
      }
      if k in ks && k != ks[m] {
        var q :| 0 <= q < |ks| && ks[q] == k;
        assert ks'[if q < m then q else q - 1] == k;
      }
    }
  }

  lemma CountsAtRemove(s: seq<Card>, ks: seq<int>, m: nat)
    requires m < |ks|
    ensures multiset(CountsAt(s, ks)) == multiset(CountsAt(s, ks[..m] + ks[m + 1..])) + multiset{Count(s, ks[m])}
  {
    var before, after := ks[..m], ks[m + 1..];
    assert ks == before + ([ks[m]] + after);
    CountsAtAppend(s, before, [ks[m]] + after);
    CountsAtAppend(s, [ks[m]], after);
    CountsAtAppend(s, before, after);
    assert CountsAt(s, [ks[m]]) == [Count(s, ks[m])];
    var cb, ca := CountsAt(s, before), CountsAt(s, after);
    assert CountsAt(s, ks) == cb + ([Count(s, ks[m])] + ca);
    assert multiset(CountsAt(s, ks)) == multiset(cb) + multiset{Count(s, ks[m])} + multiset(ca);
    assert multiset(CountsAt(s, before + after)) == multiset(cb) + multiset(ca);
  }

  /** Listing the counts of the same distinct ranks in two orders gives the
      same multiset of counts. */
  lemma {:induction false} EnumerationsAgree(s: seq<Card>, ks1: seq<int>, ks2: seq<int>)
    requires Distinct(ks1) && Distinct(ks2)
    requires forall k :: k in ks1 <==> k in ks2
    ensures multiset(CountsAt(s, ks1)) == multiset(CountsAt(s, ks2))
    decreases |ks1|
  {
    if ks1 == [] {
      FirstIsMember(ks2);
    } else {
      var last := |ks1| - 1;
      var x := ks1[last];
      assert x in ks2;
      var m :| 0 <= m < |ks2| && ks2[m] == x;
      RemoveOne(ks1, last);
      RemoveOne(ks2, m);
      assert ks1[..last] + ks1[last + 1..] == ks1[..last];
      EnumerationsAgree(s, ks1[..last], ks2[..m] + ks2[m + 1..]);
      CountsAtRemove(s, ks2, m);
      assert CountsAt(s, ks1) == CountsAt(s, ks1[..last]) + [Count(s, x)];
    }
  }

  /** The count list of ks at position j is the count of rank ks[j]. */
  lemma {:induction false} CountsAtIndex(s: seq<Card>, ks: seq<int>, j: nat)
    requires j < |ks|
    ensures CountsAt(s, ks)[j] == Count(s, ks[j])
    decreases |ks|
  {
    if j < |ks| - 1 {
      CountsAtIndex(s, ks[..|ks| - 1], j);
    }
  }

  lemma {:induction false} SumAppend(a: seq<nat>, b: seq<nat>)
    ensures Sum(a + b) == Sum(a) + Sum(b)
    decreases |b|
  {
    if b == [] {
      assert a + b == a;
    } else {
      assert (a + b)[..|a + b| - 1] == a + b[..|b| - 1];
      SumAppend(a, b[..|b| - 1]);
    }
  }

  lemma {:induction false} SumInsert(s: seq<nat>, x: nat)
    ensures Sum(Insert(s, x, Identity)) == Sum(s) + x
  {
    if s != [] {
      var s' := s[..|s| - 1];
      assert s == s' + [s[|s| - 1]];
      SumAppend(s', [s[|s| - 1]]);
      if Identity(s[|s| - 1]) < Identity(x) {
        SumInsert(s', x);
        SumAppend(Insert(s', x, Identity), [s[|s| - 1]]);
      } else {
        SumAppend(s, [x]);
      }
    }
  }

  /** Sorting a list of counts keeps its sum. */
  lemma {:induction false} SumSorted(f: seq<nat>)
    ensures Sum(InsertionSorted(f, Identity)) == Sum(f)
  {
    if f != [] {
      SumSorted(f[..|f| - 1]);
      SumInsert(InsertionSorted(f[..|f| - 1], Identity), f[|f| - 1]);
    }
  }

  /** Every entry, and every two entries together, are at most the sum. */
  lemma {:induction false} EntriesBelowSum(f: seq<nat>)
    ensures forall i | 0 <= i < |f| :: f[i] <= Sum(f)
    ensures forall i, j | 0 <= i < j < |f| :: f[i] + f[j] <= Sum(f)
  {
    if f != [] {
      var f' := f[..|f| - 1];
      EntriesBelowSum(f');
      forall i | 0 <= i < |f'| ensures f[i] == f'[i] { }
    }
  }

  lemma {:induction false} CountsOfEmptyHand(ks: seq<int>)
    ensures Sum(CountsAt([], ks)) == 0
  {
    if ks != [] {
      CountsOfEmptyHand(ks[..|ks| - 1]);
    }
  }

  /** Adding a card to the hand adds one to the summed counts of the ranks
      ks exactly when its rank is among them. */
  lemma {:induction false} CountsAtExtend(s: seq<Card>, c: Card, ks: seq<int>)
    requires Distinct(ks)
    ensures Sum(CountsAt(s + [c], ks)) == Sum(CountsAt(s, ks)) + (if c.rank in ks then 1 else 0)
    decreases |ks|
  {
    if ks != [] {
      var ks' := ks[..|ks| - 1];
      var k := ks[|ks| - 1];
      assert ks == ks' + [k];
      assert Distinct(ks') by {
        forall i, j | 0 <= i < j < |ks'| ensures ks'[i] != ks'[j] {
          assert ks'[i] == ks[i] && ks'[j] == ks[j];
        }
      }
      forall i | 0 <= i < |ks'| ensures ks'[i] != k {
        assert ks'[i] == ks[i];
      }
      CountsAtExtend(s, c, ks');
      assert (s + [c])[..|s|] == s;
    }
  }

  /** The counts of a list of distinct ranks covering the hand sum to the
      number of cards. */
  lemma {:induction false} CountsAtSum(s: seq<Card>, ks: seq<int>)
    requires Distinct(ks)
    requires forall r | r in RankSet(s) :: r in ks
    ensures Sum(CountsAt(s, ks)) == |s|
    decreases |s|
  {
    if s == [] {
      CountsOfEmptyHand(ks);
    } else {
      var s' := s[..|s| - 1];
      assert s == s' + [s[|s| - 1]];
      CountsAtSum(s', ks);
      CountsAtExtend(s', s[|s| - 1], ks);
    }
  }

  /** Two cards of rank r make its count at least two, and conversely. */
  lemma {:induction false} CountAtLeastTwo(s: seq<Card>, r: int)
    ensures Count(s, r) >= 2 <==> exists i, j | 0 <= i < j < |s| :: s[i].rank == r && s[j].rank == r
  {
    if s != [] {
      var s' := s[..|s| - 1];
      CountAtLeastTwo(s', r);
      RankSetMembers(s', r);
      if exists i, j | 0 <= i < j < |s| :: s[i].rank == r && s[j].rank == r {
        var i, j :| 0 <= i < j < |s| && s[i].rank == r && s[j].rank == r;
        assert s'[i] == s[i];
        if j < |s'| {
          assert s'[j] == s[j];
        }
      }
      if exists i, j | 0 <= i < j < |s'| :: s'[i].rank == r && s'[j].rank == r {
        var i, j :| 0 <= i < j < |s'| && s'[i].rank == r && s'[j].rank == r;
        assert s[i] == s'[i] && s[j] == s'[j];
      }
      if Count(s', r) > 0 && s[|s| - 1].rank == r {
        var i :| 0 <= i < |s'| && s'[i].rank == r;
        assert s[i] == s'[i];
      }
    }
  }

  /** Every entry of the sorted count list is the count of a rank present in
      the hand, hence at least one. */
  lemma SortedCountsAreCounts(s: seq<Card>, i: nat)
    requires i < |SortedCounts(s)|
    ensures SortedCounts(s)[i] >= 1
    ensures exists r | r in RankSet(s) :: SortedCounts(s)[i] == Count(s, r)
  {
    var d := DistinctRanks(s);
    var counts := CountsAt(s, d);
    SortedIsPermutation(counts, Identity);
    DistinctRanksEnumerates(s);
    assert SortedCounts(s)[i] in multiset(counts);
    var j :| 0 <= j < |counts| && counts[j] == SortedCounts(s)[i];
    CountsAtIndex(s, d, j);
    RankSetMembers(s, d[j]);
    assert d[j] in d;
  }

  /** The count of every rank present in the hand is an entry of the sorted
      count list. */
  lemma CountsAreSortedCounts(s: seq<Card>, r: int)
    requires r in RankSet(s)
    ensures exists m | 0 <= m < |SortedCounts(s)| :: SortedCounts(s)[m] == Count(s, r)
  {
    var d := DistinctRanks(s);
    var counts := CountsAt(s, d);
    SortedIsPermutation(counts, Identity);
    DistinctRanksEnumerates(s);
    var j :| 0 <= j < |d| && d[j] == r;
    CountsAtIndex(s, d, j);
    assert counts[j] in multiset(SortedCounts(s));
  }

  /** The frequency list is sorted largest first. */
  lemma FrequencyTableSorted(s: seq<Card>)
    ensures SortedDown(FrequencyTable(s), Identity)
  {
    SortedIsOrdered(CountsAt(s, DistinctRanks(s)), Identity);
    PadKeepsOrder(SortedCounts(s));
  }

  lemma PadKeepsOrder(f: seq<nat>)
    requires SortedDown(f, Identity)
    ensures SortedDown(PadToTwo(f), Identity)
  {
    var g := PadToTwo(f);
    forall i, j | 0 <= i < j < |g| ensures Identity(g[i]) >= Identity(g[j]) {
      if j < |f| {
        assert g[i] == f[i] && g[j] == f[j];
      }
    }
  }

  /** Before padding, the frequency list holds the count of each distinct
      rank of the hand once, in some order; the padding is a single 0, added
      exactly when there are fewer than two distinct ranks, and no other
      entry is 0. */
  lemma FrequencyTableEntries(s: seq<Card>)
    ensures Distinct(DistinctRanks(s)) && (forall r :: r in DistinctRanks(s) <==> r in RankSet(s))
    ensures multiset(SortedCounts(s)) == multiset(CountsAt(s, DistinctRanks(s)))
    ensures FrequencyTable(s) == if |DistinctRanks(s)| < 2 then SortedCounts(s) + [0] else SortedCounts(s)
    ensures multiset(FrequencyTable(s))[0] == if |DistinctRanks(s)| < 2 then 1 else 0
    ensures forall i | 0 <= i < |SortedCounts(s)| :: FrequencyTable(s)[i] >= 1
  {
    var sorted := SortedCounts(s);
    DistinctRanksEnumerates(s);
    SortedIsPermutation(CountsAt(s, DistinctRanks(s)), Identity);
    forall i | 0 <= i < |sorted| ensures sorted[i] != 0 {
      SortedCountsAreCounts(s, i);
    }
    assert 0 !in multiset(sorted);
    if |sorted| < 2 {
      assert multiset(sorted + [0]) == multiset(sorted) + multiset{0};
    }
  }

  /** The entries of the frequency list add up to the number of cards. */
  lemma FrequencyTableSum(s: seq<Card>)
    ensures Sum(FrequencyTable(s)) == |s|
  {
    var d := DistinctRanks(s);
    var counts := CountsAt(s, d);
    DistinctRanksEnumerates(s);
    CountsAtSum(s, d);
    SumSorted(counts);
    SumAppend(SortedCounts(s), [0]);
  }

  /** A hand with cards has at least two frequencies; an empty hand has the
      single padding 0. */
  lemma FrequencyTableLength(s: seq<Card>)
    ensures s != [] ==> |FrequencyTable(s)| >= 2
    ensures s == [] ==> FrequencyTable(s) == [0]
  {
    if s != [] {
      DistinctRanksEnumerates(s);
      assert s[|s| - 1].rank in DistinctRanks(s);
    }
  }

  /** No group of the frequency list, and no two leading groups together,
      are larger than the hand. */
  lemma FrequencyTableFits(s: seq<Card>)
    ensures Rules.FitsHand(FrequencyTable(s), |s|)
  {
    FrequencyTableSum(s);
    EntriesBelowSum(FrequencyTable(s));
  }

  /** The first frequency is the largest count of any rank, and it is the
      count of a rank the hand holds. */
  lemma FrequencyTableMaximum(s: seq<Card>)
    requires s != []
    ensures forall r :: Count(s, r) <= FrequencyTable(s)[0]
    ensures exists i | 0 <= i < |s| :: FrequencyTable(s)[0] == Count(s, s[i].rank)
  {
    var sorted := SortedCounts(s);
    RankSetMembers(s, s[|s| - 1].rank);
    CountsAreSortedCounts(s, s[|s| - 1].rank);
    assert FrequencyTable(s)[0] == sorted[0];
    SortedIsOrdered(CountsAt(s, DistinctRanks(s)), Identity);
    forall r ensures Count(s, r) <= sorted[0] {
      RankSetMembers(s, r);
      if r in RankSet(s) {
        CountsAreSortedCounts(s, r);
        var m :| 0 <= m < |sorted| && sorted[m] == Count(s, r);
        if m > 0 {
          assert Identity(sorted[0]) >= Identity(sorted[m]);
        }
      }
    }
    SortedCountsAreCounts(s, 0);
    var r :| r in RankSet(s) && sorted[0] == Count(s, r);
    RankSetMembers(s, r);
  }

  /** In a non-empty hand the first frequency is at most one exactly when no
      two cards share a rank. */
  lemma TopFrequencyDistinct(s: seq<Card>)
    requires s != []
    ensures FrequencyTable(s)[0] >= 1
    ensures FrequencyTable(s)[0] <= 1 <==> AllRanksDistinct(s)
  {
    FrequencyTableMaximum(s);
    var i :| 0 <= i < |s| && FrequencyTable(s)[0] == Count(s, s[i].rank);
    RankSetMembers(s, s[i].rank);
    CountAtLeastTwo(s, s[i].rank);
    if !AllRanksDistinct(s) {
      var a, b :| 0 <= a < b < |s| && s[a].rank == s[b].rank;
      CountAtLeastTwo(s, s[a].rank);
    }
  }

  /** A list of entries of at most one sums to at most its length. */
  lemma {:induction false} SumOfOnes(f: seq<nat>)
    requires forall i | 0 <= i < |f| :: f[i] <= 1
    ensures Sum(f) <= |f|
  {
    if f != [] {
      var f' := f[..|f| - 1];
      assert forall i | 0 <= i < |f'| :: f'[i] == f[i];
      SumOfOnes(f');
    }
  }

  /** At least two cards of pairwise different ranks give the two leading
      frequencies 1 and 1. */
  lemma DistinctLeadingFrequencies(s: seq<Card>)
    requires |s| >= 2 && AllRanksDistinct(s)
    ensures FrequencyTable(s)[0] == 1 && FrequencyTable(s)[1] == 1
  {
    var sorted := SortedCounts(s);
    TopFrequencyDistinct(s);
    FrequencyTableLength(s);
    FrequencyTableSorted(s);
    FrequencyTableEntries(s);
    FrequencyTableSum(s);
    SumAppend(sorted, [0]);
    var f := FrequencyTable(s);
    forall i | 0 <= i < |sorted| ensures sorted[i] <= 1 {
      if i > 0 {
        assert f[i] == sorted[i];
        assert Identity(f[0]) >= Identity(f[i]);
      }
    }
    SumOfOnes(sorted);
    assert |sorted| >= 2;
    assert Identity(f[0]) >= Identity(f[1]);
  }
}
