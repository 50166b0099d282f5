/** Stable descending sort by an integer key, as done by the engine's two
    in-place `sort` calls (cards by rank, frequency counts by value). */
module Sorting {

  /** Every element's key is at least the key of every later element. */
  predicate SortedDown<T>(s: seq<T>, key: T -> int)
  {
    forall i, j | 0 <= i < j < |s| :: key(s[i]) >= key(s[j])
  }

  /** x placed into s right after the last element whose key is not smaller
      than key(x); scanning from the right keeps equal keys in input order. */
  function Insert<T>(s: seq<T>, x: T, key: T -> int): (r: seq<T>)
    ensures |r| == |s| + 1
  {
    if s == [] then [x]
    else if key(s[|s| - 1]) < key(x) then Insert(s[..|s| - 1], x, key) + [s[|s| - 1]]
    else s + [x]
  }

  /** The stable descending sort of s by key. */
  function InsertionSorted<T>(s: seq<T>, key: T -> int): (r: seq<T>)
    ensures |r| == |s|
  {
    if s == [] then [] else Insert(InsertionSorted(s[..|s| - 1], key), s[|s| - 1], key)
  }

  lemma {:induction false} InsertKeepsElements<T>(s: seq<T>, x: T, key: T -> int)
    ensures multiset(Insert(s, x, key)) == multiset(s) + multiset{x}
  {
    if s != [] && key(s[|s| - 1]) < key(x) {
      var s' := s[..|s| - 1];
      InsertKeepsElements(s', x, key);
      assert s == s' + [s[|s| - 1]];
    }
  }

  lemma {:induction false} InsertKeepsOrder<T>(s: seq<T>, x: T, key: T -> int)
    requires SortedDown(s, key)
    ensures SortedDown(Insert(s, x, key), key)
  {
    if s != [] && key(s[|s| - 1]) < key(x) {
      var s' := s[..|s| - 1];
      var last := s[|s| - 1];
      InsertKeepsOrder(s', x, key);
      InsertKeepsElements(s', x, key);
      var r' := Insert(s', x, key);
      var r := r' + [last];
      forall i | 0 <= i < |r'| ensures key(r'[i]) >= key(last) {
        assert r'[i] in multiset(r');
        assert r'[i] == x || r'[i] in s';
        if r'[i] != x {
          var k :| 0 <= k < |s'| && s'[k] == r'[i];
          assert s[k] == s'[k];
        }
      }
      forall i, j | 0 <= i < j < |r| ensures key(r[i]) >= key(r[j]) {
        if j < |r'| {
          assert r[i] == r'[i] && r[j] == r'[j];
        }
      }
    }
  }

  /** The sort is a permutation of its input. */
  lemma {:induction false} SortedIsPermutation<T>(s: seq<T>, key: T -> int)
    ensures multiset(InsertionSorted(s, key)) == multiset(s)
  {
    if s != [] {
      var s' := s[..|s| - 1];
      SortedIsPermutation(s', key);
      InsertKeepsElements(InsertionSorted(s', key), s[|s| - 1], key);
      assert s == s' + [s[|s| - 1]];
    }
  }

  /** The sort is ordered by descending key. */
  lemma {:induction false} SortedIsOrdered<T>(s: seq<T>, key: T -> int)
    ensures SortedDown(InsertionSorted(s, key), key)
  {
    if s != [] {
      SortedIsOrdered(s[..|s| - 1], key);
      InsertKeepsOrder(InsertionSorted(s[..|s| - 1], key), s[|s| - 1], key);
    }
  }

  /** Sorting an already sorted sequence changes nothing. */
  lemma {:induction false} SortedIsFixed<T>(s: seq<T>, key: T -> int)
    requires SortedDown(s, key)
    ensures InsertionSorted(s, key) == s
  {
    if s != [] {
      var s' := s[..|s| - 1];
      assert SortedDown(s', key) by {
        forall i, j | 0 <= i < j < |s'| ensures key(s'[i]) >= key(s'[j]) {
          assert s'[i] == s[i] && s'[j] == s[j];
        }
      }
      SortedIsFixed(s', key);
      if s' != [] {
        assert s'[|s'| - 1] == s[|s| - 2];
      }
      assert s == s' + [s[|s| - 1]];
    }
  }

  /** Inserting next to a suffix of strictly smaller keys: the suffix stays
      behind the inserted element. */
  lemma {:induction false} InsertPastSmaller<T>(s: seq<T>, x: T, key: T -> int, j: nat)
    requires j <= |s|
    requires forall k | j <= k < |s| :: key(s[k]) < key(x)
    ensures Insert(s, x, key) == Insert(s[..j], x, key) + s[j..]
    decreases |s| - j
  {
    if j < |s| {
      var s' := s[..|s| - 1];
      InsertPastSmaller(s', x, key, j);
      assert s'[..j] == s[..j];
      assert s[j..] == s'[j..] + [s[|s| - 1]];
    } else {
      assert s[..j] == s;
    }
  }

  /** Sorts a in place, descending by key and stably, by insertion with
      adjacent swaps. */
  method SortDescending<T>(a: array<T>, key: T -> int)
    modifies a
    ensures a[..] == InsertionSorted(old(a[..]), key)
  {
    ghost var input := a[..];
    var i := 0;
    while i < a.Length
      invariant 0 <= i <= a.Length
      invariant a[..] == InsertionSorted(input[..i], key) + input[i..]
    {
      assert input[..i + 1][..i] == input[..i];
      assert input[i..] == [input[i]] + input[i + 1..];
      InsertNext(a, i, key);
      i := i + 1;
    }
    assert input[..a.Length] == input;
  }

  /** Moves a[i] left past the elements of the prefix a[..i] whose keys are
      smaller, one adjacent swap at a time. */
  method InsertNext<T>(a: array<T>, i: nat, key: T -> int)
    requires i < a.Length
    modifies a
    ensures a[..] == Insert(old(a[..i]), old(a[i]), key) + old(a[i + 1..])
  {
    ghost var prefix := a[..i];
    ghost var rest := a[i + 1..];
    var x := a[i];
    assert a[..] == prefix[..i] + [x] + prefix[i..] + rest;
    var j := i;
    while j > 0 && key(a[j - 1]) < key(x)
      invariant 0 <= j <= i
      invariant a[..] == prefix[..j] + [x] + prefix[j..] + rest
      invariant forall k | j <= k < i :: key(prefix[k]) < key(x)
    {
      SwapStep(prefix, x, rest, j);
      a[j - 1], a[j] := a[j], a[j - 1];
      j := j - 1;
    }
    InsertPastSmaller(prefix, x, key, j);
    assert Insert(prefix[..j], x, key) == prefix[..j] + [x] by {
      if j > 0 {
        assert prefix[..j][j - 1] == prefix[j - 1];
      }
    }
  }

  lemma SwapStep<T>(p: seq<T>, x: T, rest: seq<T>, j: nat)
    requires 0 < j <= |p|
    ensures var t := p[..j] + [x] + p[j..] + rest;
      t[j - 1 := x][j := p[j - 1]] == p[..j - 1] + [x] + p[j - 1..] + rest
  {
  }

  lemma SortedTail<T>(s: seq<T>, key: T -> int)
    requires s != [] && SortedDown(s, key)
    ensures SortedDown(s[1..], key)
  {
    forall i, j | 0 <= i < j < |s| - 1 ensures key(s[1..][i]) >= key(s[1..][j]) {
      assert s[1..][i] == s[i + 1] && s[1..][j] == s[j + 1];
    }
  }

  /** A descending sequence of numbers is determined by its multiset. */
  lemma {:induction false} SortedUnique(a: seq<nat>, b: seq<nat>)
    requires SortedDown(a, Identity) && SortedDown(b, Identity)
    requires multiset(a) == multiset(b)
    ensures a == b
  {
    if a == [] {
      assert |multiset(b)| == 0;
    } else {
      assert a[0] in multiset(b);
      var i :| 0 <= i < |b| && b[i] == a[0];
      assert b[0] in multiset(a);
      var j :| 0 <= j < |a| && a[j] == b[0];
      assert Identity(b[0]) >= Identity(b[i]) by {
        if i > 0 { assert SortedDown(b, Identity); }
      }
      assert Identity(a[0]) >= Identity(a[j]) by {
        if j > 0 { assert SortedDown(a, Identity); }
      }
      assert a[0] == b[0];
      assert a == [a[0]] + a[1..];
      assert b == [b[0]] + b[1..];
      assert multiset(a) == multiset{a[0]} + multiset(a[1..]);
      assert multiset(b) == multiset{a[0]} + multiset(b[1..]);
      assert multiset(a[1..]) == multiset(a) - multiset{a[0]};
      assert multiset(b[1..]) == multiset(b) - multiset{a[0]};
      SortedTail(a, Identity);
      SortedTail(b, Identity);
      SortedUnique(a[1..], b[1..]);
    }
  }

  function Identity(n: nat): int { n }
}
