/**
 * Leaderboards: `list.sort((a, b) => b.pontuacao - a.pontuacao).slice(0, n)`.
 * JavaScript's sort is stable, so the sort is modelled as a stable insertion sort by
 * descending key; both leaderboards of the application are instances of `Top`.
 */
module Leaderboard {
  import opened Common

  predicate NonIncreasing<T>(s: seq<T>, key: T -> int)
  {
    forall i, j :: 0 <= i < j < |s| ==> key(s[i]) >= key(s[j])
  }

  /** A head no smaller than the first element of a sorted tail keeps it sorted. */
  lemma ConsSorted<T>(h: T, t: seq<T>, key: T -> int)
    requires NonIncreasing(t, key) && (|t| > 0 ==> key(h) >= key(t[0]))
    ensures NonIncreasing([h] + t, key)
  {
    var r := [h] + t;
    forall i, j | 0 <= i < j < |r| ensures key(r[i]) >= key(r[j]) {
      if i == 0 {
        assert key(t[0]) >= key(t[j - 1]) || j == 1;
      } else {
        assert r[i] == t[i - 1] && r[j] == t[j - 1];
      }
    }
  }

  /** Inserts x after every element whose key is at least key(x). */
  function Insert<T>(x: T, s: seq<T>, key: T -> int): (r: seq<T>)
    requires NonIncreasing(s, key)
    ensures |r| == |s| + 1
    ensures multiset(r) == multiset(s) + multiset{x}
    ensures r[0] == x || (|s| > 0 && r[0] == s[0])
    ensures NonIncreasing(r, key)
    decreases |s|
  {
    if s == [] then [x]
    else if key(s[0]) >= key(x) then
      var tail := Insert(x, s[1..], key);
      assert s == [s[0]] + s[1..];
      ConsSorted(s[0], tail, key);
      [s[0]] + tail
    else
      ConsSorted(x, s, key);
      [x] + s
  }

  /** The input ordered by descending key, equal keys in their input order. */
  function SortDesc<T>(s: seq<T>, key: T -> int): (r: seq<T>)
    ensures |r| == |s|
    ensures multiset(r) == multiset(s)
    ensures NonIncreasing(r, key)
    decreases |s|
  {
    if s == [] then []
    else
      var init := s[..|s| - 1];
      assert s == init + [s[|s| - 1]];
      Insert(s[|s| - 1], SortDesc(init, key), key)
  }

  /** An element no greater than everything in a sorted sequence goes to its end. */
  lemma {:induction false} InsertLast<T>(x: T, s: seq<T>, key: T -> int)
    requires NonIncreasing(s, key)
    requires forall i :: 0 <= i < |s| ==> key(s[i]) >= key(x)
    ensures Insert(x, s, key) == s + [x]
    decreases |s|
  {
    if s != [] {
      InsertLast(x, s[1..], key);
      assert s == [s[0]] + s[1..];
    }
  }

  /** Sorting a sorted sequence changes nothing: the sort is stable. */
  lemma {:induction false} SortSorted<T>(s: seq<T>, key: T -> int)
    requires NonIncreasing(s, key)
    ensures SortDesc(s, key) == s
    decreases |s|
  {
    if s != [] {
      var init, x := s[..|s| - 1], s[|s| - 1];
      assert init + [x] == s;
      DropLast(init, x, key);
      SortSorted(init, key);
      InsertLast(x, init, key);
    }
  }

  /** Without its last element a sorted sequence stays sorted, and no element of it is
      below the last one. */
  lemma DropLast<T>(init: seq<T>, x: T, key: T -> int)
    requires NonIncreasing(init + [x], key)
    ensures NonIncreasing(init, key)
    ensures forall i :: 0 <= i < |init| ==> key(init[i]) >= key(x)
  {
    var s := init + [x];
    assert forall i :: 0 <= i < |init| ==> s[i] == init[i];
    assert s[|init|] == x;
  }

  /** Sorting a sorted sequence with one element appended inserts that element. */
  lemma SortSnoc<T>(s: seq<T>, x: T, key: T -> int)
    requires NonIncreasing(s, key)
    ensures SortDesc(s + [x], key) == Insert(x, s, key)
  {
    var t := s + [x];
    assert t[..|t| - 1] == s && t[|t| - 1] == x;
    SortSorted(s, key);
  }

  /** Splitting a sequence splits its multiset. */
  lemma SplitMultiset<T>(s: seq<T>, k: nat)
    requires k <= |s|
    ensures multiset(s) == multiset(s[..k]) + multiset(s[k..])
    ensures multiset(s) - multiset(s[..k]) == multiset(s[k..])
  {
    assert s == s[..k] + s[k..];
  }

  /** A prefix of a sorted sequence is sorted and is part of it. */
  lemma PrefixFacts<T>(sorted: seq<T>, k: nat, key: T -> int)
    requires NonIncreasing(sorted, key) && k <= |sorted|
    ensures NonIncreasing(sorted[..k], key)
    ensures multiset(sorted[..k]) <= multiset(sorted)
    ensures k == |sorted| ==> sorted[..k] == sorted
  {
    SplitMultiset(sorted, k);
    var r := sorted[..k];
    assert NonIncreasing(r, key) by {
      forall i, j | 0 <= i < j < k ensures key(r[i]) >= key(r[j]) {
        assert r[i] == sorted[i] && r[j] == sorted[j];
      }
    }
  }

  /** The length, order and origin of the prefix of the sorted input that `Top` returns. */
  lemma TopShape<T>(s: seq<T>, n: nat, key: T -> int)
    ensures var r := SortDesc(s, key)[..Min(n, |s|)];
      && |r| == Min(n, |s|)
      && NonIncreasing(r, key)
      && multiset(r) <= multiset(s)
      && (n >= |s| ==> multiset(r) == multiset(s))
  {
    PrefixFacts(SortDesc(s, key), Min(n, |s|), key);
  }

  /** An occurrence that is not in a prefix is in the rest of the sequence. */
  lemma InSuffix<T>(sorted: seq<T>, k: nat, x: T) returns (j: nat)
    requires k <= |sorted| && x in multiset(sorted) && x !in multiset(sorted[..k])
    ensures k <= j < |sorted| && sorted[j] == x
  {
    SplitMultiset(sorted, k);
    var rest := sorted[k..];
    assert x in multiset(rest);
    var i :| 0 <= i < |rest| && rest[i] == x;
    j := k + i;
  }

  /** No entry the prefix of the sorted input leaves out has a key above its last one. */
  lemma TopOmitted<T>(s: seq<T>, n: nat, key: T -> int)
    ensures var r := SortDesc(s, key)[..Min(n, |s|)];
      |r| > 0 ==> forall x :: x in multiset(s) && x !in multiset(r) ==> key(x) <= key(r[|r| - 1])
  {
    var sorted := SortDesc(s, key);
    var k := Min(n, |s|);
    var r := sorted[..k];
    forall x | x in multiset(s) && k > 0 && x !in multiset(r)
      ensures key(x) <= key(sorted[k - 1])
    {
      var j := InSuffix(sorted, k, x);
    }
    assert |r| > 0 ==> r[|r| - 1] == sorted[k - 1];
  }

  /**
   * The n entries with the highest keys: sorted, as many as there are up to n, each one
   * taken from the input, all of them when there are at most n, and no entry left out has
   * a key above the last one kept.
   */
  function Top<T>(s: seq<T>, n: nat, key: T -> int): (r: seq<T>)
    ensures |r| == Min(n, |s|)
    ensures NonIncreasing(r, key)
    ensures multiset(r) <= multiset(s)
    ensures n >= |s| ==> multiset(r) == multiset(s)
    ensures |r| > 0 ==> forall x :: x in multiset(s) && x !in multiset(r) ==> key(x) <= key(r[|r| - 1])
  {
    TopShape(s, n, key);
    TopOmitted(s, n, key);
    SortDesc(s, key)[..Min(n, |s|)]
  }
}
