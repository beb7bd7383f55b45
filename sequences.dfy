/**
 * The vector operations the channel generator borrows from the C++
 * standard library (std::accumulate, std::sort, std::min_element,
 * std::max_element), stated over sequences of reals.
 */
module Sequences {

  /** std::accumulate from 0: the sum, added front to back. */
  function Sum(s: seq<real>): real
  {
    if |s| == 0 then 0.0 else Sum(s[..|s| - 1]) + s[|s| - 1]
  }

  /** The sum of a sequence of counts. */
  function Total(s: seq<int>): int
  {
    if |s| == 0 then 0 else Total(s[..|s| - 1]) + s[|s| - 1]
  }

  predicate Sorted(s: seq<real>)
  {
    forall i, j :: 0 <= i < j < |s| ==> s[i] <= s[j]
  }

  /** Insert `x` into a sorted sequence, before the first element not smaller. */
  function Insert(x: real, s: seq<real>): (r: seq<real>)
    ensures multiset(r) == multiset(s) + multiset{x}
    ensures |r| == |s| + 1
  {
    if |s| == 0 then [x]
    else if x <= s[0] then [x] + s
    else
      assert s == [s[0]] + s[1..];
      [s[0]] + Insert(x, s[1..])
  }

  lemma {:induction false} InsertSorted(x: real, s: seq<real>)
    requires Sorted(s)
    ensures Sorted(Insert(x, s))
    decreases |s|
  {
    if |s| > 0 && x > s[0] {
      var t := s[1..];
      InsertSorted(x, t);
      var r := Insert(x, t);
      assert s == [s[0]] + t;
      forall k | 0 <= k < |r|
        ensures s[0] <= r[k]
      {
        assert r[k] in multiset(r);
        assert r[k] in multiset(t) + multiset{x};
        if r[k] in multiset(t) {
          var j :| 0 <= j < |t| && t[j] == r[k];
          assert s[j + 1] == r[k];
        }
      }
    }
  }

  /** std::sort in ascending order: a sorted permutation. */
  function Sort(s: seq<real>): (r: seq<real>)
    ensures Sorted(r)
    ensures multiset(r) == multiset(s)
    ensures |r| == |s|
  {
    if |s| == 0 then []
    else
      var t := Sort(s[1..]);
      InsertSorted(s[0], t);
      assert s == [s[0]] + s[1..];
      Insert(s[0], t)
  }

  /** *std::min_element: the smallest element. */
  function MinOf(s: seq<real>): (r: real)
    requires |s| > 0
    ensures r in s
    ensures forall k :: 0 <= k < |s| ==> r <= s[k]
  {
    if |s| == 1 then s[0]
    else
      var rest := MinOf(s[1..]);
      assert forall k :: 1 <= k < |s| ==> s[k] == s[1..][k - 1];
      if rest < s[0] then rest else s[0]
  }

  /** std::max_element minus begin: the first index of the largest element. */
  function ArgMax(s: seq<real>): (r: nat)
    requires |s| > 0
    ensures r < |s|
    ensures forall k :: 0 <= k < |s| ==> s[k] <= s[r]
    ensures forall k :: 0 <= k < r ==> s[k] < s[r]
  {
    if |s| == 1 then 0
    else
      var rest := ArgMax(s[..|s| - 1]);
      if s[rest] < s[|s| - 1] then |s| - 1 else rest
  }

  /** Subtract `c` from every element. */
  function Shift(s: seq<real>, c: real): (r: seq<real>)
    ensures |r| == |s|
    ensures forall k :: 0 <= k < |s| ==> r[k] == s[k] - c
  {
    seq(|s|, k requires 0 <= k < |s| => s[k] - c)
  }

  /**
   * Shifting by the minimum and sorting gives a sorted sequence whose
   * elements are non-negative and whose first element is 0.
   */
  lemma ShiftedSortStartsAtZero(s: seq<real>)
    requires |s| > 0
    ensures var r := Sort(Shift(s, MinOf(s)));
      |r| == |s| && r[0] == 0.0 && Sorted(r) && forall k :: 0 <= k < |r| ==> 0.0 <= r[k]
  {
    var t := Shift(s, MinOf(s));
    var r := Sort(t);
    var i :| 0 <= i < |s| && s[i] == MinOf(s);
    assert t[i] == 0.0;
    assert t[i] in multiset(r) by {
      assert t[i] in multiset(t);
    }
    var j :| 0 <= j < |r| && r[j] == 0.0;
    forall k | 0 <= k < |r|
      ensures 0.0 <= r[k]
    {
      assert r[k] in multiset(t) by {
        assert r[k] in multiset(r);
      }
      var l :| 0 <= l < |t| && t[l] == r[k];
    }
    assert r[0] <= r[j];
  }

  /** Dividing every element by `d` divides the sum by `d`. */
  lemma {:induction false} SumDivide(s: seq<real>, d: real)
    requires d != 0.0
    ensures Sum(seq(|s|, k requires 0 <= k < |s| => s[k] / d)) == Sum(s) / d
    decreases |s|
  {
    var q := seq(|s|, k requires 0 <= k < |s| => s[k] / d);
    if |s| > 0 {
      var s' := s[..|s| - 1];
      var q' := seq(|s'|, k requires 0 <= k < |s'| => s'[k] / d);
      SumDivide(s', d);
      assert q[..|q| - 1] == q';
      assert Sum(q) == Sum(q') + s[|s| - 1] / d;
    }
  }

  /** Replacing one element changes the sum by the difference. */
  lemma {:induction false} SumUpdate(s: seq<real>, i: nat, v: real)
    requires i < |s|
    ensures Sum(s[i := v]) == Sum(s) - s[i] + v
    decreases |s|
  {
    var t := s[i := v];
    if i < |s| - 1 {
      SumUpdate(s[..|s| - 1], i, v);
      assert t[..|t| - 1] == s[..|s| - 1][i := v];
    } else {
      assert t[..|t| - 1] == s[..|s| - 1];
    }
  }

  /** Exchanging two elements keeps the sum. */
  lemma SumSwap(s: seq<real>, i: nat, j: nat)
    requires i < |s| && j < |s|
    ensures Sum(s[i := s[j]][j := s[i]]) == Sum(s)
  {
    SumUpdate(s, i, s[j]);
    SumUpdate(s[i := s[j]], j, s[i]);
  }

  /** A sum of positive numbers over a non-empty sequence is positive. */
  lemma {:induction false} SumPositive(s: seq<real>)
    requires |s| > 0
    requires forall k :: 0 <= k < |s| ==> 0.0 < s[k]
    ensures 0.0 < Sum(s)
    decreases |s|
  {
    if |s| > 1 {
      SumPositive(s[..|s| - 1]);
    }
  }

  /** A prefix of non-negative counts sums to no more than all of them. */
  lemma {:induction false} TotalPrefix(counts: seq<int>, i: nat)
    requires i <= |counts|
    requires forall k :: 0 <= k < |counts| ==> 0 <= counts[k]
    ensures Total(counts[..i]) <= Total(counts)
    ensures 0 <= Total(counts[..i])
    decreases |counts|
  {
    if i < |counts| {
      TotalPrefix(counts[..|counts| - 1], i);
      assert counts[..|counts| - 1][..i] == counts[..i];
      TotalPrefix(counts[..|counts| - 1], |counts| - 1);
      assert counts[..|counts| - 1][..|counts| - 1] == counts[..|counts| - 1];
    } else if 0 < i {
      assert counts[..i] == counts;
      TotalPrefix(counts[..|counts| - 1], |counts| - 1);
      assert counts[..|counts| - 1][..|counts| - 1] == counts[..|counts| - 1];
    }
  }

  /** A single non-negative count is at most the total. */
  lemma CountAtMostTotal(counts: seq<int>, i: nat)
    requires i < |counts|
    requires forall k :: 0 <= k < |counts| ==> 0 <= counts[k]
    ensures counts[i] <= Total(counts)
  {
    TotalPrefix(counts, i);
    TotalPrefix(counts, i + 1);
    assert counts[..i + 1][..i] == counts[..i];
  }
}
