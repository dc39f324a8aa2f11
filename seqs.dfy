/** `Array.prototype.filter`, which the staff directory and the evaluation page use, and
    the subsequence relation that describes its result. */
module Seqs {

  /** `a` can be obtained from `b` by deleting elements, keeping the rest in order. */
  predicate IsSubsequence<T(==)>(a: seq<T>, b: seq<T>)
    decreases |b|
  {
    if a == [] then true
    else if b == [] then false
    else if a[0] == b[0] then IsSubsequence(a[1..], b[1..])
    else IsSubsequence(a, b[1..])
  }

  /** `s.filter(keep)`: the elements of `s` that `keep` accepts, in their original order,
      each as often as it occurs in `s`. */
  function Filter<T(==,!new)>(s: seq<T>, keep: T -> bool): (r: seq<T>)
    ensures |r| <= |s|
    ensures IsSubsequence(r, s)
    ensures forall x :: x in r <==> x in s && keep(x)
    ensures forall x :: multiset(r)[x] == if keep(x) then multiset(s)[x] else 0
  {
    if s == [] then []
    else
      var rest := Filter(s[1..], keep);
      assert s == [s[0]] + s[1..];
      if keep(s[0]) then [s[0]] + rest else rest
  }

  /** When `keep` accepts every element, filtering returns the list unchanged. */
  lemma {:induction false} FilterKeepsAll<T(!new)>(s: seq<T>, keep: T -> bool)
    requires forall x :: x in s ==> keep(x)
    ensures Filter(s, keep) == s
  {
    if s != [] {
      FilterKeepsAll(s[1..], keep);
    }
  }

  /** Filtering with two tests that agree on every element gives the same result. */
  lemma {:induction false} FilterCongruent<T(!new)>(s: seq<T>, keep: T -> bool, keep': T -> bool)
    requires forall x :: x in s ==> keep(x) == keep'(x)
    ensures Filter(s, keep) == Filter(s, keep')
  {
    if s != [] {
      FilterCongruent(s[1..], keep, keep');
    }
  }

  /** The result is empty exactly when `keep` accepts no element. */
  lemma FilterEmpty<T(!new)>(s: seq<T>, keep: T -> bool)
    ensures |Filter(s, keep)| == 0 <==> forall x :: x in s ==> !keep(x)
  {
    var r := Filter(s, keep);
    if |r| != 0 {
      assert r[0] in r;
    }
  }

  /** Every element of a subsequence occurs in the longer sequence. */
  lemma {:induction false} SubsequenceMember<T>(a: seq<T>, b: seq<T>, k: int)
    requires IsSubsequence(a, b) && 0 <= k < |a|
    ensures exists k' :: 0 <= k' < |b| && b[k'] == a[k]
    decreases |b|
  {
    if a[0] == b[0] {
      if k > 0 {
        SubsequenceMember(a[1..], b[1..], k - 1);
        var k' :| 0 <= k' < |b| - 1 && b[1..][k'] == a[1..][k - 1];
        assert b[k' + 1] == a[k];
      } else {
        assert b[0] == a[k];
      }
    } else {
      SubsequenceMember(a, b[1..], k);
      var k' :| 0 <= k' < |b| - 1 && b[1..][k'] == a[k];
      assert b[k' + 1] == a[k];
    }
  }

  /** A subsequence keeps the relative order of what it keeps: two elements of it, one
      before the other, occur in the longer sequence in the same order. */
  lemma {:induction false} SubsequenceOrder<T>(a: seq<T>, b: seq<T>, i: int, j: int)
    requires IsSubsequence(a, b) && 0 <= i < j < |a|
    ensures exists i', j' :: 0 <= i' < j' < |b| && b[i'] == a[i] && b[j'] == a[j]
    decreases |b|
  {
    if a[0] == b[0] {
      if i == 0 {
        SubsequenceMember(a[1..], b[1..], j - 1);
        var j' :| 0 <= j' < |b| - 1 && b[1..][j'] == a[1..][j - 1];
        assert b[0] == a[i] && b[j' + 1] == a[j];
      } else {
        SubsequenceOrder(a[1..], b[1..], i - 1, j - 1);
        var i', j' :| 0 <= i' < j' < |b| - 1 && b[1..][i'] == a[1..][i - 1] && b[1..][j'] == a[1..][j - 1];
        assert b[i' + 1] == a[i] && b[j' + 1] == a[j];
      }
    } else {
      SubsequenceOrder(a, b[1..], i, j);
      var i', j' :| 0 <= i' < j' < |b| - 1 && b[1..][i'] == a[i] && b[1..][j'] == a[j];
      assert b[i' + 1] == a[i] && b[j' + 1] == a[j];
    }
  }
}
