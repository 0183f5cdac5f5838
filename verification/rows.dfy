/**
 * Reading a table in order. A query that has no `order_by` is read in
 * ascending id order; `Select` keeps the rows a filter admits, in the order
 * they come.
 */
module Rows {

  predicate Increasing(s: seq<int>) {
    forall i, j :: 0 <= i < j < |s| ==> s[i] < s[j]
  }

  /** No element occurs twice. */
  predicate Distinct<T(==)>(s: seq<T>) {
    forall i, j :: 0 <= i < j < |s| ==> s[i] != s[j]
  }

  /** Some element of a non-empty set. */
  lemma Member(ks: set<int>) returns (x: int)
    requires ks != {}
    ensures x in ks
  {
    if forall y :: y !in ks { assert false; }
    x :| x in ks;
  }

  lemma {:induction false} LeastExists(ks: set<int>)
    requires ks != {}
    ensures exists m :: m in ks && forall k :: k in ks ==> m <= k
    decreases |ks|
  {
    var x := Member(ks);
    var rest := ks - {x};
    if rest == {} {
      forall k | k in ks ensures x <= k { assert k !in rest; }
    } else {
      assert |rest| < |ks|;
      LeastExists(rest);
      var m :| m in rest && forall k :: k in rest ==> m <= k;
      var least := if x < m then x else m;
      assert least in ks;
      forall k | k in ks ensures least <= k { if k != x { assert k in rest; } }
    }
  }


  function Least(ks: set<int>): (m: int)
    requires ks != {}
    ensures m in ks && forall k :: k in ks ==> m <= k
  {
    LeastExists(ks);
    var m :| m in ks && forall k :: k in ks ==> m <= k;
    m
  }

  /** The ids of a table, in ascending order. */
  function SortedIds(ks: set<int>): (r: seq<int>)
    ensures Increasing(r) && |r| == |ks|
    ensures forall k :: k in r <==> k in ks
    decreases |ks|
  {
    if ks == {} then []
    else
      var m := Least(ks);
      [m] + SortedIds(ks - {m})
  }

  /** The elements of `s` that `keep` admits, in their order in `s`. */
  function Select<T(!new)>(s: seq<T>, keep: T -> bool): (r: seq<T>)
    ensures |r| <= |s|
    ensures forall x :: x in r <==> x in s && keep(x)
    ensures forall i :: 0 <= i < |r| ==> keep(r[i])
  {
    if s == [] then []
    else (if keep(s[0]) then [s[0]] else []) + Select(s[1..], keep)
  }

  /** Selecting from an ascending sequence keeps it ascending. */
  lemma {:induction false} SelectIncreasing(s: seq<int>, keep: int -> bool)
    requires Increasing(s)
    ensures Increasing(Select(s, keep))
  {
    if s != [] {
      SelectIncreasing(s[1..], keep);
      var tail := Select(s[1..], keep);
      forall x | x in tail ensures s[0] < x {
        var i :| 0 <= i < |s[1..]| && s[1..][i] == x;
        assert s[i + 1] == x;
      }
    }
  }

  lemma IncreasingIsDistinct(s: seq<int>)
    requires Increasing(s)
    ensures Distinct(s)
  {
  }

  /** In an ascending sequence every element occurs exactly once. */
  lemma {:induction false} IncreasingCountsOnce(s: seq<int>)
    requires Increasing(s)
    ensures forall x :: multiset(s)[x] == if x in s then 1 else 0
  {
    if s != [] {
      IncreasingCountsOnce(s[1..]);
      assert s == [s[0]] + s[1..];
      assert s[0] !in s[1..] by {
        forall i | 0 <= i < |s[1..]| ensures s[1..][i] != s[0] {
          assert s[1..][i] == s[i + 1];
        }
      }
    }
  }

  /** Two filters that agree on every element of `s` select the same elements. */
  lemma {:induction false} SelectAgrees<T(!new)>(s: seq<T>, keep: T -> bool, keep': T -> bool)
    requires forall x :: x in s ==> keep(x) == keep'(x)
    ensures Select(s, keep) == Select(s, keep')
  {
    if s != [] {
      assert forall x :: x in s[1..] ==> x in s;
      SelectAgrees(s[1..], keep, keep');
    }
  }
}
