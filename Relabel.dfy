/**
 * Canonical renumbering of clusters after the fit: clusters are numbered in
 * the order in which their labels first appear among the rows, and clusters
 * no row carries come last, in their old order.  Labels and centroids are
 * renumbered with the same permutation.
 */
module Relabel {

  predicate Distinct(s: seq<nat>) {
    forall p, q :: 0 <= p < q < |s| ==> s[p] != s[q]
  }

  /** ord lists each of 0 .. k-1 exactly once. */
  predicate IsPermutation(ord: seq<nat>, k: nat) {
    |ord| == k && Distinct(ord) && forall p :: 0 <= p < |ord| ==> ord[p] < k
  }

  /** The clusters among 0 .. k-1 that the labels use, in order of first use. */
  function Seen(labels: seq<int>, k: nat): (s: seq<nat>)
    ensures Distinct(s) && forall p :: 0 <= p < |s| ==> s[p] < k
    ensures forall x :: x in s <==> x in labels && 0 <= x < k
  {
    if labels == [] then []
    else
      var front := labels[..|labels| - 1];
      var s := Seen(front, k);
      var l := labels[|labels| - 1];
      assert labels == front + [l];
      if 0 <= l < k && l !in s then s + [l] else s
  }

  /** The clusters among x .. k-1 that s does not list, ascending. */
  function Unseen(s: seq<nat>, k: nat, x: nat): (u: seq<nat>)
    ensures Distinct(u)
    ensures forall y :: y in u <==> x <= y < k && y !in s
    decreases k - x
  {
    if x >= k then []
    else
      var rest := Unseen(s, k, x + 1);
      assert forall p :: 0 <= p < |rest| ==> rest[p] in rest;
      (if x in s then [] else [x]) + rest
  }

  /** The new number p of a cluster is its position in this list, which lists each cluster once. */
  function AppearanceOrder(labels: seq<int>, k: nat): (ord: seq<nat>)
    ensures IsPermutation(ord, k)
    ensures forall x: nat :: x < k ==> x in ord
  {
    var s := Seen(labels, k);
    var u := Unseen(s, k, 0);
    AppearanceOrderIsPermutation(s, u, k);
    s + u
  }

  /** 0, 1, ..., k-1 */
  function Iota(k: nat): (s: seq<nat>)
    ensures |s| == k && forall p :: 0 <= p < k ==> s[p] == p
  {
    seq(k, p => p)
  }

  lemma {:induction false} DistinctSetCard(s: seq<nat>)
    requires Distinct(s)
    ensures |set x: nat | x in s| == |s|
  {
    if s != [] {
      var t := s[..|s| - 1];
      assert Distinct(t);
      assert s == t + [s[|s| - 1]];
      assert s[|s| - 1] !in t;
      DistinctSetCard(t);
      var st := set x: nat | x in t;
      var e := s[|s| - 1];
      assert e !in st;
      assert (set x: nat | x in s) == st + {e};
    }
  }

  /** Seen clusters followed by the unseen ones: distinct, in range, covering, so exactly k long. */
  lemma AppearanceOrderIsPermutation(s: seq<nat>, u: seq<nat>, k: nat)
    requires Distinct(s) && forall p :: 0 <= p < |s| ==> s[p] < k
    requires Distinct(u) && forall y :: y in u <==> 0 <= y < k && y !in s
    ensures IsPermutation(s + u, k)
    ensures forall x: nat :: x < k ==> x in s + u
  {
    var ord := s + u;
    assert Distinct(ord) by {
      forall p, q | 0 <= p < q < |ord| ensures ord[p] != ord[q] {
        if q >= |s| && p < |s| {
          assert ord[q] in u && ord[p] in s;
        }
      }
    }
    forall p | 0 <= p < |ord| ensures ord[p] < k {
      if p >= |s| { assert ord[p] in u; }
    }
    var range := Iota(k);
    assert (set x: nat | x in ord) == (set x: nat | x in range) by {
      forall x: nat | x < k ensures x in ord {
        if x !in s { assert x in u; }
      }
      forall x | x in range ensures x < k {
      }
      forall x: nat | x < k ensures x in range {
        assert range[x] == x;
      }
    }
    DistinctSetCard(ord);
    DistinctSetCard(range);
  }

  /** Index of x in s. */
  function Position(s: seq<nat>, x: nat): (p: nat)
    requires x in s
    ensures p < |s| && s[p] == x
  {
    if s[0] == x then 0 else 1 + Position(s[1..], x)
  }

  /** Each label replaced by its cluster's position in ord (labels outside ord are kept). */
  function Renumber(labels: seq<int>, ord: seq<nat>): (r: seq<int>)
    ensures |r| == |labels|
  {
    seq(|labels|, i requires 0 <= i < |labels| =>
      if labels[i] >= 0 && labels[i] as nat in ord then Position(ord, labels[i] as nat) else labels[i])
  }

  /** The centroid at new number p is the one that had number ord[p]. */
  function Permute<T>(c: seq<T>, ord: seq<nat>): (r: seq<T>)
    requires forall p :: 0 <= p < |ord| ==> ord[p] < |c|
    ensures |r| == |ord|
  {
    seq(|ord|, p requires 0 <= p < |ord| => c[ord[p]])
  }
}

/** The renumbering is a bijection that keeps each row with its centroid and numbers clusters by first use. */
module RelabelFacts {
  import opened Clusters
  import opened Relabel

  lemma {:induction false} PositionOfDistinct(s: seq<nat>, p: nat)
    requires Distinct(s) && p < |s|
    ensures Position(s, s[p]) == p
  {
    if p > 0 {
      assert s[0] != s[p];
      assert s[1..][p - 1] == s[p];
      PositionOfDistinct(s[1..], p - 1);
    }
  }

  /**
   * Renumbering keeps every label in range and keeps every row with the
   * centroid it had: the centroid at a row's new number is the centroid at
   * its old number.
   */
  lemma RenumberKeepsCentroid<T>(labels: seq<int>, c: seq<T>, k: nat)
    requires ValidLabels(labels, |labels|, k) && |c| == k
    ensures var ord := AppearanceOrder(labels, k);
      ValidLabels(Renumber(labels, ord), |labels|, k) &&
      |Permute(c, ord)| == k &&
      forall r :: 0 <= r < |labels| ==> Permute(c, ord)[Renumber(labels, ord)[r]] == c[labels[r]]
  {
  }

  /** The clusters seen in a prefix of the rows are a prefix of those seen in all rows. */
  lemma {:induction false} SeenPrefix(labels: seq<int>, r: nat, k: nat)
    requires r <= |labels|
    ensures Seen(labels[..r], k) <= Seen(labels, k)
    decreases |labels| - r
  {
    if r < |labels| {
      SeenPrefix(labels[..|labels| - 1], r, k);
      assert labels[..|labels| - 1][..r] == labels[..r];
    } else {
      assert labels[..r] == labels;
    }
  }

  /**
   * Numbering by first appearance: a row whose cluster no earlier row
   * carries gets the next unused number, the count of distinct clusters
   * among the earlier rows; a row whose cluster appeared before gets one of
   * the numbers already handed out.
   */
  lemma FirstAppearanceNumbering(labels: seq<int>, k: nat, r: nat)
    requires ValidLabels(labels, |labels|, k) && r < |labels|
    ensures var before := |Seen(labels[..r], k)|;
      var renumbered := Renumber(labels, AppearanceOrder(labels, k));
      (labels[r] in labels[..r] ==> renumbered[r] < before) &&
      (labels[r] !in labels[..r] ==> renumbered[r] == before)
  {
    var ord := AppearanceOrder(labels, k);
    var s := Seen(labels[..r], k);
    var x := labels[r];
    SeenPrefix(labels, r + 1, k);
    assert labels[..r + 1][..r] == labels[..r];
    assert labels[..r + 1] == labels[..r] + [x];
    var s1 := Seen(labels[..r + 1], k);
    assert s1 <= ord;
    if x in labels[..r] {
      assert x in s;
      var p := Position(s, x);
      assert s1 == s;
      assert ord[p] == x;
      PositionOfDistinct(ord, p);
    } else {
      assert x !in s;
      assert s1 == s + [x];
      assert ord[|s|] == x;
      PositionOfDistinct(ord, |s|);
    }
  }
}
