/**
 * Per-cluster quantities of one K-Means pass, as functions of the data
 * matrix, the labels of the pass and the centroids the rows are measured
 * against.  Every recursion runs over the rows in index order, and within a
 * row over the columns in index order, which is the order in which the fit
 * accumulates them.
 */
module Clusters {
  import opened Doubles

  /** Every row of the data matrix has n columns. */
  predicate Rectangular(X: seq<seq<real>>, n: nat) {
    forall r :: 0 <= r < |X| ==> |X[r]| == n
  }

  /** k centroids, each with n coordinates. */
  predicate Shaped(c: seq<seq<Dbl>>, k: nat, n: nat) {
    |c| == k && forall i :: 0 <= i < k ==> |c[i]| == n
  }

  /** One label per row, each naming one of the k clusters. */
  predicate ValidLabels(labels: seq<int>, m: nat, k: nat) {
    |labels| == m && forall r :: 0 <= r < m ==> 0 <= labels[r] < k
  }

  /** No coordinate of any centroid is an infinity (a coordinate may be NaN). */
  predicate NoInfinity(c: seq<seq<Dbl>>) {
    forall i, j :: 0 <= i < |c| && 0 <= j < |c[i]| ==> !IsInfinite(c[i][j])
  }

  predicate IsFinite(p: seq<Dbl>) {
    forall j :: 0 <= j < |p| ==> p[j].Fin?
  }

  /** Number of the first `upto` rows labelled i. */
  function Count(labels: seq<int>, i: int, upto: nat): nat
    requires upto <= |labels|
  {
    if upto == 0 then 0
    else Count(labels, i, upto - 1) + (if labels[upto - 1] == i then 1 else 0)
  }

  /** Sum of column j over the first `upto` rows labelled i. */
  function SumCol(X: seq<seq<real>>, labels: seq<int>, i: int, j: nat, upto: nat): real
    requires upto <= |labels| == |X|
    requires forall r :: 0 <= r < upto ==> j < |X[r]|
  {
    if upto == 0 then 0.0
    else SumCol(X, labels, i, j, upto - 1) + (if labels[upto - 1] == i then X[upto - 1][j] else 0.0)
  }

  /**
   * Centroid i recomputed from the labels: column sums of its rows divided
   * by its row count, with the division of doubles (so an empty cluster has
   * 0/0 = NaN in every coordinate).
   */
  function NewCentroid(X: seq<seq<real>>, labels: seq<int>, i: int, n: nat): (p: seq<Dbl>)
    requires |labels| == |X| && Rectangular(X, n)
    ensures |p| == n
  {
    seq(n, j requires 0 <= j < n =>
      Div(Fin(SumCol(X, labels, i, j, |X|)), Fin(Count(labels, i, |X|) as real)))
  }

  /** All k recomputed centroids. */
  function NewCentroids(X: seq<seq<real>>, labels: seq<int>, k: nat, n: nat): (c: seq<seq<Dbl>>)
    requires |labels| == |X| && Rectangular(X, n)
    ensures Shaped(c, k, n)
  {
    seq(k, i requires 0 <= i < k => NewCentroid(X, labels, i, n))
  }

  /** Squared difference of a data value and a centroid coordinate. */
  function SqDiff(x: real, c: Dbl): Dbl {
    var d := Sub(Fin(x), c);
    Mul(d, d)
  }

  /** Squared Euclidean distance of x to c over the first `upto` columns. */
  function SqDist(x: seq<real>, c: seq<Dbl>, upto: nat): Dbl
    requires upto <= |x| && upto <= |c|
  {
    if upto == 0 then Fin(0.0)
    else Add(SqDist(x, c, upto - 1), SqDiff(x[upto - 1], c[upto - 1]))
  }

  /** Sum of squared distances to c of the first `upto` rows labelled i. */
  function ClusterCost(X: seq<seq<real>>, labels: seq<int>, c: seq<Dbl>, i: int, upto: nat): Dbl
    requires upto <= |labels| == |X|
    requires forall r :: 0 <= r < upto ==> |X[r]| == |c|
  {
    if upto == 0 then Fin(0.0)
    else if labels[upto - 1] == i then Add(ClusterCost(X, labels, c, i, upto - 1), SqDist(X[upto - 1], c, |c|))
    else ClusterCost(X, labels, c, i, upto - 1)
  }

  /** Sum over the first `kk` clusters of their cost against centroids c. */
  function SystemCost(X: seq<seq<real>>, labels: seq<int>, c: seq<seq<Dbl>>, n: nat, kk: nat): Dbl
    requires |labels| == |X| && Rectangular(X, n)
    requires kk <= |c| && forall i :: 0 <= i < |c| ==> |c[i]| == n
  {
    if kk == 0 then Fin(0.0)
    else Add(SystemCost(X, labels, c, n, kk - 1), ClusterCost(X, labels, c[kk - 1], kk - 1, |X|))
  }

  /** Within-cluster sums of squares against centroids c. */
  function WSS(X: seq<seq<real>>, labels: seq<int>, c: seq<seq<Dbl>>, n: nat): (w: seq<Dbl>)
    requires |labels| == |X| && Rectangular(X, n)
    requires forall i :: 0 <= i < |c| ==> |c[i]| == n
    ensures |w| == |c|
  {
    seq(|c|, i requires 0 <= i < |c| => ClusterCost(X, labels, c[i], i, |X|))
  }

  /** Left-to-right double sum of a vector. */
  function Sum(s: seq<Dbl>): (r: Dbl)
    ensures (forall i :: 0 <= i < |s| ==> s[i].Fin?) ==> r.Fin?
    ensures (exists i :: 0 <= i < |s| && s[i].NaN?) ==> r.NaN?
  {
    if s == [] then Fin(0.0) else Add(Sum(s[..|s| - 1]), s[|s| - 1])
  }

  function Zeros(m: nat): (z: seq<int>)
    ensures |z| == m && forall r :: 0 <= r < m ==> z[r] == 0
  {
    seq(m, _ => 0)
  }
}

/** What the per-cluster quantities mean: means, and costs that are defined exactly when they should be. */
module ClusterFacts {
  import opened Doubles
  import opened Clusters

  lemma {:induction false} EmptySum(X: seq<seq<real>>, labels: seq<int>, i: int, j: nat, upto: nat)
    requires upto <= |labels| == |X|
    requires forall r :: 0 <= r < upto ==> j < |X[r]|
    requires Count(labels, i, upto) == 0
    ensures SumCol(X, labels, i, j, upto) == 0.0
  {
    if upto > 0 {
      EmptySum(X, labels, i, j, upto - 1);
    }
  }

  /**
   * A recomputed centroid is the coordinate-wise mean of its rows when the
   * cluster has rows, and NaN in every coordinate when it has none.
   */
  lemma NewCentroidIsMean(X: seq<seq<real>>, labels: seq<int>, i: int, n: nat, j: nat)
    requires |labels| == |X| && Rectangular(X, n) && j < n
    ensures Count(labels, i, |X|) > 0 ==>
      NewCentroid(X, labels, i, n)[j] == Fin(SumCol(X, labels, i, j, |X|) / Count(labels, i, |X|) as real)
    ensures Count(labels, i, |X|) == 0 <==> NewCentroid(X, labels, i, n)[j] == NaN
  {
    if Count(labels, i, |X|) == 0 {
      EmptySum(X, labels, i, j, |X|);
    }
  }

  lemma SqDiffRange(x: real, c: Dbl)
    requires !IsInfinite(c)
    ensures NonNegOrNaN(SqDiff(x, c))
    ensures SqDiff(x, c).Fin? <==> c.Fin?
  {
    if c.Fin? {
      var d := x - c.v;
      assert SqDiff(x, c) == Fin(d * d);
      assert d * d >= 0.0;
    }
  }

  /** Adding two values that are each non-negative or NaN. */
  lemma AddNonNeg(a: Dbl, b: Dbl)
    requires NonNegOrNaN(a) && NonNegOrNaN(b)
    ensures NonNegOrNaN(Add(a, b))
    ensures Add(a, b).Fin? <==> a.Fin? && b.Fin?
  {
  }

  /** A squared distance is non-negative, and defined exactly when the centroid's coordinates are finite. */
  lemma {:induction false} SqDistRange(x: seq<real>, c: seq<Dbl>, upto: nat)
    requires upto <= |x| && upto <= |c|
    requires forall j :: 0 <= j < upto ==> !IsInfinite(c[j])
    ensures NonNegOrNaN(SqDist(x, c, upto))
    ensures SqDist(x, c, upto).Fin? <==> forall j :: 0 <= j < upto ==> c[j].Fin?
  {
    if upto > 0 {
      SqDistRange(x, c, upto - 1);
      SqDiffRange(x[upto - 1], c[upto - 1]);
      AddNonNeg(SqDist(x, c, upto - 1), SqDiff(x[upto - 1], c[upto - 1]));
      assert (forall j :: 0 <= j < upto ==> c[j].Fin?) <==>
             (forall j :: 0 <= j < upto - 1 ==> c[j].Fin?) && c[upto - 1].Fin?;
    }
  }

  /**
   * A cluster's cost is non-negative, and defined exactly when the cluster
   * has no rows or its centroid is finite.
   */
  lemma {:induction false} ClusterCostRange(X: seq<seq<real>>, labels: seq<int>, c: seq<Dbl>, i: int, upto: nat)
    requires upto <= |labels| == |X|
    requires forall r :: 0 <= r < upto ==> |X[r]| == |c|
    requires forall j :: 0 <= j < |c| ==> !IsInfinite(c[j])
    ensures NonNegOrNaN(ClusterCost(X, labels, c, i, upto))
    ensures ClusterCost(X, labels, c, i, upto).Fin? <==> Count(labels, i, upto) == 0 || IsFinite(c)
  {
    if upto > 0 {
      ClusterCostRange(X, labels, c, i, upto - 1);
      if labels[upto - 1] == i {
        SqDistRange(X[upto - 1], c, |c|);
        AddNonNeg(ClusterCost(X, labels, c, i, upto - 1), SqDist(X[upto - 1], c, |c|));
      }
    }
  }

  /**
   * The cost of a pass is non-negative whatever the labels are, and defined
   * exactly when every cluster with rows has a finite centroid.
   */
  lemma {:induction false} SystemCostRange(X: seq<seq<real>>, labels: seq<int>, c: seq<seq<Dbl>>, n: nat, kk: nat)
    requires |labels| == |X| && Rectangular(X, n)
    requires kk <= |c| && forall i :: 0 <= i < |c| ==> |c[i]| == n
    requires NoInfinity(c)
    ensures NonNegOrNaN(SystemCost(X, labels, c, n, kk))
    ensures SystemCost(X, labels, c, n, kk).Fin? <==>
      forall i :: 0 <= i < kk ==> Count(labels, i, |X|) == 0 || IsFinite(c[i])
  {
    if kk > 0 {
      SystemCostRange(X, labels, c, n, kk - 1);
      ClusterCostRange(X, labels, c[kk - 1], kk - 1, |X|);
      AddNonNeg(SystemCost(X, labels, c, n, kk - 1), ClusterCost(X, labels, c[kk - 1], kk - 1, |X|));
    }
  }

  /** Recomputed centroids never hold an infinity: each coordinate is a finite mean or NaN. */
  lemma NewCentroidsNoInfinity(X: seq<seq<real>>, labels: seq<int>, k: nat, n: nat)
    requires |labels| == |X| && Rectangular(X, n)
    ensures NoInfinity(NewCentroids(X, labels, k, n))
  {
    var c := NewCentroids(X, labels, k, n);
    forall i, j | 0 <= i < k && 0 <= j < n ensures !IsInfinite(c[i][j]) {
      NewCentroidIsMean(X, labels, i, n, j);
    }
  }
}

/** The mean of all rows, as one cluster holding every row. */
module Records {
  import opened Doubles
  import opened Clusters
  import opened ClusterFacts

  /** Column means of the data matrix: the centroid of the single cluster that holds every row. */
  function MeanRecord(X: seq<seq<real>>, n: nat): (p: seq<Dbl>)
    requires Rectangular(X, n)
    ensures |p| == n
  {
    NewCentroid(X, Zeros(|X|), 0, n)
  }

  lemma {:induction false} ZerosCountAll(m: nat, upto: nat)
    requires upto <= m
    ensures Count(Zeros(m), 0, upto) == upto
  {
    if upto > 0 {
      ZerosCountAll(m, upto - 1);
    }
  }

  /**
   * The mean record of a non-empty matrix is the column sums divided by the
   * row count; of an empty matrix it is NaN in every column.
   */
  lemma MeanRecordIsColumnMean(X: seq<seq<real>>, n: nat, j: nat)
    requires Rectangular(X, n) && j < n
    ensures |X| > 0 ==> MeanRecord(X, n)[j] == Fin(SumCol(X, Zeros(|X|), 0, j, |X|) / |X| as real)
    ensures |X| == 0 ==> MeanRecord(X, n)[j] == NaN
  {
    ZerosCountAll(|X|, |X|);
    NewCentroidIsMean(X, Zeros(|X|), 0, n, j);
  }
}
