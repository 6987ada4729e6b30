/**
 * The mean of a cluster's rows is the point with the least sum of squared
 * distances to them: for every point c,
 *   cost(c) = cost(mean) + count * |c - mean|^2.
 * Stated over reals and carried over to the double model when the
 * centroids involved are finite.
 */
module MeanOptimality {
  import opened Doubles
  import opened Clusters
  import opened ClusterFacts

  /** The values of a finite point. */
  function Vals(p: seq<Dbl>): (v: seq<real>)
    requires IsFinite(p)
    ensures |v| == |p| && forall j :: 0 <= j < |p| ==> p[j] == Fin(v[j])
  {
    seq(|p|, j requires 0 <= j < |p| => p[j].v)
  }

  function RSqDist(x: seq<real>, c: seq<real>, upto: nat): real
    requires upto <= |x| && upto <= |c|
  {
    if upto == 0 then 0.0
    else RSqDist(x, c, upto - 1) + (x[upto - 1] - c[upto - 1]) * (x[upto - 1] - c[upto - 1])
  }

  function RClusterCost(X: seq<seq<real>>, labels: seq<int>, c: seq<real>, i: int, upto: nat): real
    requires upto <= |labels| == |X|
    requires forall r :: 0 <= r < upto ==> |X[r]| == |c|
  {
    if upto == 0 then 0.0
    else if labels[upto - 1] == i then RClusterCost(X, labels, c, i, upto - 1) + RSqDist(X[upto - 1], c, |c|)
    else RClusterCost(X, labels, c, i, upto - 1)
  }

  lemma {:induction false} SqDistReal(x: seq<real>, p: seq<Dbl>, upto: nat)
    requires upto <= |x| && upto <= |p| && IsFinite(p)
    ensures SqDist(x, p, upto) == Fin(RSqDist(x, Vals(p), upto))
  {
    if upto > 0 {
      SqDistReal(x, p, upto - 1);
      SqDiffReal(x[upto - 1], Vals(p)[upto - 1]);
    }
  }

  lemma SqDiffReal(x: real, c: real)
    ensures SqDiff(x, Fin(c)) == Fin((x - c) * (x - c))
  {
  }

  /** With a finite centroid, the double cost of a cluster is its real cost. */
  lemma {:induction false} ClusterCostReal(X: seq<seq<real>>, labels: seq<int>, p: seq<Dbl>, i: int, upto: nat)
    requires upto <= |labels| == |X| && IsFinite(p)
    requires forall r :: 0 <= r < upto ==> |X[r]| == |p|
    ensures ClusterCost(X, labels, p, i, upto) == Fin(RClusterCost(X, labels, Vals(p), i, upto))
  {
    if upto > 0 {
      ClusterCostReal(X, labels, p, i, upto - 1);
      if labels[upto - 1] == i {
        SqDistReal(X[upto - 1], p, |p|);
      }
    }
  }

  /** A cluster without rows costs nothing, whatever its centroid. */
  lemma {:induction false} EmptyClusterCost(X: seq<seq<real>>, labels: seq<int>, p: seq<Dbl>, i: int, upto: nat)
    requires upto <= |labels| == |X|
    requires forall r :: 0 <= r < upto ==> |X[r]| == |p|
    requires Count(labels, i, upto) == 0
    ensures ClusterCost(X, labels, p, i, upto) == Fin(0.0)
  {
    if upto > 0 {
      EmptyClusterCost(X, labels, p, i, upto - 1);
    }
  }

  /**
   * a * x.  The expansion lemmas state their products through this function,
   * so that a caller's terms match them by congruence alone.
   */
  function Scale(a: real, x: real): real {
    a * x
  }

  // The expansion |x - c|^2 = |x|^2 - 2 x.c + |c|^2, summed over a cluster.

  function RowSq(x: seq<real>, upto: nat): real
    requires upto <= |x|
  {
    if upto == 0 then 0.0 else RowSq(x, upto - 1) + Scale(x[upto - 1], x[upto - 1])
  }

  function RowDot(x: seq<real>, c: seq<real>, upto: nat): real
    requires upto <= |x| && upto <= |c|
  {
    if upto == 0 then 0.0 else RowDot(x, c, upto - 1) + x[upto - 1] * c[upto - 1]
  }

  function MemberSq(X: seq<seq<real>>, labels: seq<int>, i: int, n: nat, upto: nat): real
    requires upto <= |labels| == |X| && Rectangular(X, n)
  {
    if upto == 0 then 0.0
    else MemberSq(X, labels, i, n, upto - 1) + (if labels[upto - 1] == i then RowSq(X[upto - 1], n) else 0.0)
  }

  /** sum over j < jj of c[j] * (column sum j of the cluster's first `upto` rows) */
  function Cross(X: seq<seq<real>>, labels: seq<int>, i: int, c: seq<real>, upto: nat, jj: nat): real
    requires upto <= |labels| == |X| && jj <= |c|
    requires forall r :: 0 <= r < upto ==> |X[r]| == |c|
  {
    if jj == 0 then 0.0
    else Cross(X, labels, i, c, upto, jj - 1) + Scale(c[jj - 1], SumCol(X, labels, i, jj - 1, upto))
  }

  lemma {:induction false} RowExpand(x: seq<real>, c: seq<real>, jj: nat)
    requires jj <= |x| && jj <= |c|
    ensures RSqDist(x, c, jj) == RowSq(x, jj) - 2.0 * RowDot(x, c, jj) + RowSq(c, jj)
  {
    if jj > 0 {
      RowExpand(x, c, jj - 1);
      var a, b := x[jj - 1], c[jj - 1];
      assert (a - b) * (a - b) == a * a - 2.0 * (a * b) + b * b;
    }
  }

  lemma {:induction false} CrossStep(X: seq<seq<real>>, labels: seq<int>, i: int, c: seq<real>, upto: nat, jj: nat)
    requires upto < |labels| == |X| && jj <= |c|
    requires forall r :: 0 <= r <= upto ==> |X[r]| == |c|
    ensures Cross(X, labels, i, c, upto + 1, jj)
         == Cross(X, labels, i, c, upto, jj) + (if labels[upto] == i then RowDot(X[upto], c, jj) else 0.0)
  {
    if jj > 0 {
      CrossStep(X, labels, i, c, upto, jj - 1);
      if labels[upto] == i {
        var s := SumCol(X, labels, i, jj - 1, upto);
        var x := X[upto][jj - 1];
        assert c[jj - 1] * (s + x) == c[jj - 1] * s + x * c[jj - 1];
      }
    }
  }

  /** Against no rows, the cross term is zero whatever the point. */
  lemma {:induction false} CrossNoRows(X: seq<seq<real>>, labels: seq<int>, i: int, c: seq<real>, jj: nat)
    requires |labels| == |X| && jj <= |c|
    ensures Cross(X, labels, i, c, 0, jj) == 0.0
  {
    if jj > 0 {
      CrossNoRows(X, labels, i, c, jj - 1);
    }
  }

  /** cost(c) = (sum of |x|^2 over members) - 2 c.(column sums) + count * |c|^2 */
  lemma {:induction false} CostExpand(X: seq<seq<real>>, labels: seq<int>, i: int, c: seq<real>, n: nat, upto: nat)
    requires upto <= |labels| == |X| && |c| == n && Rectangular(X, n)
    ensures RClusterCost(X, labels, c, i, upto)
         == MemberSq(X, labels, i, n, upto) - 2.0 * Cross(X, labels, i, c, upto, n)
            + Scale(Count(labels, i, upto) as real, RowSq(c, n))
  {
    if upto == 0 {
      CrossNoRows(X, labels, i, c, n);
    } else {
      CostExpand(X, labels, i, c, n, upto - 1);
      CrossStep(X, labels, i, c, upto - 1, n);
      var member := labels[upto - 1] == i;
      if member {
        RowExpand(X[upto - 1], c, n);
        assert RClusterCost(X, labels, c, i, upto) == RClusterCost(X, labels, c, i, upto - 1) + RSqDist(X[upto - 1], c, n);
        assert MemberSq(X, labels, i, n, upto) == MemberSq(X, labels, i, n, upto - 1) + RowSq(X[upto - 1], n);
      }
      ExpandStep(RClusterCost(X, labels, c, i, upto - 1), MemberSq(X, labels, i, n, upto - 1),
                 Cross(X, labels, i, c, upto - 1, n), Count(labels, i, upto - 1) as real,
                 RClusterCost(X, labels, c, i, upto), MemberSq(X, labels, i, n, upto),
                 Cross(X, labels, i, c, upto, n), Count(labels, i, upto) as real,
                 RowSq(c, n), RowSq(X[upto - 1], n), RowDot(X[upto - 1], c, n), member);
    }
  }

  /** One row's step of the expansion, over plain reals. */
  lemma ExpandStep(k0: real, m0: real, c0: real, n0: real, k1: real, m1: real, c1: real, n1: real,
                   r: real, xx: real, xc: real, member: bool)
    requires k0 == m0 - 2.0 * c0 + Scale(n0, r)
    requires member ==> k1 == k0 + (xx - 2.0 * xc + r) && m1 == m0 + xx && c1 == c0 + xc && n1 == n0 + 1.0
    requires !member ==> k1 == k0 && m1 == m0 && c1 == c0 && n1 == n0
    ensures k1 == m1 - 2.0 * c1 + Scale(n1, r)
  {
    if member {
      assert (n0 + 1.0) * r == n0 * r + r;
    }
  }

  /**
   * The c-dependent part of the expansion exceeds its value at the mean by
   * count * |c - mean|^2 over the first jj columns, so it is never smaller.
   */
  lemma {:induction false} GapNonNeg(X: seq<seq<real>>, labels: seq<int>, i: int, c: seq<real>, mu: seq<real>,
                                     cnt: real, jj: nat)
    requires |labels| == |X| && |c| == |mu| && jj <= |c| && Rectangular(X, |c|) && cnt >= 0.0
    requires forall j :: 0 <= j < |c| ==> SumCol(X, labels, i, j, |X|) == Scale(cnt, mu[j])
    ensures (-2.0 * Cross(X, labels, i, c, |X|, jj) + Scale(cnt, RowSq(c, jj)))
         - (-2.0 * Cross(X, labels, i, mu, |X|, jj) + Scale(cnt, RowSq(mu, jj))) >= 0.0
  {
    if jj > 0 {
      var j := jj - 1;
      GapNonNeg(X, labels, i, c, mu, cnt, j);
      assert SumCol(X, labels, i, j, |X|) == Scale(cnt, mu[j]);
      GapStep(Cross(X, labels, i, c, |X|, j), RowSq(c, j), Cross(X, labels, i, mu, |X|, j), RowSq(mu, j),
              Cross(X, labels, i, c, |X|, jj), RowSq(c, jj), Cross(X, labels, i, mu, |X|, jj), RowSq(mu, jj),
              c[j], mu[j], SumCol(X, labels, i, j, |X|), cnt);
    } else {
      ScaleZero(cnt);
    }
  }

  lemma ScaleZero(cnt: real)
    ensures Scale(cnt, 0.0) == 0.0
  {
  }

  /** One column's share of the gap, count * (a - b)^2 when the column sum is count * b, over plain reals. */
  lemma GapStep(pc: real, p: real, qc: real, q: real, pc1: real, p1: real, qc1: real, q1: real,
                a: real, b: real, s: real, cnt: real)
    requires (-2.0 * pc + Scale(cnt, p)) - (-2.0 * qc + Scale(cnt, q)) >= 0.0
    requires pc1 == pc + Scale(a, s) && p1 == p + Scale(a, a) && qc1 == qc + Scale(b, s) && q1 == q + Scale(b, b)
    requires s == Scale(cnt, b) && cnt >= 0.0
    ensures (-2.0 * pc1 + Scale(cnt, p1)) - (-2.0 * qc1 + Scale(cnt, q1)) >= 0.0
  {
    var d := a - b;
    SquareNonNeg(d);
    ScaleNonNeg(cnt, d * d);
    Distrib(cnt, p, a * a);
    Distrib(cnt, q, b * b);
    Rotate(a, cnt, b);
    Rotate(b, cnt, b);
    SquareExpand(cnt, a, b);
  }

  lemma Rotate(a: real, cnt: real, b: real)
    ensures Scale(a, Scale(cnt, b)) == cnt * (a * b)
  {
  }

  lemma SquareExpand(cnt: real, a: real, b: real)
    ensures cnt * (a * a) - 2.0 * (cnt * (a * b)) + cnt * (b * b) == cnt * ((a - b) * (a - b))
  {
    assert (a - b) * (a - b) == a * a - 2.0 * (a * b) + b * b;
  }

  lemma SquareNonNeg(d: real)
    ensures d * d >= 0.0
  {
    if d < 0.0 {
      assert d * d == (-d) * (-d);
    }
  }

  lemma ScaleNonNeg(c: real, x: real)
    requires c >= 0.0 && x >= 0.0
    ensures c * x >= 0.0
  {
  }

  lemma Distrib(c: real, x: real, y: real)
    ensures c * (x + y) == c * x + c * y
  {
  }

  /**
   * Over the reals: a point whose coordinates are the cluster's column
   * sums divided by its row count costs no more than any other point.
   */
  lemma {:induction false} MeanMinimizesReal(X: seq<seq<real>>, labels: seq<int>, i: int, c: seq<real>, mu: seq<real>)
    requires |labels| == |X| && |c| == |mu| && Rectangular(X, |c|)
    requires forall j :: 0 <= j < |c| ==>
      SumCol(X, labels, i, j, |X|) == Scale(Count(labels, i, |X|) as real, mu[j])
    ensures RClusterCost(X, labels, mu, i, |X|) <= RClusterCost(X, labels, c, i, |X|)
  {
    var n := |c|;
    var cnt := Count(labels, i, |X|) as real;
    GapNonNeg(X, labels, i, c, mu, cnt, n);
    CostExpand(X, labels, i, c, n, |X|);
    CostExpand(X, labels, i, mu, n, |X|);
    Combine(RClusterCost(X, labels, c, i, |X|), RClusterCost(X, labels, mu, i, |X|), MemberSq(X, labels, i, n, |X|),
            Cross(X, labels, i, c, |X|, n), Cross(X, labels, i, mu, |X|, n), Scale(cnt, RowSq(c, n)), Scale(cnt, RowSq(mu, n)));
  }

  lemma Combine(kc: real, kmu: real, m: real, cc: real, cmu: real, rc: real, rmu: real)
    requires kc == m - 2.0 * cc + rc && kmu == m - 2.0 * cmu + rmu
    requires (-2.0 * cc + rc) - (-2.0 * cmu + rmu) >= 0.0
    ensures kmu <= kc
  {
  }

  /**
   * The recomputed centroid of cluster i costs no more than the cluster's
   * previous centroid p, when p is finite or the cluster has no rows: both
   * costs are finite and the new one is at most the old one.  (An empty
   * cluster costs 0 either way, though its new centroid is NaN.)
   */
  lemma {:induction false} NewCentroidNoWorse(X: seq<seq<real>>, labels: seq<int>, i: int, n: nat, p: seq<Dbl>)
    requires |labels| == |X| && Rectangular(X, n) && |p| == n
    requires Count(labels, i, |X|) == 0 || IsFinite(p)
    ensures var before := ClusterCost(X, labels, p, i, |X|);
      var after := ClusterCost(X, labels, NewCentroid(X, labels, i, n), i, |X|);
      before.Fin? && after.Fin? && after.v <= before.v
  {
    var q := NewCentroid(X, labels, i, n);
    var cnt := Count(labels, i, |X|);
    if cnt == 0 {
      EmptyClusterCost(X, labels, q, i, |X|);
      EmptyClusterCost(X, labels, p, i, |X|);
    } else {
      forall j | 0 <= j < n ensures q[j].Fin? {
        NewCentroidIsMean(X, labels, i, n, j);
      }
      var mu := Vals(q);
      forall j | 0 <= j < n ensures SumCol(X, labels, i, j, |X|) == Scale(Count(labels, i, |X|) as real, mu[j]) {
        NewCentroidIsMean(X, labels, i, n, j);
      }
      ClusterCostReal(X, labels, p, i, |X|);
      ClusterCostReal(X, labels, q, i, |X|);
      MeanMinimizesReal(X, labels, i, Vals(p), mu);
    }
  }

  /**
   * The centroid update never raises the cost of the labels it was computed
   * from: with every cluster that has rows holding a finite centroid, the
   * cost against the recomputed centroids is finite and at most the cost
   * against the old ones.
   */
  lemma {:induction false} SystemCostNoWorse(X: seq<seq<real>>, labels: seq<int>, c: seq<seq<Dbl>>, n: nat, kk: nat)
    requires |labels| == |X| && Rectangular(X, n)
    requires kk <= |c| && forall i :: 0 <= i < |c| ==> |c[i]| == n
    requires forall i :: 0 <= i < kk ==> Count(labels, i, |X|) == 0 || IsFinite(c[i])
    ensures var before := SystemCost(X, labels, c, n, kk);
      var after := SystemCost(X, labels, NewCentroids(X, labels, |c|, n), n, kk);
      before.Fin? && after.Fin? && after.v <= before.v
  {
    if kk > 0 {
      SystemCostNoWorse(X, labels, c, n, kk - 1);
      NewCentroidNoWorse(X, labels, kk - 1, n, c[kk - 1]);
    }
  }
}
