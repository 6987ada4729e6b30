/**
 * Lloyd's descent property: in exact arithmetic and with an assigner that
 * labels every row with its nearest centroid in squared Euclidean distance,
 * no pass of the fit raises tss.  The pass's cost is measured against the
 * centroids the assigner saw, so it is at most the cost of the previous
 * labels against those centroids, which the centroid update already made no
 * larger than the previous tss.
 */
module CostDescent {
  import opened Doubles
  import opened Clusters
  import opened ClusterFacts
  import opened MeanOptimality
  import opened Lloyd
  import opened Relabel
  import opened RelabelFacts

  /** Every row is labelled with a cluster whose centroid is finite. */
  predicate UsesFinite(X: seq<seq<real>>, labels: seq<int>, c: seq<seq<Dbl>>) {
    |labels| == |X| && forall r :: 0 <= r < |labels| ==> 0 <= labels[r] < |c| && IsFinite(c[labels[r]])
  }

  /** Squared distance of row r to the centroid of its own cluster. */
  function RowCost(X: seq<seq<real>>, n: nat, labels: seq<int>, c: seq<seq<Dbl>>, r: nat): real
    requires Rectangular(X, n) && Shaped(c, |c|, n) && UsesFinite(X, labels, c) && r < |X|
  {
    RSqDist(X[r], Vals(c[labels[r]]), n)
  }

  /** Sum of the row costs of the first `upto` rows. */
  function RowsTotal(X: seq<seq<real>>, n: nat, labels: seq<int>, c: seq<seq<Dbl>>, upto: nat): real
    requires Rectangular(X, n) && Shaped(c, |c|, n) && UsesFinite(X, labels, c) && upto <= |X|
  {
    if upto == 0 then 0.0 else RowsTotal(X, n, labels, c, upto - 1) + RowCost(X, n, labels, c, upto - 1)
  }

  /** Sum of the row costs of the first `upto` rows labelled i. */
  function ClusterRows(X: seq<seq<real>>, n: nat, labels: seq<int>, c: seq<seq<Dbl>>, i: int, upto: nat): real
    requires Rectangular(X, n) && Shaped(c, |c|, n) && UsesFinite(X, labels, c) && upto <= |X|
  {
    if upto == 0 then 0.0
    else ClusterRows(X, n, labels, c, i, upto - 1) + (if labels[upto - 1] == i then RowCost(X, n, labels, c, upto - 1) else 0.0)
  }

  /** ClusterRows summed over the first kk clusters. */
  function ClustersTotal(X: seq<seq<real>>, n: nat, labels: seq<int>, c: seq<seq<Dbl>>, kk: nat, upto: nat): real
    requires Rectangular(X, n) && Shaped(c, |c|, n) && UsesFinite(X, labels, c) && upto <= |X|
  {
    if kk == 0 then 0.0 else ClustersTotal(X, n, labels, c, kk - 1, upto) + ClusterRows(X, n, labels, c, kk - 1, upto)
  }

  /** The double cost of cluster i is the real sum of its rows' costs. */
  lemma {:induction false} ClusterCostIsRows(X: seq<seq<real>>, n: nat, labels: seq<int>, c: seq<seq<Dbl>>,
                                             i: nat, upto: nat)
    requires Rectangular(X, n) && Shaped(c, |c|, n) && UsesFinite(X, labels, c) && upto <= |X| && i < |c|
    ensures ClusterCost(X, labels, c[i], i, upto) == Fin(ClusterRows(X, n, labels, c, i, upto))
  {
    if upto > 0 {
      ClusterCostIsRows(X, n, labels, c, i, upto - 1);
      if labels[upto - 1] == i {
        SqDistReal(X[upto - 1], c[i], n);
      }
    }
  }

  lemma {:induction false} SystemCostIsClusters(X: seq<seq<real>>, n: nat, labels: seq<int>, c: seq<seq<Dbl>>, kk: nat)
    requires Rectangular(X, n) && Shaped(c, |c|, n) && UsesFinite(X, labels, c) && kk <= |c|
    ensures SystemCost(X, labels, c, n, kk) == Fin(ClustersTotal(X, n, labels, c, kk, |X|))
  {
    if kk > 0 {
      SystemCostIsClusters(X, n, labels, c, kk - 1);
      ClusterCostIsRows(X, n, labels, c, kk - 1, |X|);
    }
  }

  /** Adding row upto-1 adds its cost to the one cluster among the first kk that holds it. */
  lemma {:induction false} ClustersTotalStep(X: seq<seq<real>>, n: nat, labels: seq<int>, c: seq<seq<Dbl>>,
                                             kk: nat, upto: nat)
    requires Rectangular(X, n) && Shaped(c, |c|, n) && UsesFinite(X, labels, c) && 0 < upto <= |X|
    ensures ClustersTotal(X, n, labels, c, kk, upto)
         == ClustersTotal(X, n, labels, c, kk, upto - 1)
            + (if labels[upto - 1] < kk then RowCost(X, n, labels, c, upto - 1) else 0.0)
  {
    if kk > 0 {
      ClustersTotalStep(X, n, labels, c, kk - 1, upto);
    }
  }

  lemma {:induction false} ClustersAreRows(X: seq<seq<real>>, n: nat, labels: seq<int>, c: seq<seq<Dbl>>, upto: nat)
    requires Rectangular(X, n) && Shaped(c, |c|, n) && UsesFinite(X, labels, c) && upto <= |X|
    ensures ClustersTotal(X, n, labels, c, |c|, upto) == RowsTotal(X, n, labels, c, upto)
  {
    if upto == 0 {
      ClustersTotalNoRows(X, n, labels, c, |c|);
    } else {
      ClustersAreRows(X, n, labels, c, upto - 1);
      ClustersTotalStep(X, n, labels, c, |c|, upto);
    }
  }

  lemma {:induction false} ClustersTotalNoRows(X: seq<seq<real>>, n: nat, labels: seq<int>, c: seq<seq<Dbl>>, kk: nat)
    requires Rectangular(X, n) && Shaped(c, |c|, n) && UsesFinite(X, labels, c)
    ensures ClustersTotal(X, n, labels, c, kk, 0) == 0.0
  {
    if kk > 0 {
      ClustersTotalNoRows(X, n, labels, c, kk - 1);
    }
  }

  /**
   * The pass's cost, accumulated cluster by cluster, is the sum over all
   * rows of each row's squared distance to its own cluster's centroid.
   */
  lemma SystemCostIsRows(X: seq<seq<real>>, n: nat, labels: seq<int>, c: seq<seq<Dbl>>)
    requires Rectangular(X, n) && Shaped(c, |c|, n) && UsesFinite(X, labels, c)
    ensures SystemCost(X, labels, c, n, |c|) == Fin(RowsTotal(X, n, labels, c, |X|))
  {
    SystemCostIsClusters(X, n, labels, c, |c|);
    ClustersAreRows(X, n, labels, c, |X|);
  }

  /** Row by row no dearer labels give a total that is no dearer. */
  lemma {:induction false} RowsTotalLe(X: seq<seq<real>>, n: nat, l1: seq<int>, l2: seq<int>, c: seq<seq<Dbl>>, upto: nat)
    requires Rectangular(X, n) && Shaped(c, |c|, n) && UsesFinite(X, l1, c) && UsesFinite(X, l2, c) && upto <= |X|
    requires forall r :: 0 <= r < upto ==> RowCost(X, n, l2, c, r) <= RowCost(X, n, l1, c, r)
    ensures RowsTotal(X, n, l2, c, upto) <= RowsTotal(X, n, l1, c, upto)
  {
    if upto > 0 {
      RowsTotalLe(X, n, l1, l2, c, upto - 1);
    }
  }

  lemma {:induction false} OwnLabelCounted(labels: seq<int>, r: nat, upto: nat)
    requires r < upto <= |labels|
    ensures Count(labels, labels[r], upto) > 0
  {
    if r < upto - 1 {
      OwnLabelCounted(labels, r, upto - 1);
    }
  }

  lemma {:induction false} CountedHasRow(labels: seq<int>, i: int, upto: nat)
    requires upto <= |labels| && Count(labels, i, upto) > 0
    ensures exists r :: 0 <= r < upto && labels[r] == i
  {
    if labels[upto - 1] != i {
      CountedHasRow(labels, i, upto - 1);
    }
  }

  /** Recomputing the centroids from labels gives every labelled row a finite centroid. */
  lemma NewCentroidsUsedFinite(X: seq<seq<real>>, n: nat, labels: seq<int>, k: nat)
    requires Rectangular(X, n) && ValidLabels(labels, |X|, k)
    ensures UsesFinite(X, labels, NewCentroids(X, labels, k, n))
  {
    var c := NewCentroids(X, labels, k, n);
    forall r | 0 <= r < |labels| ensures IsFinite(c[labels[r]]) {
      OwnLabelCounted(labels, r, |labels|);
      forall j | 0 <= j < n ensures c[labels[r]][j].Fin? {
        NewCentroidIsMean(X, labels, labels[r], n, j);
      }
    }
  }

  /**
   * The labels pick, for every row, a finite centroid no farther (in squared
   * Euclidean distance) than any other finite centroid.
   */
  ghost predicate Nearest(X: seq<seq<real>>, n: nat, c: seq<seq<Dbl>>, labels: seq<int>)
    requires Rectangular(X, n) && Shaped(c, |c|, n)
  {
    && UsesFinite(X, labels, c)
    && forall r, i :: 0 <= r < |X| && 0 <= i < |c| && IsFinite(c[i]) ==>
         RowCost(X, n, labels, c, r) <= RSqDist(X[r], Vals(c[i]), n)
  }

  /** The assigner either fails or answers with nearest-centroid labels. */
  ghost predicate NearestAssigner(cfg: Config, assign: Assigner)
    requires ConfigValid(cfg)
  {
    forall c :: Shaped(c, cfg.k, cfg.n) && assign(c).Labels? ==> Nearest(cfg.X, cfg.n, c, assign(c).labels)
  }

  /**
   * The loop's invariant for descent: once there are labels, every row's
   * centroid is finite and the cost of the labels against the current
   * centroids is at most tss.
   */
  ghost predicate Descending(cfg: Config, st: LoopState)
    requires ConfigValid(cfg)
  {
    && Shaped(st.centroids, cfg.k, cfg.n)
    && (st.labels.Some? ==>
          && ValidLabels(st.labels.value, |cfg.X|, cfg.k)
          && UsesFinite(cfg.X, st.labels.value, st.centroids)
          && st.tss.Fin?
          && RowsTotal(cfg.X, cfg.n, st.labels.value, st.centroids, |cfg.X|) <= st.tss.v)
  }

  /**
   * A pass with nearest-centroid labels keeps the invariant and, after the
   * first pass, never raises tss: the new tss is finite and at most the
   * previous one.
   */
  lemma PassNeverRaisesCost(cfg: Config, st: LoopState, labels: seq<int>)
    requires ConfigValid(cfg) && Shaped(st.centroids, cfg.k, cfg.n) && Descending(cfg, st)
    requires Nearest(cfg.X, cfg.n, st.centroids, labels) && ValidLabels(labels, |cfg.X|, cfg.k)
    ensures var next := Step(cfg, st, labels);
      Descending(cfg, next) && (st.labels.Some? ==> next.tss.Fin? && next.tss.v <= st.tss.v)
  {
    var X, n, k, c := cfg.X, cfg.n, cfg.k, st.centroids;
    var next := Step(cfg, st, labels);
    SystemCostIsRows(X, n, labels, c);
    if st.labels.Some? {
      var prior := st.labels.value;
      forall r | 0 <= r < |X| ensures RowCost(X, n, labels, c, r) <= RowCost(X, n, prior, c, r) {
        assert IsFinite(c[prior[r]]);
      }
      RowsTotalLe(X, n, prior, labels, c, |X|);
    }
    var c1 := NewCentroids(X, labels, k, n);
    NewCentroidsUsedFinite(X, n, labels, k);
    forall i | 0 <= i < k ensures Count(labels, i, |X|) == 0 || IsFinite(c[i]) {
      if Count(labels, i, |X|) > 0 {
        CountedHasRow(labels, i, |X|);
      }
    }
    SystemCostNoWorse(X, labels, c, n, k);
    SystemCostIsRows(X, n, labels, c1);
  }

  /** The last pass did not raise tss (vacuous before the second pass, when the previous tss is +infinity). */
  predicate LastPassDescends(st: LoopState) {
    st.prevTss != PosInf ==> st.prevTss.Fin? && st.tss.Fin? && st.tss.v <= st.prevTss.v
  }

  /**
   * What the pass counter says about the costs: tss is +infinity exactly
   * before the first pass, and from the second pass on the previous tss is
   * finite (under a nearest-centroid assigner every pass's cost is).
   */
  predicate Counted(st: LoopState) {
    && (st.labels.None? <==> st.tss == PosInf)
    && (st.iter >= 1 ==> st.labels.Some?)
    && (st.iter >= 2 ==> st.prevTss.Fin?)
  }

  /**
   * With a nearest-centroid assigner, every state the loop passes through
   * keeps the invariant and has a last pass that did not raise tss, so the
   * state the loop finishes in has both.
   */
  lemma {:induction false} LoopNeverRaisesCost(cfg: Config, assign: Assigner, st: LoopState)
    requires ConfigValid(cfg) && AssignerValid(assign, |cfg.X|, cfg.k) && NearestAssigner(cfg, assign)
    requires Descending(cfg, st) && LastPassDescends(st) && Counted(st)
    ensures var r := Loop(cfg, assign, st);
      r.Finished? ==> Descending(cfg, r.st) && LastPassDescends(r.st) && Counted(r.st)
    decreases cfg.maxIter - st.iter
  {
    if st.iter < cfg.maxIter {
      match assign(st.centroids)
      case NonFinite =>
      case Labels(l) =>
        PassNeverRaisesCost(cfg, st, l);
        var next := Step(cfg, st, l);
        if !Converged(cfg, next) {
          LoopNeverRaisesCost(cfg, assign, next);
        }
    }
  }

  /** From the seed centroids: the pass the fit ends on never raised tss. */
  lemma FitNeverRaisesCost(cfg: Config, assign: Assigner, seeds: seq<seq<Dbl>>)
    requires ConfigValid(cfg) && AssignerValid(assign, |cfg.X|, cfg.k) && NearestAssigner(cfg, assign)
    requires Shaped(seeds, cfg.k, cfg.n)
    ensures var r := Loop(cfg, assign, Start(seeds));
      r.Finished? && r.st.iter >= 2 ==> r.st.prevTss.Fin? && r.st.tss.Fin? && r.st.tss.v <= r.st.prevTss.v
  {
    LoopNeverRaisesCost(cfg, assign, Start(seeds));
  }

  /** The within-cluster sums of squares add up, in the same order, to the system cost. */
  lemma {:induction false} SumOfWSS(X: seq<seq<real>>, labels: seq<int>, c: seq<seq<Dbl>>, n: nat, kk: nat)
    requires |labels| == |X| && Rectangular(X, n) && kk <= |c| && forall i :: 0 <= i < |c| ==> |c[i]| == n
    ensures Sum(WSS(X, labels, c, n)[..kk]) == SystemCost(X, labels, c, n, kk)
  {
    if kk > 0 {
      var w := WSS(X, labels, c, n);
      SumOfWSS(X, labels, c, n, kk - 1);
      assert w[..kk][..kk - 1] == w[..kk - 1];
    }
  }

  /**
   * After the final renumbering, under a nearest-centroid assigner, the
   * within-cluster sums of squares add up to a finite total no larger than
   * tss, so bss = tss - sum(wss) is finite, non-negative, and
   * bss + sum(wss) == tss.
   */
  lemma BssNonNegative(cfg: Config, st: LoopState)
    requires ConfigValid(cfg) && Descending(cfg, st) && st.labels.Some?
    ensures var ord := AppearanceOrder(st.labels.value, cfg.k);
      var labels := Renumber(st.labels.value, ord);
      var centroids := Permute(st.centroids, ord);
      var total := Sum(WSS(cfg.X, labels, centroids, cfg.n));
      var bss := Sub(st.tss, total);
      total.Fin? && bss.Fin? && bss.v >= 0.0 && bss.v + total.v == st.tss.v
  {
    var X, n, k, l, c := cfg.X, cfg.n, cfg.k, st.labels.value, st.centroids;
    var ord := AppearanceOrder(l, k);
    var l1 := Renumber(l, ord);
    var c1 := Permute(c, ord);
    RenumberKeepsCentroid(l, c, k);
    assert Shaped(c1, k, n);
    assert UsesFinite(X, l1, c1);
    forall r | 0 <= r < |X| ensures RowCost(X, n, l1, c1, r) == RowCost(X, n, l, c, r) {
      assert c1[l1[r]] == c[l[r]];
    }
    RowsTotalSame(X, n, l, c, l1, c1, |X|);
    SystemCostIsRows(X, n, l1, c1);
    SumOfWSS(X, l1, c1, n, k);
    assert WSS(X, l1, c1, n)[..k] == WSS(X, l1, c1, n);
  }

  /** Row costs that agree row by row give the same total. */
  lemma {:induction false} RowsTotalSame(X: seq<seq<real>>, n: nat, l1: seq<int>, c1: seq<seq<Dbl>>,
                                         l2: seq<int>, c2: seq<seq<Dbl>>, upto: nat)
    requires Rectangular(X, n) && Shaped(c1, |c1|, n) && Shaped(c2, |c2|, n)
    requires UsesFinite(X, l1, c1) && UsesFinite(X, l2, c2) && upto <= |X|
    requires forall r :: 0 <= r < upto ==> RowCost(X, n, l2, c2, r) == RowCost(X, n, l1, c1, r)
    ensures RowsTotal(X, n, l2, c2, upto) == RowsTotal(X, n, l1, c1, upto)
  {
    if upto > 0 {
      RowsTotalSame(X, n, l1, c1, l2, c2, upto - 1);
    }
  }

  /** From the seed centroids, a fit that ends after at least one pass has a non-negative bss. */
  lemma FitBssNonNegative(cfg: Config, assign: Assigner, seeds: seq<seq<Dbl>>)
    requires ConfigValid(cfg) && AssignerValid(assign, |cfg.X|, cfg.k) && NearestAssigner(cfg, assign)
    requires Shaped(seeds, cfg.k, cfg.n)
    ensures var r := Loop(cfg, assign, Start(seeds));
      r.Finished? ==> Descending(cfg, r.st) && (r.st.labels.Some? ==>
        var ord := AppearanceOrder(r.st.labels.value, cfg.k);
        var total := Sum(WSS(cfg.X, Renumber(r.st.labels.value, ord), Permute(r.st.centroids, ord), cfg.n));
        Sub(r.st.tss, total).Fin? && Sub(r.st.tss, total).v >= 0.0)
  {
    LoopNeverRaisesCost(cfg, assign, Start(seeds));
    var r := Loop(cfg, assign, Start(seeds));
    if r.Finished? && r.st.labels.Some? {
      BssNonNegative(cfg, r.st);
    }
  }
}
