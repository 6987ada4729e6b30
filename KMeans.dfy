/**
 * KMeans.fit: the object whose fields the fit fills in, and the update step
 * of one pass, computed with the nested accumulation loops of the fit.
 */
module KMeansFit {
  import opened Wrappers
  import opened Doubles
  import opened Clusters
  import opened ClusterFacts
  import opened Records
  import opened Relabel
  import opened RelabelFacts
  import opened Lloyd

  /**
   * The update step of one pass: for each cluster, sum the coordinates of
   * its rows and accumulate their squared distances to the cluster's
   * previous centroid, then divide the sums by the row count.  A cluster
   * with rows gets the mean of its rows; a cluster with none gets NaN
   * coordinates (the division is not guarded).
   */
  method UpdateCentroids(X: seq<seq<real>>, labels: seq<int>, centroids: seq<seq<Dbl>>, k: nat, n: nat)
    returns (newCentroids: seq<seq<Dbl>>, systemCost: Dbl)
    requires Rectangular(X, n) && |labels| == |X| && Shaped(centroids, k, n)
    ensures newCentroids == NewCentroids(X, labels, k, n)
    ensures systemCost == SystemCost(X, labels, centroids, n, k)
    ensures forall i, j :: 0 <= i < k && 0 <= j < n ==>
      (Count(labels, i, |X|) > 0 ==> newCentroids[i][j] == Fin(SumCol(X, labels, i, j, |X|) / Count(labels, i, |X|) as real)) &&
      (Count(labels, i, |X|) == 0 ==> newCentroids[i][j] == NaN)
  {
    var m := |X|;
    systemCost := Fin(0.0);
    newCentroids := [];
    for i := 0 to k
      invariant |newCentroids| == i
      invariant forall i' :: 0 <= i' < i ==> newCentroids[i'] == NewCentroid(X, labels, i', n)
      invariant systemCost == SystemCost(X, labels, centroids, n, i)
    {
      var newCentroid, clustCost := UpdateCluster(X, labels, centroids[i], i, n);
      newCentroids := newCentroids + [newCentroid];
      systemCost := Add(systemCost, clustCost);
    }
    forall i, j | 0 <= i < k && 0 <= j < n
      ensures Count(labels, i, m) > 0 ==> newCentroids[i][j] == Fin(SumCol(X, labels, i, j, m) / Count(labels, i, m) as real)
      ensures Count(labels, i, m) == 0 ==> newCentroids[i][j] == NaN
    {
      NewCentroidIsMean(X, labels, i, n, j);
    }
  }

  /**
   * Cluster i of the update step: the mean of its rows (NaN for an empty
   * cluster) and the squared distances of its rows to its previous centroid.
   */
  method UpdateCluster(X: seq<seq<real>>, labels: seq<int>, centroid: seq<Dbl>, i: int, n: nat)
    returns (newCentroid: seq<Dbl>, clustCost: Dbl)
    requires Rectangular(X, n) && |labels| == |X| && |centroid| == n
    ensures newCentroid == NewCentroid(X, labels, i, n)
    ensures clustCost == ClusterCost(X, labels, centroid, i, |X|)
  {
    var m := |X|;
    var sums := new Dbl[n](_ => Fin(0.0));
    var count := 0;
    clustCost := Fin(0.0);
    for row := 0 to m
      invariant count == Count(labels, i, row)
      invariant clustCost == ClusterCost(X, labels, centroid, i, row)
      invariant forall j :: 0 <= j < n ==> sums[j] == Fin(SumCol(X, labels, i, j, row))
    {
      if labels[row] == i {
        clustCost := AccumulateRow(X, labels, centroid, i, n, row, sums, clustCost);
        count := count + 1;
      }
    }
    for j := 0 to n
      invariant forall j' :: 0 <= j' < j ==> sums[j'] == NewCentroid(X, labels, i, n)[j']
      invariant forall j' :: j <= j' < n ==> sums[j'] == Fin(SumCol(X, labels, i, j', m))
    {
      sums[j] := Div(sums[j], Fin(count as real));
    }
    newCentroid := sums[..];
  }

  /**
   * Row `row` of cluster i: add its coordinates to the running column sums
   * and its squared distance to the previous centroid to the running cost.
   */
  method AccumulateRow(X: seq<seq<real>>, labels: seq<int>, centroid: seq<Dbl>, i: int, n: nat, row: nat,
                       sums: array<Dbl>, clustCost: Dbl)
    returns (newCost: Dbl)
    requires Rectangular(X, n) && |labels| == |X| && |centroid| == n && row < |X| && labels[row] == i
    requires sums.Length == n && forall j :: 0 <= j < n ==> sums[j] == Fin(SumCol(X, labels, i, j, row))
    requires clustCost == ClusterCost(X, labels, centroid, i, row)
    modifies sums
    ensures forall j :: 0 <= j < n ==> sums[j] == Fin(SumCol(X, labels, i, j, row + 1))
    ensures newCost == ClusterCost(X, labels, centroid, i, row + 1)
  {
    AddZero(clustCost);
    newCost := clustCost;
    for j := 0 to n
      invariant forall j' :: 0 <= j' < j ==> sums[j'] == Fin(SumCol(X, labels, i, j', row + 1))
      invariant forall j' :: j <= j' < n ==> sums[j'] == Fin(SumCol(X, labels, i, j', row))
      invariant newCost == Add(ClusterCost(X, labels, centroid, i, row), SqDist(X[row], centroid, j))
    {
      sums[j] := Add(sums[j], Fin(X[row][j]));
      var diff := Sub(Fin(X[row][j]), centroid[j]);
      AddAssoc(ClusterCost(X, labels, centroid, i, row), SqDist(X[row], centroid, j), Mul(diff, diff));
      newCost := Add(newCost, Mul(diff, diff));
    }
  }

  /** One pass of the loop specification, unfolded. */
  lemma LoopUnfold(cfg: Config, assign: Assigner, st: LoopState, l: seq<int>)
    requires ConfigValid(cfg) && AssignerValid(assign, |cfg.X|, cfg.k) && Shaped(st.centroids, cfg.k, cfg.n)
    requires st.iter < cfg.maxIter && assign(st.centroids) == Labels(l)
    ensures Loop(cfg, assign, st) ==
      if Converged(cfg, Step(cfg, st, l)) then Finished(Step(cfg, st, l), true) else Loop(cfg, assign, Step(cfg, st, l))
  {
  }

  lemma LoopFallback(cfg: Config, assign: Assigner, st: LoopState)
    requires ConfigValid(cfg) && AssignerValid(assign, |cfg.X|, cfg.k) && Shaped(st.centroids, cfg.k, cfg.n)
    requires st.iter < cfg.maxIter && assign(st.centroids) == NonFinite
    ensures Loop(cfg, assign, st) == Fallback(st.iter)
  {
  }

  lemma LoopExhausted(cfg: Config, assign: Assigner, st: LoopState)
    requires ConfigValid(cfg) && AssignerValid(assign, |cfg.X|, cfg.k) && Shaped(st.centroids, cfg.k, cfg.n)
    requires st.iter >= cfg.maxIter
    ensures Loop(cfg, assign, st) == Finished(st, false)
  {
  }

  class KMeans {
    /** The data matrix, m rows of n columns; never written by the fit. */
    const X: seq<seq<real>>
    const n: nat
    const maxIter: nat
    const tolerance: Dbl

    var k: nat
    /** Absent (null) until the model is fit. */
    var labels: Option<seq<int>>
    var centroids: seq<seq<Dbl>>
    var tss: Dbl
    var wss: seq<Dbl>
    var bss: Dbl
    var iter: nat
    var converged: bool

    ghost predicate Valid()
      reads this
    {
      && Rectangular(X, n)
      && 1 <= maxIter
      && 1 <= k
      && Shaped(centroids, k, n)
      && NoInfinity(centroids)
      && (labels.Some? ==> ValidLabels(labels.value, |X|, k))
    }

    /** An unfit model over data X with k seed centroids. */
    constructor (X: seq<seq<real>>, n: nat, k: nat, seeds: seq<seq<Dbl>>, maxIter: nat, tolerance: Dbl)
      requires Rectangular(X, n) && 1 <= maxIter && 1 <= k && Shaped(seeds, k, n) && NoInfinity(seeds)
      ensures Valid()
      ensures this.X == X && this.n == n && this.k == k && centroids == seeds
      ensures this.maxIter == maxIter && this.tolerance == tolerance
      ensures labels == None && iter == 0 && !converged
    {
      this.X := X;
      this.n := n;
      this.k := k;
      this.maxIter := maxIter;
      this.tolerance := tolerance;
      centroids := seeds;
      labels := None;
      tss, wss, bss := Fin(0.0), [], Fin(0.0);
      iter, converged := 0, false;
    }

    /**
     * The single-cluster result: every row labelled 0, the one centroid the
     * mean record, tss the squared distances of all rows to it, converged
     * after one more pass.
     */
    ghost predicate SingleCluster(prevIter: nat)
      reads this
    {
      && Rectangular(X, n)
      && labels == Some(Zeros(|X|))
      && centroids == [MeanRecord(X, n)]
      && tss == ClusterCost(X, Zeros(|X|), MeanRecord(X, n), 0, |X|)
      && converged
      && iter == prevIter + 1
    }

    /**
     * The state after a normal exit from the loop in state st: labels and
     * centroids renumbered by first appearance, tss the last pass's cost,
     * wss the within-cluster sums of squares against the final centroids,
     * and bss = tss - sum(wss).
     */
    ghost predicate FinishedFrom(st: LoopState)
      reads this
    {
      && Rectangular(X, n)
      && st.labels.Some? && |st.labels.value| == |X|
      && Shaped(st.centroids, k, n)
      && var ord := AppearanceOrder(st.labels.value, k);
      && labels == Some(Renumber(st.labels.value, ord))
      && centroids == Permute(st.centroids, ord)
      && tss == st.tss
      && wss == WSS(X, labels.value, centroids, n)
      && bss == Sub(tss, Sum(wss))
    }

    method LabelFromSingularK()
      requires Rectangular(X, n) && 1 <= maxIter && k == 1
      modifies this`labels, this`centroids, this`tss, this`converged, this`iter
      ensures Valid() && SingleCluster(old(iter))
    {
      var zeros := Zeros(|X|);
      var mean := MeanRecord(X, n);
      forall j | 0 <= j < n ensures !IsInfinite(mean[j]) {
        MeanRecordIsColumnMean(X, n, j);
      }
      labels := Some(zeros);
      centroids := [mean];
      tss := ClusterCost(X, zeros, mean, 0, |X|);
      converged := true;
      iter := iter + 1;
    }

    /** Renumber the clusters by first appearance, labels and centroids alike. */
    method ReorderLabelsAndCentroids()
      requires Valid() && labels.Some?
      modifies this`labels, this`centroids
      ensures Valid()
      ensures var ord := AppearanceOrder(old(labels).value, k);
        labels == Some(Renumber(old(labels).value, ord)) && centroids == Permute(old(centroids), ord)
    {
      var ord := AppearanceOrder(labels.value, k);
      RenumberKeepsCentroid(labels.value, centroids, k);
      labels := Some(Renumber(labels.value, ord));
      centroids := Permute(centroids, ord);
    }

    /**
     * KMeans.fit: a fit model is returned as it is; with one cluster the
     * single-cluster result is taken at once; otherwise the passes run.
     */
    method Fit(assign: Assigner)
      requires Valid() && AssignerValid(assign, |X|, k)
      modifies this
      ensures Valid()
      ensures old(labels).Some? ==> unchanged(this)
      ensures old(labels).None? && old(k) == 1 ==>
        SingleCluster(old(iter)) && k == 1 && wss == old(wss) && bss == old(bss)
      ensures old(labels).None? && old(k) != 1 ==>
        var r := Loop(Config(X, n, old(k), maxIter, tolerance), assign, Start(old(centroids)));
        && (r.Fallback? ==> k == 1 && SingleCluster(r.at) && wss == old(wss) && bss == old(bss))
        && (r.Finished? ==>
              && k == old(k) && FinishedFrom(r.st) && iter == r.st.iter
              && converged == (r.convergedNow || old(converged)))
    {
      if labels.Some? {
        return;
      }
      if k == 1 {
        LabelFromSingularK();
        return;
      }
      Iterate(assign);
    }

    /**
     * The passes of the fit, from tss = +infinity and maxCost = -infinity,
     * then the renumbering and the wss and bss of a normal exit.
     */
    method Iterate(assign: Assigner)
      requires Valid() && AssignerValid(assign, |X|, k) && labels.None?
      modifies this
      ensures Valid()
      ensures var r := Loop(Config(X, n, old(k), maxIter, tolerance), assign, Start(old(centroids)));
        && (r.Fallback? ==> k == 1 && SingleCluster(r.at) && wss == old(wss) && bss == old(bss))
        && (r.Finished? ==>
              && k == old(k) && FinishedFrom(r.st) && iter == r.st.iter
              && converged == (r.convergedNow || old(converged)))
    {
      var fellBack, maxCost;
      ghost var prevTss, convergedNow;
      fellBack, maxCost, prevTss, convergedNow := Passes(assign);
      if !fellBack {
        Finish(LoopState(centroids, prevTss, tss, maxCost, labels, iter));
      }
    }

    /**
     * The loop of the fit: passes until the change in cost is below the
     * tolerance, the budget is used up, or the assigner fails (which falls
     * back to one cluster).  On a normal exit the fields hold the state the
     * loop finished in.
     */
    method Passes(assign: Assigner) returns (fellBack: bool, maxCost: Dbl, ghost prevTss: Dbl, ghost convergedNow: bool)
      requires Valid() && AssignerValid(assign, |X|, k) && labels.None?
      modifies this`labels, this`centroids, this`tss, this`iter, this`converged, this`k
      ensures Valid()
      ensures var r := Loop(Config(X, n, old(k), maxIter, tolerance), assign, Start(old(centroids)));
        && (fellBack <==> r.Fallback?)
        && (r.Fallback? ==> k == 1 && SingleCluster(r.at))
        && (r.Finished? ==>
              && k == old(k) && labels.Some?
              && r == Finished(LoopState(centroids, prevTss, tss, maxCost, labels, iter), convergedNow)
              && converged == (convergedNow || old(converged)))
    {
      ghost var cfg := Config(X, n, k, maxIter, tolerance);
      prevTss := PosInf;
      convergedNow := false;
      ghost var result := Loop(cfg, assign, Start(centroids));
      maxCost := NegInf;
      tss := PosInf;
      iter := 0;
      while iter < maxIter
        invariant Valid() && k == old(k) && iter <= maxIter
        invariant iter > 0 ==> labels.Some?
        invariant converged == old(converged) && !convergedNow
        invariant Loop(cfg, assign, LoopState(centroids, prevTss, tss, maxCost, labels, iter)) == result
        decreases maxIter - iter
      {
        var stop;
        fellBack, stop, maxCost, prevTss := Advance(assign, cfg, result, maxCost, prevTss);
        if fellBack {
          return;
        }
        if stop {
          convergedNow := true;
          break;
        }
      }
      if !convergedNow {
        LoopExhausted(cfg, assign, LoopState(centroids, prevTss, tss, maxCost, labels, iter));
      }
      fellBack := false;
    }

    /**
     * One turn of the loop: ask the assigner for labels; on failure fall
     * back to one cluster, otherwise run the pass and count it, and report
     * whether the change in cost is below the tolerance (setting converged).
     */
    method Advance(assign: Assigner, ghost cfg: Config, ghost result: LoopEnd, maxCost: Dbl, ghost prevTss: Dbl)
      returns (fellBack: bool, stop: bool, newMaxCost: Dbl, ghost newPrevTss: Dbl)
      requires Valid() && AssignerValid(assign, |X|, k) && cfg == Config(X, n, k, maxIter, tolerance)
      requires iter < maxIter && Loop(cfg, assign, LoopState(centroids, prevTss, tss, maxCost, labels, iter)) == result
      modifies this`labels, this`centroids, this`tss, this`iter, this`converged, this`k
      ensures Valid()
      ensures fellBack ==> result.Fallback? && k == 1 && SingleCluster(result.at)
      ensures !fellBack ==> k == old(k) && labels.Some? && iter == old(iter) + 1 && iter <= maxIter
      ensures !fellBack && stop ==>
        converged && result == Finished(LoopState(centroids, newPrevTss, tss, newMaxCost, labels, iter), true)
      ensures !fellBack && !stop ==>
        converged == old(converged) && Loop(cfg, assign, LoopState(centroids, newPrevTss, tss, newMaxCost, labels, iter)) == result
    {
      ghost var st := LoopState(centroids, prevTss, tss, maxCost, labels, iter);
      var answer := assign(centroids);
      if answer.NonFinite? {
        LoopFallback(cfg, assign, st);
        k := 1;
        LabelFromSingularK();
        return true, false, maxCost, prevTss;
      }
      ghost var next := Step(cfg, st, answer.labels);
      var diff;
      newMaxCost, diff := Pass(answer.labels, maxCost, prevTss);
      newPrevTss := next.prevTss;
      assert next == LoopState(centroids, newPrevTss, tss, newMaxCost, labels, iter + 1);
      LoopUnfold(cfg, assign, st, answer.labels);
      fellBack := false;
      stop := Lt(Abs(diff), tolerance);
      if stop {
        converged := true;
      }
      iter := iter + 1;
    }

    /**
     * One pass after the assigner labelled the rows: adopt the labels,
     * replace the centroids by the cluster means, make the pass's cost the
     * new tss, and take it as maxCost when the change in cost is infinite.
     */
    method Pass(passLabels: seq<int>, maxCost: Dbl, ghost prevTss: Dbl) returns (newMaxCost: Dbl, diff: Dbl)
      requires Valid() && ValidLabels(passLabels, |X|, k)
      modifies this`labels, this`centroids, this`tss
      ensures Valid() && diff == Sub(old(tss), tss)
      ensures LoopState(centroids, old(tss), tss, newMaxCost, labels, iter + 1)
           == Step(Config(X, n, k, maxIter, tolerance),
                   LoopState(old(centroids), prevTss, old(tss), maxCost, old(labels), iter), passLabels)
    {
      labels := Some(passLabels);
      var newCentroids, systemCost := UpdateCentroids(X, passLabels, centroids, k, n);
      NewCentroidsNoInfinity(X, passLabels, k, n);
      centroids := newCentroids;
      diff := Sub(tss, systemCost);
      tss := systemCost;
      newMaxCost := maxCost;
      if IsInfinite(diff) {
        newMaxCost := tss;
      }
    }

    /** After a normal exit: renumber, then wss against the final centroids and bss = tss - sum(wss). */
    method Finish(ghost last: LoopState)
      requires Valid() && labels.Some?
      requires last.labels == labels && last.centroids == centroids && last.tss == tss
      modifies this`labels, this`centroids, this`wss, this`bss
      ensures Valid() && FinishedFrom(last)
    {
      ReorderLabelsAndCentroids();
      wss := WSS(X, labels.value, centroids, n);
      var wssSum := Sum(wss);
      bss := Sub(tss, wssSum);
    }
  }
}
