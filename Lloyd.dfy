/**
 * The iteration of KMeans.fit as a pure specification: from the seed
 * centroids, each pass asks the assigner for labels, recomputes the
 * centroids as cluster means, takes the pass's cost against the previous
 * centroids, and stops when the change in cost is below the tolerance, when
 * the assigner fails, or when the iteration budget is used up.
 */
module Lloyd {
  import opened Wrappers
  import opened Doubles
  import opened Clusters
  import opened ClusterFacts

  /** What the nearest-centroid assigner answers for a set of centroids. */
  datatype Assignment = Labels(labels: seq<int>) | NonFinite

  /** The assigner, as a function of the current centroids (the data matrix is fixed). */
  type Assigner = seq<seq<Dbl>> -> Assignment

  /** The assigner gives every one of the m rows a label among the k clusters. */
  ghost predicate AssignerValid(assign: Assigner, m: nat, k: nat) {
    forall c :: assign(c).Labels? ==> ValidLabels(assign(c).labels, m, k)
  }

  /** The fixed inputs of a fit: data matrix, column count, cluster count, budget, tolerance. */
  datatype Config = Config(X: seq<seq<real>>, n: nat, k: nat, maxIter: nat, tol: Dbl)

  predicate ConfigValid(cfg: Config) {
    Rectangular(cfg.X, cfg.n)
  }

  /**
   * The loop's variables: centroids, the cost before the last pass, the
   * cost of the last pass (tss), the maximum cost, the labels of the last
   * pass (absent before the first) and the pass counter.
   */
  datatype LoopState = LoopState(centroids: seq<seq<Dbl>>, prevTss: Dbl, tss: Dbl, maxCost: Dbl,
                                 labels: Option<seq<int>>, iter: nat)

  /** How the loop ends: the assigner failed at pass `at`, or the loop finished in state st. */
  datatype LoopEnd = Fallback(at: nat) | Finished(st: LoopState, convergedNow: bool)

  /** Before the first pass: tss is +infinity and maxCost is -infinity. */
  function Start(c: seq<seq<Dbl>>): LoopState {
    LoopState(c, PosInf, PosInf, NegInf, None, 0)
  }

  predicate StateValid(cfg: Config, st: LoopState) {
    Shaped(st.centroids, cfg.k, cfg.n) && NoInfinity(st.centroids)
  }

  /**
   * One pass after the assigner has labelled the rows: the pass is counted,
   * the labels are kept, the old tss becomes the previous cost, and the new
   * centroids keep their shape and hold no infinity.
   */
  function Step(cfg: Config, st: LoopState, labels: seq<int>): (next: LoopState)
    requires ConfigValid(cfg) && |labels| == |cfg.X| && Shaped(st.centroids, cfg.k, cfg.n)
    ensures next.iter == st.iter + 1 && next.labels == Some(labels) && next.prevTss == st.tss
    ensures Shaped(next.centroids, cfg.k, cfg.n) && NoInfinity(next.centroids)
  {
    NewCentroidsNoInfinity(cfg.X, labels, cfg.k, cfg.n);
    var cost := SystemCost(cfg.X, labels, st.centroids, cfg.n, cfg.k);
    var diff := Sub(st.tss, cost);
    LoopState(NewCentroids(cfg.X, labels, cfg.k, cfg.n), st.tss, cost,
              if IsInfinite(diff) then cost else st.maxCost, Some(labels), st.iter + 1)
  }

  /** The convergence test: the change in cost is below the tolerance. */
  predicate Converged(cfg: Config, st: LoopState) {
    Lt(Abs(Sub(st.prevTss, st.tss)), cfg.tol)
  }

  /**
   * The passes from state st: the loop ends in a fallback at a pass before
   * the budget, or finishes no earlier than st, having either converged
   * (its final state passes the test) or used up the budget.
   */
  function Loop(cfg: Config, assign: Assigner, st: LoopState): (r: LoopEnd)
    requires ConfigValid(cfg) && AssignerValid(assign, |cfg.X|, cfg.k) && Shaped(st.centroids, cfg.k, cfg.n)
    ensures r.Fallback? ==> st.iter <= r.at < cfg.maxIter
    ensures r.Finished? ==> st.iter <= r.st.iter && (r.convergedNow || cfg.maxIter <= r.st.iter)
    ensures r.Finished? && r.convergedNow ==> Converged(cfg, r.st) && st.iter < r.st.iter
    decreases cfg.maxIter - st.iter
  {
    if st.iter >= cfg.maxIter then Finished(st, false)
    else match assign(st.centroids)
      case NonFinite => Fallback(st.iter)
      case Labels(l) =>
        var next := Step(cfg, st, l);
        if Converged(cfg, next) then Finished(next, true) else Loop(cfg, assign, next)
  }
}

/** What the iteration promises: bounds on the pass count, the convergence test, the maximum cost. */
module LloydFacts {
  import opened Doubles
  import opened Clusters
  import opened ClusterFacts
  import opened Lloyd

  /**
   * The loop stops within the budget: a loop that converged stopped after
   * at least one more pass, one that did not converge used the whole
   * budget, and a fallback happens at a pass inside the budget.  The shape
   * of the centroids and the labels is kept, and after a pass the cost is
   * non-negative or NaN.
   */
  lemma {:induction false} LoopBounds(cfg: Config, assign: Assigner, st: LoopState)
    requires ConfigValid(cfg) && AssignerValid(assign, |cfg.X|, cfg.k) && StateValid(cfg, st)
    requires st.iter <= cfg.maxIter
    requires st.labels.Some? ==> ValidLabels(st.labels.value, |cfg.X|, cfg.k)
    ensures match Loop(cfg, assign, st)
      case Fallback(at) => st.iter <= at < cfg.maxIter
      case Finished(s, conv) =>
        && StateValid(cfg, s)
        && st.iter <= s.iter <= cfg.maxIter
        && (conv ==> st.iter < s.iter)
        && (!conv ==> s.iter == cfg.maxIter)
        && (s.labels.Some? ==> ValidLabels(s.labels.value, |cfg.X|, cfg.k))
        && (s.iter > st.iter ==> s.labels.Some? && NonNegOrNaN(s.tss))
    decreases cfg.maxIter - st.iter
  {
    if st.iter < cfg.maxIter {
      match assign(st.centroids)
      case NonFinite =>
      case Labels(l) =>
        var next := Step(cfg, st, l);
        NewCentroidsNoInfinity(cfg.X, l, cfg.k, cfg.n);
        SystemCostRange(cfg.X, l, st.centroids, cfg.n, cfg.k);
        if !Converged(cfg, next) {
          LoopBounds(cfg, assign, next);
        }
    }
  }

  /**
   * The first pass never converges, whatever the tolerance (+infinity
   * included): the cost before it is +infinity, so the change in cost is
   * +infinity or NaN and is not below any tolerance.
   */
  lemma FirstPassNeverConverges(cfg: Config, assign: Assigner, c: seq<seq<Dbl>>)
    requires ConfigValid(cfg) && AssignerValid(assign, |cfg.X|, cfg.k) && StateValid(cfg, Start(c))
    ensures var r := Loop(cfg, assign, Start(c));
      r.Finished? && r.convergedNow ==> r.st.iter >= 2
  {
    if 0 < cfg.maxIter {
      match assign(c)
      case NonFinite =>
      case Labels(l) =>
        var next := Step(cfg, Start(c), l);
        assert !Converged(cfg, next);
        NewCentroidsNoInfinity(cfg.X, l, cfg.k, cfg.n);
        LoopBounds(cfg, assign, next);
    }
  }

  /** Once the cost is finite or NaN, later passes never change the maximum cost. */
  lemma {:induction false} MaxCostKept(cfg: Config, assign: Assigner, st: LoopState)
    requires ConfigValid(cfg) && AssignerValid(assign, |cfg.X|, cfg.k) && StateValid(cfg, st)
    requires !IsInfinite(st.tss)
    ensures var r := Loop(cfg, assign, st);
      r.Finished? ==> r.st.maxCost == st.maxCost
    decreases cfg.maxIter - st.iter
  {
    if st.iter < cfg.maxIter {
      match assign(st.centroids)
      case NonFinite =>
      case Labels(l) =>
        var next := Step(cfg, st, l);
        var cost := SystemCost(cfg.X, l, st.centroids, cfg.n, cfg.k);
        SystemCostRange(cfg.X, l, st.centroids, cfg.n, cfg.k);
        SubNotInfinite(st.tss, cost);
        assert next.maxCost == st.maxCost && next.tss == cost;
        if !Converged(cfg, next) {
          MaxCostKept(cfg, assign, next);
        }
    }
  }

  /** The difference of two values that are finite or NaN is finite or NaN. */
  lemma SubNotInfinite(a: Dbl, b: Dbl)
    requires !IsInfinite(a) && !IsInfinite(b)
    ensures !IsInfinite(Sub(a, b))
  {
  }

  /**
   * The maximum cost the fit reports is the cost of the first pass, set
   * once and never changed; when that cost is NaN the change in cost is not
   * infinite and the maximum stays at its initial -infinity.
   */
  lemma MaxCostIsFirstCost(cfg: Config, assign: Assigner, c: seq<seq<Dbl>>)
    requires ConfigValid(cfg) && AssignerValid(assign, |cfg.X|, cfg.k) && StateValid(cfg, Start(c))
    requires cfg.maxIter >= 1 && assign(c).Labels?
    ensures var first := SystemCost(cfg.X, assign(c).labels, c, cfg.n, cfg.k);
      var r := Loop(cfg, assign, Start(c));
      r.Finished? ==> r.st.maxCost == (if first.Fin? then first else NegInf)
  {
    var l := assign(c).labels;
    var next := Step(cfg, Start(c), l);
    SystemCostRange(cfg.X, l, c, cfg.n, cfg.k);
    NewCentroidsNoInfinity(cfg.X, l, cfg.k, cfg.n);
    if !Converged(cfg, next) {
      MaxCostKept(cfg, assign, next);
    }
  }

  /**
   * Starting from a state that does not pass the convergence test, the loop
   * reports convergence exactly when its final state passes the test.
   */
  lemma {:induction false} ConvergedIffTest(cfg: Config, assign: Assigner, st: LoopState)
    requires ConfigValid(cfg) && AssignerValid(assign, |cfg.X|, cfg.k) && Shaped(st.centroids, cfg.k, cfg.n)
    requires !Converged(cfg, st)
    ensures var r := Loop(cfg, assign, st);
      r.Finished? ==> (r.convergedNow <==> Converged(cfg, r.st))
    decreases cfg.maxIter - st.iter
  {
    if st.iter < cfg.maxIter {
      match assign(st.centroids)
      case NonFinite =>
      case Labels(l) =>
        var next := Step(cfg, st, l);
        if !Converged(cfg, next) {
          ConvergedIffTest(cfg, assign, next);
        }
    }
  }

  /**
   * The fit's loop reports convergence exactly when the absolute change
   * between the last two costs is below the tolerance; it then stopped
   * within the budget, and otherwise it used the whole budget.
   */
  lemma ConvergedIffBelowTolerance(cfg: Config, assign: Assigner, c: seq<seq<Dbl>>)
    requires ConfigValid(cfg) && AssignerValid(assign, |cfg.X|, cfg.k) && StateValid(cfg, Start(c))
    ensures var r := Loop(cfg, assign, Start(c));
      r.Finished? ==>
        && (r.convergedNow <==> Lt(Abs(Sub(r.st.prevTss, r.st.tss)), cfg.tol))
        && (r.convergedNow ==> 1 <= r.st.iter <= cfg.maxIter)
        && (!r.convergedNow ==> r.st.iter == cfg.maxIter)
  {
    assert !Converged(cfg, Start(c));
    ConvergedIffTest(cfg, assign, Start(c));
    LoopBounds(cfg, assign, Start(c));
  }
}
