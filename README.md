# K-Means fit (clust4j) in Dafny

This project models `KMeans.fit()` of clust4j: the Lloyd-style loop that
clusters the `m` rows of an `m x n` data matrix into `k` clusters.

Each pass of the loop does the following:

- It asks a nearest-centroid assigner for one label per row.
- It recomputes every centroid as the coordinate-wise mean of the rows that
  carry its label.
- In the same pass it accumulates the cost of the pass. That cost is the
  squared Euclidean distance from every row to its cluster's *previous*
  centroid.
- It replaces the centroids and records `tss` (the last cost) and `maxCost`
  (the cost of the first pass).
- It stops once the absolute change in cost is below `tolerance`, or once
  `maxIter` passes are used up.

The fit also has these surrounding cases:

- A model that is already fit is returned unchanged.
- With `k == 1` the loop is skipped and the single-cluster result is taken.
- When the assigner fails, the fit falls back for good to `k = 1`.
- After a normal exit, labels and centroids are renumbered, `wss` holds the
  within-cluster sums of squares, and `bss = tss - sum(wss)`.

Project layout:

- `Doubles.dfy`: `Dbl`, a double as an exact real plus the IEEE specials
  +inf, -inf and NaN, with the operations the fit uses. `tss` starts at
  +inf, `maxCost` at -inf, and an empty cluster divides 0 by 0, so these
  specials change which branches run.
- `Clusters.dfy`: the per-cluster quantities of a pass as recursive
  functions (row count, column sums, new centroid, cluster cost, system
  cost, WSS, mean record) and what they mean.
- `Lloyd.dfy`: the loop as a pure specification `Loop` over a `LoopState`,
  and its properties (bounds, first pass, `maxCost`, convergence).
- `Relabel.dfy`: renumbering of the clusters by first appearance.
- `MeanOptimality.dfy`: over the reals, the mean of a cluster's rows costs
  no more than any other point.
- `CostDescent.dfy`: with a nearest-centroid assigner, the cost never rises
  from one pass to the next, and `bss` is non-negative.
- `KMeans.dfy`: the class `KMeans` with the fields the fit updates.
  - `UpdateCentroids` and `UpdateCluster` are the update step, written with
    its nested accumulation loops over an array.
  - The methods of the fit are proved against `Loop`.

## Model

| member | source | states |
|---|---|---|
| KMeansFit.UpdateCluster | src/main/java/com/clust4j/algo/KMeans.java:147-176 | The accumulation loops for cluster i produce exactly the recomputed centroid and the cluster's squared-distance cost to its previous centroid. |
| KMeansFit.AccumulateRow | src/main/java/com/clust4j/algo/KMeans.java:161-166 | For a row labelled i, the column loop adds the row to every running column sum and its squared distance to the previous centroid to the running cost, so both cover one more row. |
| KMeansFit.UpdateCentroids | src/main/java/com/clust4j/algo/KMeans.java:143-181 | The update step yields k new centroids and the system cost. Centroid i coordinate j is the column sum over rows labelled i divided by their count. It is NaN exactly when the cluster is empty. |
| ClusterFacts.NewCentroidIsMean | src/main/java/com/clust4j/algo/KMeans.java:155-176 | A recomputed coordinate is sum/count when the cluster has rows. It is NaN if and only if the cluster has none, because the division by zero is not guarded. |
| ClusterFacts.ClusterCostRange | src/main/java/com/clust4j/algo/KMeans.java:155-171 | A cluster's cost is non-negative or NaN. It is finite exactly when the cluster has no rows or its previous centroid is finite. |
| ClusterFacts.SystemCostRange | src/main/java/com/clust4j/algo/KMeans.java:143-179 | The cost of a pass is non-negative whatever the labels are. It is finite exactly when every cluster with rows has a finite previous centroid. |
| ClusterFacts.NewCentroidsNoInfinity | src/main/java/com/clust4j/algo/KMeans.java:173-176 | Recomputed centroids never hold an infinity. Each coordinate is a finite mean or NaN. |
| Records.MeanRecordIsColumnMean | src/main/java/com/clust4j/algo/KMeans.java:80 | The mean record is the column sums divided by the row count, and NaN for an empty matrix. |
| Relabel.AppearanceOrder | src/main/java/com/clust4j/algo/KMeans.java:211 | The renumbering order is a permutation of 0..k-1: distinct, in range, and listing every cluster. |
| RelabelFacts.RenumberKeepsCentroid | src/main/java/com/clust4j/algo/KMeans.java:211 | After renumbering, labels stay in range and every row keeps the same centroid. |
| RelabelFacts.FirstAppearanceNumbering | src/main/java/com/clust4j/algo/KMeans.java:211 | A row whose cluster is new gets the next unused number, the count of distinct earlier clusters. A row whose cluster appeared earlier gets a number already handed out. |
| Lloyd.Step | src/main/java/com/clust4j/algo/KMeans.java:137-194 | One pass after labelling: the pass is counted, the labels are kept, the old tss becomes the previous cost, and the new centroids have k rows of n coordinates with no infinity. LloydFacts.LoopBounds and LloydFacts.MaxCostIsFirstCost state what repeated passes do with the cost and maxCost. |
| Lloyd.Loop | src/main/java/com/clust4j/algo/KMeans.java:105-207 | The iteration: a fallback happens at a pass before maxIter. A normal finish is never earlier than the starting state. It either converged, in which case its final state passes the convergence test after at least one more pass, or it used up the budget. |
| KMeansFit.KMeans.Iterate | src/main/java/com/clust4j/algo/KMeans.java:93-214 | The part of the fit after the k == 1 check. It falls back to k = 1 with the single-cluster result exactly when `Lloyd.Loop` from the seeds does, leaving wss and bss untouched. Otherwise it ends in the renumbered final state of `Lloyd.Loop`, with its wss and bss. |
| Clusters.WSS | src/main/java/com/clust4j/algo/KMeans.java:212 | One within-cluster sum of squares per centroid. CostDescent.SumOfWSS proves that they add up to the system cost against the same centroids. |
| Clusters.Sum | src/main/java/com/clust4j/algo/KMeans.java:213 | The left-to-right double sum is finite when every entry is finite, and NaN when any entry is NaN. |
| Records.MeanRecord | src/main/java/com/clust4j/algo/KMeans.java:80 | The mean record has one coordinate per column. Records.MeanRecordIsColumnMean proves that each one is the column mean, or NaN for an empty matrix. |
| Relabel.Renumber | src/main/java/com/clust4j/algo/KMeans.java:211 | Keeps one label per row. RelabelFacts.RenumberKeepsCentroid and RelabelFacts.FirstAppearanceNumbering state which number each row gets. |
| Relabel.Permute | src/main/java/com/clust4j/algo/KMeans.java:211 | Gives one centroid per position of the order. RelabelFacts.RenumberKeepsCentroid proves that each row keeps its centroid. |
| LloydFacts.LoopBounds | src/main/java/com/clust4j/algo/KMeans.java:105-207 | The loop stops within the budget. A fallback happens at a pass before maxIter. A converged loop ran at least one more pass. A loop that did not converge used all maxIter passes. Shapes and label ranges are kept, and the cost after a pass is non-negative or NaN. |
| LloydFacts.FirstPassNeverConverges | src/main/java/com/clust4j/algo/KMeans.java:101-102 | tss starts at +inf, so no tolerance (even +inf) lets the first pass converge. Convergence needs at least two passes. |
| LloydFacts.MaxCostIsFirstCost | src/main/java/com/clust4j/algo/KMeans.java:189-194 | The reported maxCost is the cost of the first pass, set once and never changed. If that cost is NaN, maxCost stays -inf. |
| LloydFacts.ConvergedIffBelowTolerance | src/main/java/com/clust4j/algo/KMeans.java:199-205 | The loop reports convergence if and only if the absolute change between the last two costs is below the tolerance. It then stopped after 1..maxIter passes; otherwise it ran exactly maxIter passes. |
| MeanOptimality.CostExpand | src/main/java/com/clust4j/algo/KMeans.java:161-166 | A cluster's cost about a point c expands to (sum of squared norms) - 2 c.(column sums) + count * norm(c)^2. |
| MeanOptimality.MeanMinimizesReal | src/main/java/com/clust4j/algo/KMeans.java:173-175 | Over the reals, a point whose count-multiple equals the column sums (the mean) costs no more than any other point. |
| MeanOptimality.NewCentroidNoWorse | src/main/java/com/clust4j/algo/KMeans.java:155-176 | The recomputed centroid of a cluster costs no more than its previous finite centroid, and both costs are finite. |
| MeanOptimality.SystemCostNoWorse | src/main/java/com/clust4j/algo/KMeans.java:143-188 | Replacing the centroids by the recomputed ones never raises the cost of the labels they were computed from. |
| CostDescent.SystemCostIsRows | src/main/java/com/clust4j/algo/KMeans.java:143-179 | The cost summed cluster by cluster equals the sum over rows of each row's squared distance to its own centroid. |
| CostDescent.PassNeverRaisesCost | src/main/java/com/clust4j/algo/KMeans.java:137-194 | A pass with nearest-centroid labels keeps the descent invariant. After the first pass, the new tss is finite and at most the previous one. |
| CostDescent.LoopNeverRaisesCost | src/main/java/com/clust4j/algo/KMeans.java:105-207 | With a nearest-centroid assigner, the state the loop finishes in keeps the descent invariant, and its last pass did not raise tss. |
| CostDescent.FitNeverRaisesCost | src/main/java/com/clust4j/algo/KMeans.java:101-207 | From the seeds, a fit that ran two or more passes ends with a finite tss no larger than the previous one. |
| CostDescent.SumOfWSS | src/main/java/com/clust4j/algo/KMeans.java:212-213 | The within-cluster sums of squares add up, in the same order, to the system cost against the same centroids. |
| CostDescent.BssNonNegative | src/main/java/com/clust4j/algo/KMeans.java:211-214 | Under a nearest-centroid assigner, sum(wss) after the renumbering is finite and at most tss. So bss is finite, bss >= 0, and bss + sum(wss) == tss. |
| CostDescent.FitBssNonNegative | src/main/java/com/clust4j/algo/KMeans.java:101-214 | From the seeds, a fit that finishes normally has a finite, non-negative bss. |
| KMeansFit.KMeans.LabelFromSingularK | src/main/java/com/clust4j/algo/KMeans.java:86-91 | The single-cluster result: all labels 0, the one centroid equal to the mean record, tss the squared distances to it, converged, and one more pass counted. |
| KMeansFit.KMeans.ReorderLabelsAndCentroids | src/main/java/com/clust4j/algo/KMeans.java:211 | Labels and centroids are renumbered together by first appearance. |
| KMeansFit.KMeans.Pass | src/main/java/com/clust4j/algo/KMeans.java:137-194 | One pass moves the fields to exactly the state `Lloyd.Step` gives. That covers labels, centroids, tss, maxCost (set when the change in cost is infinite) and the change in cost. |
| KMeansFit.KMeans.Advance | src/main/java/com/clust4j/algo/KMeans.java:105-205 | One turn of the loop. On assigner failure it sets k = 1 and takes the single-cluster result. Otherwise it runs a pass, counts it, and sets converged exactly when the change in cost is below the tolerance, which is where `Lloyd.Loop` stops with convergence. |
| KMeansFit.KMeans.Passes | src/main/java/com/clust4j/algo/KMeans.java:101-207 | The loop falls back exactly when `Lloyd.Loop` from the seeds does. On a normal exit the fields equal the final state of `Lloyd.Loop`, and converged is set exactly when `Lloyd.Loop` reports convergence. |
| KMeansFit.KMeans.Finish | src/main/java/com/clust4j/algo/KMeans.java:211-214 | After a normal exit: renumbered labels and centroids, wss against the final centroids, and bss = tss - sum(wss). |
| KMeansFit.KMeans.Fit | src/main/java/com/clust4j/algo/KMeans.java:71-236 | A fit model is left unchanged. With k == 1 the single-cluster result is taken, without wss/bss. Otherwise the fields are the outcome of `Lloyd.Loop` from the seeds: a permanent fallback to k = 1 skipping wss/bss, or the renumbered final state with its wss and bss. |

## Left out

- Logging and diagnostics are left out: the timer, `warn`, `sayBye` and the `fitSummary` rows (lines 78, 88, 129, 132-133, 184, 218-226). They do not affect control flow or the fields.
- `synchronized(fitLock)` (line 72) is concurrency. `Fit` is a single sequential method.
- `NearestCentroid` construction, fitting and `predict` (lines 109-114, 137) are a foreign classifier. They become the parameter `assign`, which answers labels in `[0,k)` for every row or fails.
  - The failure models the `NaNException` path at line 115.
  - The cost-descent and `bss >= 0` lemmas additionally assume that the labels are nearest in squared Euclidean distance.
- `labelFromSingularK`, `reorderLabelsAndCentroids`, `computeWSS`, `MatUtils.meanRecord`, `VecUtils.sum`, `VecUtils.arange` and `CentroidUtils.centroidsToMatrix` have bodies that are not part of this model. Each is given the behaviour described next.
  - `labelFromSingularK` labels every row 0, takes the mean record as the centroid and the squared distances to it as tss, sets converged, and counts one pass.
  - Renumbering is by first appearance, with unseen clusters appended in ascending order.
  - `computeWSS` is each cluster's squared distances to its final centroid.
  - `VecUtils.sum` is a left-to-right sum.
  - `MatUtils.meanRecord` is the column mean of all rows, the centroid of a single cluster holding every row. It is NaN in every column for an empty matrix.
- Floating point is modelled as exact reals plus +inf, -inf and NaN. The model has no rounding and no signed zero, and `tolerance` is a `Dbl`.
- Data entries are finite reals (`X` is `seq<seq<real>>`), and seed centroid coordinates must be finite or NaN (`NoInfinity` in `KMeansFit.KMeans.Valid` and the constructor). Overflow to +/-Infinity in the column sums (line 163) or the squared differences (line 165) is not modelled. For example, a difference above about 1.4e154 squares to Infinity in Java. ClusterFacts.NewCentroidsNoInfinity, ClusterFacts.SystemCostRange, ClusterFacts.ClusterCostRange and the finiteness parts of the descent lemmas therefore hold only in exact arithmetic.
- Constructors of the Java class, `getName`, `getLoggerTag`, `getModelFitSummaryHeaders` and `serialVersionUID` are lifecycle and constant boilerplate.
- KMeansFit.KMeans.Fit: requires `maxIter >= 1` and `k >= 1`. With `maxIter == 0` the source would reach the renumbering with null labels, which the model does not represent.
- CostDescent.FitNeverRaisesCost: monotone cost is proved only for a nearest-centroid assigner in exact arithmetic. The source promises nothing for other metrics or under rounding.
- With tolerance = +inf the first pass still cannot converge: the first change in cost is +inf or NaN, and `+inf < +inf` is false (LloydFacts.FirstPassNeverConverges).
