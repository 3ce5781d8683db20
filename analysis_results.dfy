/**
 * The analysis result the page receives from the clustering service and keeps,
 * as it receives it, in its `result` state. The page performs no validation
 * of it; the shape the chart code relies on is stated by HasEveryFeature.
 */
module AnalysisResults {

  /** Per-feature statistics of one cluster; the page only copies these numbers. */
  datatype FeatureSummary = FeatureSummary(mean: real, std: real, min: real, max: real)

  /**
   * One cluster: its size, its share of the records, and one summary per
   * feature name (the JSON object's `cluster[feature]` entries).
   */
  datatype ClusterStat = ClusterStat(count: int, percentage: real, summaries: map<string, FeatureSummary>)

  datatype AnalysisResult = AnalysisResult(
    totalRecords: int,
    numClusters: int,
    features: seq<string>,
    clusters: seq<ClusterStat>)

  /** Every cluster carries a summary for the feature (else `cluster[feature].mean` fails). */
  predicate EveryClusterHas(clusters: seq<ClusterStat>, feature: string) {
    forall i :: 0 <= i < |clusters| ==> feature in clusters[i].summaries
  }

  /** Every cluster carries a summary for every declared feature. */
  predicate HasEveryFeature(r: AnalysisResult) {
    forall j :: 0 <= j < |r.features| ==> EveryClusterHas(r.clusters, r.features[j])
  }
}
