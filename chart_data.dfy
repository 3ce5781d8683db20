/**
 * The two projections that turn the analysis result into chart series:
 * prepareDistributionData (the bar chart) and prepareRadarData (the radar
 * chart). Both return the empty series when there is no result yet.
 */
module ChartData {
  import opened Wrappers
  import opened AnalysisResults
  import opened GroupLabels

  /** One bar: `{ name, count, percentage }`. */
  datatype DistributionEntry = DistributionEntry(name: string, count: int, percentage: real)

  /** One radar axis: `{ feature, "Grupo 1": mean, "Grupo 2": mean, ... }`. */
  datatype RadarPoint = RadarPoint(feature: string, groups: map<string, real>)

  /** `clusters.map((cluster, idx) => ...)` restricted to the first n clusters. */
  function DistributionEntries(clusters: seq<ClusterStat>, n: nat): (r: seq<DistributionEntry>)
    requires n <= |clusters|
    ensures |r| == n
    ensures forall i :: 0 <= i < n ==>
      r[i].name == GroupLabel(i) && r[i].count == clusters[i].count && r[i].percentage == clusters[i].percentage
  {
    if n == 0 then []
    else
      var c := clusters[n - 1];
      DistributionEntries(clusters, n - 1) + [DistributionEntry(GroupLabel(n - 1), c.count, c.percentage)]
  }

  function PrepareDistributionData(result: Option<AnalysisResult>): (r: seq<DistributionEntry>)
    ensures result.None? ==> r == []
    ensures result.Some? ==> |r| == |result.value.clusters|
    ensures result.Some? ==> forall i :: 0 <= i < |r| ==>
      var c := result.value.clusters[i];
      r[i].name == GroupLabel(i) && r[i].count == c.count && r[i].percentage == c.percentage
  {
    match result
    case None => []
    case Some(res) => DistributionEntries(res.clusters, |res.clusters|)
  }

  /**
   * The `forEach` that fills one radar point: after the first n clusters,
   * key `Grupo ${idx + 1}` holds the mean of `feature` in cluster idx.
   */
  function GroupMeans(clusters: seq<ClusterStat>, feature: string, n: nat): (m: map<string, real>)
    requires n <= |clusters|
    requires EveryClusterHas(clusters, feature)
    ensures m.Keys == GroupLabelsUpTo(n)
    ensures forall i :: 0 <= i < n ==> GroupLabel(i) in m && m[GroupLabel(i)] == clusters[i].summaries[feature].mean
  {
    if n == 0 then map[]
    else
      var before := GroupMeans(clusters, feature, n - 1);
      GroupLabelFresh(n - 1, n - 1);
      before[GroupLabel(n - 1) := clusters[n - 1].summaries[feature].mean]
  }

  /** `result.features.map(feature => point)` restricted to the first n features. */
  function RadarPoints(res: AnalysisResult, n: nat): (r: seq<RadarPoint>)
    requires n <= |res.features|
    requires HasEveryFeature(res)
    ensures |r| == n
    ensures forall j :: 0 <= j < n ==>
      r[j].feature == res.features[j] && r[j].groups == GroupMeans(res.clusters, res.features[j], |res.clusters|)
  {
    if n == 0 then []
    else
      var f := res.features[n - 1];
      RadarPoints(res, n - 1) + [RadarPoint(f, GroupMeans(res.clusters, f, |res.clusters|))]
  }

  function PrepareRadarData(result: Option<AnalysisResult>): (r: seq<RadarPoint>)
    requires result.Some? ==> HasEveryFeature(result.value)
    ensures result.None? ==> r == []
    ensures result.Some? ==> |r| == |result.value.features|
    ensures result.Some? ==> forall j :: 0 <= j < |r| ==>
      r[j].feature == result.value.features[j] &&
      r[j].groups.Keys == GroupLabelsUpTo(|result.value.clusters|) &&
      forall i :: 0 <= i < |result.value.clusters| ==>
        GroupLabel(i) in r[j].groups &&
        r[j].groups[GroupLabel(i)] == result.value.clusters[i].summaries[result.value.features[j]].mean
  {
    match result
    case None => []
    case Some(res) => RadarPoints(res, |res.features|)
  }

  /** Every bar has its own name, so no two clusters fall on one category of the bar chart. */
  lemma DistributionNamesDistinct(result: Option<AnalysisResult>, i: nat, j: nat)
    requires i < |PrepareDistributionData(result)| && j < |PrepareDistributionData(result)|
    requires i != j
    ensures PrepareDistributionData(result)[i].name != PrepareDistributionData(result)[j].name
  {
    if GroupLabel(i) == GroupLabel(j) {
      GroupLabelInjective(i, j);
    }
  }

  /** The bar names are the labels of the clusters' positions. */
  lemma DistributionNames(result: Option<AnalysisResult>)
    requires result.Some?
    ensures (set e | e in PrepareDistributionData(result) :: e.name) == GroupLabelsUpTo(|result.value.clusters|)
  {
    var n := |result.value.clusters|;
    var d := PrepareDistributionData(result);
    var names := set e | e in d :: e.name;
    forall k | k in GroupLabelsUpTo(n) ensures k in names {
      GroupLabelsUpToMembers(n, k);
      var i :| 0 <= i < n && k == GroupLabel(i);
      assert d[i] in d;
    }
    forall k | k in names ensures k in GroupLabelsUpTo(n) {
      var i :| 0 <= i < |d| && d[i].name == k;
      GroupLabelsUpToMembers(n, k);
    }
  }

  /**
   * The keys of every radar point are exactly the bar names, one per cluster:
   * each per-cluster `Radar dataKey` finds its value, and no extra series appears.
   */
  lemma RadarKeysAreDistributionNames(result: Option<AnalysisResult>, j: nat)
    requires result.Some? && HasEveryFeature(result.value)
    requires j < |result.value.features|
    ensures PrepareRadarData(result)[j].groups.Keys ==
            set e | e in PrepareDistributionData(result) :: e.name
    ensures |PrepareRadarData(result)[j].groups| == |PrepareDistributionData(result)|
  {
    DistributionNames(result);
    GroupLabelsUpToSize(|result.value.clusters|);
  }
}
