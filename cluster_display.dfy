/**
 * The fixed per-cluster display tables: the colour `COLORS[idx]`, the title
 * `CLUSTER_NAMES[idx]` and the clinical interpretation chosen by
 * `idx === 0 / 1 / 2`. Each is a plain lookup with no wrap-around: beyond the
 * three predefined clusters it yields nothing (`undefined`, or no text).
 */
module ClusterDisplay {
  import opened Wrappers
  import opened GroupLabels

  const Colors: seq<string> := ["#3b82f6", "#10b981", "#f59e0b"]

  const ClusterNames: seq<string> := [
    "Grupo 1: Olhos Compactos",
    "Grupo 2: Olhos Médios",
    "Grupo 3: Olhos Alongados"
  ]

  const CompactEyesText: string :=
    "Olhos com comprimento axial menor e câmara anterior mais rasa. Típico de olhos hipermétropes ou de estrutura mais compacta."
  const AverageEyesText: string :=
    "Características biométricas dentro da média populacional. Representa o padrão mais comum de olhos emétropes."
  const ElongatedEyesText: string :=
    "Olhos com maior comprimento axial, geralmente associados a miopia. Apresentam câmara anterior mais profunda."

  /** `COLORS[idx]`: a colour only for the first three clusters. */
  function ClusterColor(idx: nat): (color: Option<string>)
    ensures color.Some? <==> idx < 3
  {
    if idx < |Colors| then Some(Colors[idx]) else None
  }

  /** `CLUSTER_NAMES[idx]`: a title only for the first three clusters. */
  function ClusterName(idx: nat): (name: Option<string>)
    ensures name.Some? <==> idx < 3
  {
    if idx < |ClusterNames| then Some(ClusterNames[idx]) else None
  }

  /** The interpretation paragraph: one of three texts, or no text at all. */
  function ClinicalInterpretation(idx: nat): (text: Option<string>)
    ensures text.Some? <==> idx < 3
  {
    if idx == 0 then Some(CompactEyesText)
    else if idx == 1 then Some(AverageEyesText)
    else if idx == 2 then Some(ElongatedEyesText)
    else None
  }

  /** The three clusters that have a colour get three different colours. */
  lemma ColorsDistinct(i: nat, j: nat)
    requires i < 3 && j < 3 && i != j
    ensures ClusterColor(i) != ClusterColor(j)
  {
  }

  /** The three interpretation texts are pairwise different. */
  lemma InterpretationsDistinct(i: nat, j: nat)
    requires i < 3 && j < 3 && i != j
    ensures ClinicalInterpretation(i) != ClinicalInterpretation(j)
  {
  }

  /**
   * The card title of cluster idx begins with the label the charts give that
   * cluster, followed by a colon: the cards, the bars and the radar series agree.
   */
  lemma ClusterNameExtendsGroupLabel(idx: nat)
    requires idx < 3
    ensures var name := ClusterName(idx).value;
      |name| > |GroupLabel(idx)| &&
      name[..|GroupLabel(idx)|] == GroupLabel(idx) &&
      name[|GroupLabel(idx)|] == ':'
  {
  }

  /** Past the third cluster no table wraps around to the start, as a cyclic palette would. */
  lemma NoWrapAround(idx: nat)
    requires idx >= 3
    ensures ClusterColor(idx) != ClusterColor(idx % 3)
    ensures ClusterName(idx) != ClusterName(idx % 3)
    ensures ClinicalInterpretation(idx) != ClinicalInterpretation(idx % 3)
  {
  }
}
