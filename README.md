# Eye-clustering front end: upload workflow and chart shaping

This project models the logic of the single-page front end `src/App.js` of an
ocular-biometry clustering tool, and proves properties of that model. The page
lets a user pick a spreadsheet, posts it to a remote clustering service, keeps
the returned per-cluster statistics, and draws them as a bar chart (cluster
sizes), a radar chart (feature means per cluster) and one card per cluster.
The model covers the three pieces of that page that are logic rather than
markup:

- **Upload workflow** (`upload_workflow.dfy`, module `UploadWorkflow`): the
  component state `file`, `loading`, `result` and `error` becomes the class
  `App` with those four fields. `handleFileChange` is `SelectFile`.
  `handleUpload` is split at its `await` into `BeginUpload` (the check for a
  selected file, then setting the loading flag and issuing the request) and
  `FinishUpload` (the rest of the handler, given the service's answer as an
  `Outcome`). The button's `disabled` guard is `UploadEnabled`, and a click is
  `PressUploadButton`. A ghost counter `pending` tracks issued requests whose
  answer has not arrived yet. `Valid()` says at most one request is in flight,
  and only while `loading` is set.
- **Chart shaping** (`chart_data.dfy`, module `ChartData`):
  `prepareDistributionData` and `prepareRadarData` are written as recursive
  functions over the result's `clusters` and `features` sequences. The series
  labels `Grupo ${idx + 1}` are defined in `group_labels.dfy`, with decimal
  rendering of the number and its inverse.
- **Per-cluster display tables** (`cluster_display.dfy`, module
  `ClusterDisplay`): `COLORS[idx]`, `CLUSTER_NAMES[idx]` and the three
  clinical interpretation texts, each as a lookup that returns `Option`.

The data model (`analysis_results.dfy`) follows the JSON the page receives:
`total_records`, `num_clusters`, `features` and `clusters`. Each cluster has
`count`, `percentage`, and one `{mean, std, min, max}` summary per feature
name. The numbers are only copied, never computed, so they are `real` and
`int`.

Four behaviours of `src/App.js` worth noting:

- The page does not validate the received body; it stores it as-is.
  The shape the chart code relies on (every cluster has every feature) is a
  precondition of `PrepareRadarData`.
- The display tables do not wrap around. From index 3 on, `COLORS[idx]` and
  `CLUSTER_NAMES[idx]` are `undefined`, and the interpretation expressions
  `idx === 0 && "..."` are `false`, so nothing is shown.
- `handleUpload` itself does not refuse to start while a request is loading.
  Only the button's `disabled={!file || loading}` does.
  `BeginUpload` keeps `Valid()` only when nothing was loading, while
  `PressUploadButton` always keeps it.
- A non-2xx answer shows `detail || "Erro ao processar arquivo"`, so an empty
  `detail` also falls back to the fixed message. A failed answer does not
  clear an earlier `result`.

## Model

| member | source | states |
|---|---|---|
| GroupLabels.Decimal | src/App.js:90 | the number in a `Grupo ${idx + 1}` label prints as a non-empty string of decimal digits, one digit exactly for numbers below 10 |
| GroupLabels.DecimalNoLeadingZero | src/App.js:90 | a positive number prints without a leading zero, so `Grupo 10` and never `Grupo 010` |
| GroupLabels.DecimalRoundTrip | src/App.js:90 | reading the printed digits back gives the number again |
| GroupLabels.GroupLabel | src/App.js:99 | every cluster label starts with "Grupo " |
| GroupLabels.GroupLabelInjective | src/App.js:88-91 | two cluster positions with the same label are the same position, so no radar key is written twice |
| ChartData.DistributionEntries | src/App.js:98-102 | the mapped prefix of clusters has one entry per cluster, in order, entry i named `Grupo i+1` with cluster i's count and percentage |
| ChartData.PrepareDistributionData | src/App.js:96-103 | no result gives no bars; otherwise exactly one bar per cluster in cluster order, bar i named `Grupo i+1` with cluster i's count and percentage unchanged |
| ChartData.GroupMeans | src/App.js:88-91 | after the forEach over the first n clusters, the point's keys are exactly the labels of those n clusters and key `Grupo i+1` holds cluster i's mean for the feature |
| ChartData.RadarPoints | src/App.js:87-93 | one point per feature in feature order, each carrying that feature and the per-cluster means |
| ChartData.PrepareRadarData | src/App.js:85-94 | no result gives no points; otherwise one point per feature in feature order, point j for features[j], whose group keys are exactly the cluster labels, with `Grupo i+1` equal to clusters[i][features[j]].mean |
| ChartData.DistributionNamesDistinct | src/App.js:98-99 | different bars always have different names |
| ChartData.DistributionNames | src/App.js:99 | the set of bar names is exactly the set of labels of the cluster positions |
| ChartData.RadarKeysAreDistributionNames | src/App.js:85-103 | every radar point has exactly the bar names as keys, as many as there are clusters |
| ClusterDisplay.ClusterColor | src/App.js:77 | a colour exists exactly for cluster indices 0, 1 and 2 |
| ClusterDisplay.ClusterName | src/App.js:78-82 | a card title exists exactly for cluster indices 0, 1 and 2 |
| ClusterDisplay.ClinicalInterpretation | src/App.js:316-321 | an interpretation text exists exactly for cluster indices 0, 1 and 2 |
| ClusterDisplay.ColorsDistinct | src/App.js:77 | the three clusters that have a colour all have different colours |
| ClusterDisplay.InterpretationsDistinct | src/App.js:316-321 | the three interpretation texts differ from one another |
| ClusterDisplay.ClusterNameExtendsGroupLabel | src/App.js:78-82 | card title i begins with chart label `Grupo i+1` followed by a colon |
| ClusterDisplay.NoWrapAround | src/App.js:77-82 | from index 3 on, the colour, the title and the text all differ from those of index idx mod 3: no table wraps around |
| UploadWorkflow.HttpErrorMessage | src/App.js:65 | the message for a non-2xx answer is the detail when it is non-empty, otherwise "Erro ao processar arquivo", and never empty |
| UploadWorkflow.App.UploadEnabled | src/App.js:157 | the button is enabled exactly when a file is selected and nothing is loading; when the page is consistent, an enabled button means no request is in flight |
| UploadWorkflow.App.constructor | src/App.js:29-32 | no file, not loading, no result, no error, nothing in flight |
| UploadWorkflow.App.SelectFile | src/App.js:36-43 | a chosen file replaces the selection and clears error and result; with no file chosen nothing changes; loading is never touched |
| UploadWorkflow.App.BeginUpload | src/App.js:45-52 | without a file: error becomes "Por favor, selecione um arquivo primeiro.", no request, nothing else changes; with a file: that file is requested, loading is set, error cleared, file and result untouched |
| UploadWorkflow.App.FinishUpload | src/App.js:63-74 | loading ends in every case and the file is kept; success stores the data and leaves the error; an error answer or a failure sets the message and keeps the previous result |
| UploadWorkflow.App.PressUploadButton | src/App.js:155-157 | the button issues a request exactly when a file is selected and nothing is loading, and otherwise changes nothing; at most one request is ever in flight |
| UploadWorkflow.UploadWithoutFile | src/App.js:46-49 | the handler with no file shows the no-file message, issues nothing and does not start loading |
| UploadWorkflow.ServerErrorShown | src/App.js:63-73 | a non-empty server detail is shown verbatim and the button is enabled again afterwards |
| UploadWorkflow.FailedRetryKeepsResult | src/App.js:68-73 | a failed second analysis of the same file keeps the earlier result and shows the failure message |

## Left out

- All markup, styling and the chart and icon components (src/App.js:1-26 and 105-355). They are presentation and foreign libraries.
- `fetch`, `FormData`, the service address and `response.json()`. They are network I/O; the awaited answer is the `Outcome` passed to `FinishUpload`.
- A non-2xx answer whose body is not JSON. The message then comes from the JSON parser, and that message can only be passed in as `Failure(message)`.
- A 2xx body that is `null` or otherwise falsy. `Ok` always carries an `AnalysisResult`.
- A `detail` that is not a string, such as a number or an object. `detail` is an optional string here.
- The clustering and the result's statistics. They are computed by the remote service.
- The commented-out `correct_frequency` block and the fixed conclusion text. They are inactive or static.
- ChartData.PrepareRadarData: a cluster is a record with separate `count`, `percentage` and a map of feature summaries. In the JavaScript object, a feature named "count" or "percentage" would clash with those fields; the model does not reproduce that clash.
- UploadWorkflow.App.FinishUpload: it requires an issued request (`pending > 0`). React's batching of state updates and the closure's stale view of `file` are not modelled; the handlers run one after another.
- Selecting a new file while a request is loading is allowed, as in the code. The earlier request's answer then lands on the new selection; the model keeps this behaviour but proves nothing further about it.
