# SpeedInspect core in Dafny

SpeedInspect is a browser app for house inspection. The user records a walkthrough video, and a detector
examines the extracted frames. Repeated detections of the same problem are merged across frames. The
problems end up in a report with a severity summary and a 0–100 score, and a Redux store slice holds
the report being built and the saved reports.

This project models four pieces of that system:

- `types.dfy` (module `Types`): the domain types.
  - The 15 problem categories with their string tags, and the category table of display labels and icons.
  - The five severity levels with their ordinals 1–5, and the five property types.
  - The records: problem, bounding box, report, summary, capture state and analysis state.
- `reportgenerator.dfy` (module `ReportGenerator`): report assembly.
  - The summary computation: severity buckets, total cost and the clamped score.
  - Report creation, grouping problems by category, and the download file name.
- `aianalyzer.dfy` (module `AIAnalyzer`):
  - the per-frame conversion of detections into problems, with ids and location text;
  - the cross-frame merge, where a detection is deduplicated by the key `category-description`;
  - the progress callback sequence.
- `inspectionslice.dfy` (module `InspectionSlice`): the store slice as a class `InspectionState`, with
  one method per reducer and the in-place summary refresh.

Support files:

- `wrappers.dfy`: an `Option` type.
- `sequences.dfy`: an order-preserving subsequence predicate.
- `scenarios.dfy`: the documented merge scenarios.

The loops of the source are written as imperative methods:

- `CalculateSummary`, `GroupProblemsByCategory`, `AnalyzeFrame`, `AnalyzeVideoFrames` and
  `UpdateReportSummary` are `for` loops;
- `MergeFrame` is the loop over one frame, and `MergeDetection` is its body.

Each method is proved equal to a specification function:

- `SummaryOf` for the summary;
- `OfCategory` for each group, and `CategoryOrder` for the order of the groups' keys;
- `Aggregate` for the merged list, which folds `Merge` over the flattened detections.

The properties of these functions are proved as lemmas.

Where the inputs come from:

- Clock readings (`Date.now()`, `new Date()`) are parameters: `id` and `createdAt`.
- The detector's output is an input: one list of problems per frame for the merge, and one list of
  detections for a single frame.
- The decimal rendering of a frame timestamp is passed in as text.
- Image sizes are passed as positive reals.
- The optional progress callback is modelled by returning the sequence of calls it would receive.

The merge rule. A repeated detection (same category and description) replaces the stored entry
only when both hold (`lib/aiAnalyzer.ts:83-89`):

- the new confidence exceeds 0.8;
- the new confidence is higher than the stored one.

Being more confident is therefore not enough. `Scenarios.HigherBelowThresholdKeeps` shows this:
0.5 followed by 0.7 keeps 0.5. The key joins the category tag and the description with `-`. No
category tag contains a hyphen, so the key is injective (`AIAnalyzer.ProblemKeyInjective`).

## Model

| member | source | states |
|---|---|---|
| Types.CategoryTag | types/index.ts:6-22 | The string value of each of the 15 categories, as declared. |
| Types.CategoryFromTag | types/index.ts:6-22 | Parsing a string gives a category only when that category's tag is exactly the string. |
| Types.CategoryTagRoundTrip | types/index.ts:6-22 | Every category's tag parses back to that category. |
| Types.CategoryTagInjective | types/index.ts:6-22 | Distinct categories have distinct string tags. |
| Types.CategoryTagHasNoHyphen | types/index.ts:6-22 | No category tag is empty or contains `-`. This is what makes the dedup key unambiguous. |
| Types.Ordinal | types/index.ts:25-31 | The numeric value of a severity level lies in 1..5. |
| Types.SeverityFromOrdinal | types/index.ts:25-31 | A number names a severity level exactly when it lies in 1..5, and then that level's ordinal is the number. |
| Types.SeverityOrdinalRoundTrip | types/index.ts:25-31 | Ordinal then lookup gives back the level. |
| Types.SeverityOrder | types/index.ts:25-31 | MINOR < LOW < MODERATE < HIGH < CRITICAL by ordinal. |
| Types.PropertyTypesDistinct | types/index.ts:80-86 | The five property types are all listed, each once, with distinct tags. |
| Types.CategoryInfo | types/index.ts:105-121 | The display label and icon of each category, as in the table. |
| Types.CategoryTableComplete | types/index.ts:105-121 | The category list has 15 entries, contains every category and repeats none. The table has an entry for each. |
| Types.CategoryLabelsDistinct | types/index.ts:105-121 | Different categories have different display labels. |
| ReportGenerator.Clamp | lib/reportGenerator.ts:69 | `max(0, min(100, x))`: the result is in 0..100. It equals x inside that range, 0 below it and 100 above it. |
| ReportGenerator.SummaryOf | lib/reportGenerator.ts:41-80 | The summary as a function of the problems: the count, the four bucket counts, the cost total and the clamped score. |
| ReportGenerator.CalculateSummary | lib/reportGenerator.ts:41-80 | The counting loop returns `SummaryOf(problems)`. Its count is the list length and its score is in 0..100. |
| ReportGenerator.TotalAppend | lib/reportGenerator.ts:48-65 | Every bucket count and the cost total are additive over concatenation. |
| ReportGenerator.BucketBounds | lib/reportGenerator.ts:48-65 | Each severity bucket count lies between 0 and the number of problems. |
| ReportGenerator.TotalPermutation | lib/reportGenerator.ts:48-65 | A bucket count or the cost total does not depend on the order of the problems. |
| ReportGenerator.SummaryPermutation | lib/reportGenerator.ts:41-80 | Reordering the problems leaves the whole summary unchanged. |
| ReportGenerator.SummaryBounds | lib/reportGenerator.ts:41-80 | Each count is between 0 and the total and the score is in 0..100. When every severity is 1..5, the four buckets add up to the total. |
| ReportGenerator.BucketsPartition | lib/reportGenerator.ts:50-64 | With severities in 1..5, every problem falls into exactly one bucket: critical, high, moderate, or low (which takes both 1 and 2). |
| ReportGenerator.EmptySummary | lib/reportGenerator.ts:41-80 | No problems: all counts and the cost are 0 and the score is 100. |
| ReportGenerator.AppendNeverRaisesScore | lib/reportGenerator.ts:67-69 | Adding problems never raises the score. The cost and the count grow by exactly what is added. |
| ReportGenerator.SummaryOfAppendOne | lib/reportGenerator.ts:48-65 | One more problem adds one to the count, its cost to the total, and one to exactly the bucket its severity selects. |
| ReportGenerator.CreateReport | lib/reportGenerator.ts:22-36 | The new report carries the given type, address and problems and no media. Its summary is the one its problems determine. |
| ReportGenerator.OfCategory | lib/reportGenerator.ts:313-318 | The problems of one category, in input order. |
| ReportGenerator.CategoryOrder | lib/reportGenerator.ts:313-318 | The categories in the order their first problem appears, each once. |
| ReportGenerator.GroupProblemsByCategory | lib/reportGenerator.ts:308-321 | A category is a key exactly when some problem has it. Its group is the problems of that category in input order, and it is never empty. The keys come back in insertion (first-seen) order, the order `Object.entries` lists them. |
| ReportGenerator.CategoryOrderElements | lib/reportGenerator.ts:313-318 | The key order lists exactly the categories that some problem has. |
| ReportGenerator.CategoryOrderDistinct | lib/reportGenerator.ts:313-318 | No category is listed twice in the key order. |
| ReportGenerator.CategoryOrderExtends | lib/reportGenerator.ts:313-318 | Later problems only add keys at the end: a key created earlier is listed earlier. |
| ReportGenerator.OfCategoryMembers | lib/reportGenerator.ts:313-318 | A group holds only problems of its category. |
| ReportGenerator.OfCategoryMultiplicity | lib/reportGenerator.ts:313-318 | A group holds each problem of its category as many times as the input does, and nothing else. |
| ReportGenerator.OfCategoryKeepsOrder | lib/reportGenerator.ts:313-318 | A group is a subsequence of the input: `push` keeps the input order. |
| ReportGenerator.ReportFilename | lib/reportGenerator.ts:284-292 | The name is `inspection-report-`, then the id, then the five-character extension. |
| ReportGenerator.ReportFilenameInjective | lib/reportGenerator.ts:284-292 | Different (id, format) pairs give different download names. |
| AIAnalyzer.HorizontalLabel | lib/aiAnalyzer.ts:233-235 | The label is left exactly at or below 33, middle strictly between 33 and 66, right at or above 66. It is two characters. |
| AIAnalyzer.VerticalLabel | lib/aiAnalyzer.ts:237-239 | The label is top exactly at or below 33, middle strictly between 33 and 66, bottom at or above 66. It is two characters. |
| AIAnalyzer.LocationDescription | lib/aiAnalyzer.ts:229-242 | The vertical label of y/height·100, followed by the horizontal label of x/width·100. |
| AIAnalyzer.NatToString | lib/aiAnalyzer.ts:50 | The decimal rendering of the index is never empty, and is one character exactly below 10. |
| AIAnalyzer.ParseNat | lib/aiAnalyzer.ts:50 | Reads a string of decimal digits, most significant first. |
| AIAnalyzer.NatToStringRoundTrip | lib/aiAnalyzer.ts:50 | Reading the rendering of the index back gives the index: it is the decimal rendering, most significant digit first. |
| AIAnalyzer.NatToStringInjective | lib/aiAnalyzer.ts:50 | Different indices render differently. |
| AIAnalyzer.ProblemId | lib/aiAnalyzer.ts:50 | The id `${timestamp}-${index}`. |
| AIAnalyzer.ProblemIdInjective | lib/aiAnalyzer.ts:50 | Within one frame, `${timestamp}-${index}` ids of different indices differ. |
| AIAnalyzer.ProblemFromDetection | lib/aiAnalyzer.ts:49-60 | The problem built from one detection: its fields, the frame timestamp, the id, the location text and the box. |
| AIAnalyzer.AnalyzeFrame | lib/aiAnalyzer.ts:40-65 | One problem per detection, in order. Each carries the detection's fields, the frame timestamp, the id `timestamp-index` and its location text. The ids are pairwise distinct. |
| AIAnalyzer.ProblemKey | lib/aiAnalyzer.ts:82 | The dedup key: the category tag, `-`, then the description. |
| AIAnalyzer.ProblemKeyInjective | lib/aiAnalyzer.ts:82 | Equal dedup keys mean equal category and equal description. |
| AIAnalyzer.Keys | lib/aiAnalyzer.ts:82 | The key list has one key per problem, position by position. |
| AIAnalyzer.FindByKey | lib/aiAnalyzer.ts:85-87 | `findIndex` on the key gives the first matching position, or -1 only when no problem has the key. |
| AIAnalyzer.Merge | lib/aiAnalyzer.ts:83-95 | One detection merged into the list: appended when its key is new, replacing the stored entry when it exceeds 0.8 and the stored confidence, dropped otherwise. |
| AIAnalyzer.Aggregate | lib/aiAnalyzer.ts:77-101 | All detections merged in order, starting from the empty list. |
| AIAnalyzer.Flatten | lib/aiAnalyzer.ts:77-81 | The frames' problems concatenated in frame order. |
| AIAnalyzer.MergeDetection | lib/aiAnalyzer.ts:82-95 | The branch structure on the seen set gives `Merge` of the list and the detection. It keeps the seen set equal to the list's keys. |
| AIAnalyzer.MergeFrame | lib/aiAnalyzer.ts:81-96 | Processing one frame's problems in order folds `Merge` over them. |
| AIAnalyzer.AnalyzeVideoFrames | lib/aiAnalyzer.ts:70-104 | The result is every frame's problems merged in order. With a callback there is one progress call per frame, `(i+1, n)`; without one there are none. |
| AIAnalyzer.KeysMerge | lib/aiAnalyzer.ts:83-95 | A merge appends the key of an unseen detection and leaves the key list as it was otherwise. |
| AIAnalyzer.MergeShape | lib/aiAnalyzer.ts:83-95 | An unseen key is appended. A seen key replaces its entry exactly when confidence > 0.8 and the stored confidence is lower. Otherwise nothing changes. |
| AIAnalyzer.MergeKeepsDistinct | lib/aiAnalyzer.ts:83-95 | A merge keeps the stored keys pairwise distinct. |
| AIAnalyzer.AggregateDistinct | lib/aiAnalyzer.ts:70-104 | The merged list never holds two problems with the same key. |
| AIAnalyzer.FirstSeenElements | lib/aiAnalyzer.ts:75 | First-occurrence order contains exactly the keys of the input. |
| AIAnalyzer.AggregateKeys | lib/aiAnalyzer.ts:70-104 | The merged list's keys are the input's keys in first-seen order, each once. |
| AIAnalyzer.MergeMonotone | lib/aiAnalyzer.ts:83-95 | A merge grows the list by at most one. No entry moves or changes key, and no stored confidence drops. |
| AIAnalyzer.AggregateMonotone | lib/aiAnalyzer.ts:70-104 | Merging more detections only appends entries and never lowers a stored confidence: the result after any prefix of frames stays valid. |
| AIAnalyzer.AggregateFromInput | lib/aiAnalyzer.ts:70-104 | Every merged entry is one of the detections. |
| AIAnalyzer.MergeCovers | lib/aiAnalyzer.ts:83-95 | After a merge the detection's key is stored. When its confidence exceeds 0.8, the stored confidence is at least as high. Earlier guarantees are kept. |
| AIAnalyzer.AggregateDominates | lib/aiAnalyzer.ts:70-104 | Every detection's key is in the result. Any detection above 0.8 is matched by a stored entry at least as confident. |
| Scenarios.SameKeyPair | lib/aiAnalyzer.ts:83-95 | Two detections of one issue keep the second exactly when it exceeds 0.8 and the first; otherwise they keep the first. |
| Scenarios.RisingConfidenceReplaces | lib/aiAnalyzer.ts:83-95 | 0.6 then 0.9: one entry, the 0.9 one. |
| Scenarios.FallingConfidenceKeeps | lib/aiAnalyzer.ts:83-95 | 0.9 then 0.6: the 0.9 entry stays. |
| Scenarios.HigherBelowThresholdKeeps | lib/aiAnalyzer.ts:83 | 0.5 then 0.7: the 0.5 entry stays, because 0.7 is not above the threshold. |
| Scenarios.ThreeFrameScenario | lib/aiAnalyzer.ts:70-104 | Frames [0.7], [], [0.95] of one issue merge to the 0.95 entry alone. Its summary counts one problem costing 500. |
| InspectionSlice.IndexOfReport | store/slices/inspectionSlice.ts:94 | `findIndex` by id gives the first position with the id, or -1 when none has it. |
| InspectionSlice.InspectionState.constructor | store/slices/inspectionSlice.ts:25-42 | The initial state: no current report, no saved reports, idle capture and analysis, apartment, online. |
| InspectionSlice.InspectionState.SetCurrentReport | store/slices/inspectionSlice.ts:54-56 | The current report becomes the payload, which may be none. |
| InspectionSlice.InspectionState.UpdateReportSummary | store/slices/inspectionSlice.ts:169-209 | The counting loop replaces only the current report's summary, with the one its problems determine. |
| InspectionSlice.InspectionState.AddProblem | store/slices/inspectionSlice.ts:61-66 | Without a report nothing changes. Otherwise the problem is appended, the other report fields stay, and the summary matches the new problems. |
| InspectionSlice.InspectionState.AddProblems | store/slices/inspectionSlice.ts:71-76 | As AddProblem, appending the whole list in order. |
| InspectionSlice.InspectionState.RemoveProblem | store/slices/inspectionSlice.ts:81-88 | Without a report nothing changes. Otherwise the problems become the id-filtered list and the summary matches it. |
| InspectionSlice.InspectionState.SaveReport | store/slices/inspectionSlice.ts:93-100 | The saved reports become the upsert of the payload: it replaces the first report with its id, or is appended. |
| InspectionSlice.InspectionState.DeleteReport | store/slices/inspectionSlice.ts:105-107 | The saved reports lose exactly the reports with the id. |
| InspectionSlice.InspectionState.SetVideoState | store/slices/inspectionSlice.ts:112-114 | The capture state is overlaid with the fields present in the patch. |
| InspectionSlice.InspectionState.SetAIState | store/slices/inspectionSlice.ts:119-121 | The analysis state is overlaid with the fields present in the patch. |
| InspectionSlice.InspectionState.SetPropertyType | store/slices/inspectionSlice.ts:126-128 | The selected property type becomes the payload. |
| InspectionSlice.InspectionState.SetOfflineMode | store/slices/inspectionSlice.ts:133-135 | The offline flag becomes the payload. |
| InspectionSlice.InspectionState.CreateNewReport | store/slices/inspectionSlice.ts:140-157 | The current report becomes an empty report for the selected type, with the literal zero summary and score 100. |
| InspectionSlice.InspectionState.ResetInspection | store/slices/inspectionSlice.ts:162 | Every field returns to its initial value. |
| InspectionSlice.WithoutProblem | store/slices/inspectionSlice.ts:83-85 | `problems.filter(p => p.id !== id)`. |
| InspectionSlice.WithoutReport | store/slices/inspectionSlice.ts:106 | `reports.filter(r => r.id !== id)`. |
| InspectionSlice.Upsert | store/slices/inspectionSlice.ts:93-100 | Replace the first report with the payload's id, or append the payload. |
| InspectionSlice.NewReport | store/slices/inspectionSlice.ts:141-155 | The new report: the given id, time and type, no problems, no address or media, the literal zero summary with score 100. |
| InspectionSlice.ApplyVideoPatch | store/slices/inspectionSlice.ts:113 | `{ ...state.videoState, ...payload }` over the fields present in the patch. |
| InspectionSlice.ApplyAIPatch | store/slices/inspectionSlice.ts:120 | `{ ...state.aiState, ...payload }` over the fields present in the patch. |
| InspectionSlice.WithoutProblemCount | store/slices/inspectionSlice.ts:83-85 | Filtering by id drops every copy of the problems with that id and keeps every copy of the rest. |
| InspectionSlice.WithoutProblemKeepsOrder | store/slices/inspectionSlice.ts:83-85 | The filtered problems keep their order. |
| InspectionSlice.WithoutProblemMembers | store/slices/inspectionSlice.ts:83-85 | Every remaining problem was there before and has a different id. |
| InspectionSlice.WithoutReportCount | store/slices/inspectionSlice.ts:106 | Deleting by id drops every copy of the reports with that id and keeps every copy of the rest. |
| InspectionSlice.WithoutReportKeepsOrder | store/slices/inspectionSlice.ts:106 | The remaining reports keep their order. |
| InspectionSlice.WithoutReportMembers | store/slices/inspectionSlice.ts:106 | Every remaining report was there before and has a different id. |
| InspectionSlice.WithoutReportKeepsUnique | store/slices/inspectionSlice.ts:106 | Deleting keeps saved report ids unique. |
| InspectionSlice.UpsertSpec | store/slices/inspectionSlice.ts:93-100 | An upsert changes only the first report with the payload's id, appends when no report has it, and always stores the payload. |
| InspectionSlice.UpsertKeepsUnique | store/slices/inspectionSlice.ts:93-100 | Saving keeps report ids unique. The set of ids gains exactly the payload's id. |
| InspectionSlice.NewReportConsistent | store/slices/inspectionSlice.ts:146-154 | The literal summary of a new report is the one its empty problem list determines. |
| InspectionSlice.ApplyAIPatchCompose | store/slices/inspectionSlice.ts:119-121 | Two partial updates in a row equal one combined update, with later fields winning. Repeating an update changes nothing. |
| InspectionSlice.ApplyVideoPatchCompose | store/slices/inspectionSlice.ts:112-114 | Two partial updates in a row equal one combined update. Repeating an update changes nothing. |
| InspectionSlice.ApplyAIPatchFrame | store/slices/inspectionSlice.ts:119-121 | Fields absent from the patch keep their value and present ones take the patch's. An empty patch is the identity. |
| InspectionSlice.ApplyVideoPatchFrame | store/slices/inspectionSlice.ts:112-114 | Fields absent from the patch keep their value and present ones take the patch's. An empty patch is the identity. |

## Left out

- `simulateDetection` (lib/aiAnalyzer.ts:109-224): the stub detector draws from `Math.random()`. Detections are an input instead.
- `initialize`, `isReady` and `dispose` on the analyzer: the model loading and resource handling of the TensorFlow library are foreign code.
- `generateHTML` and the Blob, link and click steps of `downloadReport`: HTML templating and browser I/O. Only the file name choice is modelled.
- `JSON.stringify` of a report (the `json` download content, and the serialization round trip): JSON is not modelled.
- Clocks: `Date.now().toString()` and `new Date()` become the `id` and `createdAt` parameters. `createdAt` is an integer rather than a date.
- Timestamp rendering: the decimal rendering of a timestamp (`${timestamp}`) is passed in as text. For the index, the rendering is modelled.
- Number types: confidences, coordinates, durations and timestamps are exact reals, not IEEE doubles. Counts, severities and costs are unbounded integers.
- `AIAnalyzer.LocationDescription`: its requires asks for positive image sizes. A browser `ImageData` always has them, so the division by zero of a zero-size image is not modelled.
- Partial payloads: an explicit `undefined` field overwrites a field in the spread but is treated here as absent. `Option` cannot distinguish the two.
- `imageData` on a problem: the analyzer never sets it, and it stays `None`.
- Severity typing: the source types severity as the enum but stores a number. The model keeps an integer, so values outside 1..5 are counted in no bucket, as the `switch` does.
- The rest of the repository: video capture, encryption, UI components and the store wiring.
- Redux machinery: immutability through Immer and action dispatch are replaced by a class whose methods update its fields.
- `InspectionSlice.InspectionState.CreateNewReport`: its contract states the new report but not, in the same clause, that its summary is consistent; `InspectionSlice.NewReportConsistent` states that separately.
