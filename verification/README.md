# Water-leak detection tally, modelled in Dafny

The repository's one routine, `final_json_fix_test`, sends pump images to a
hosted object-detection model. For each image it tallies the detections whose
class name mentions a leak or a normal pump, prints a simulated alert for
images with leaks, and finishes with a run summary. The summary holds an
overall severity, a risk score, dispatch and coordination states, and linear
"business impact" figures.

This project models that tally and scoring logic as pure Dafny, in seven modules:

- `Common`: `Option`, `Result`, `Min`, a generic left-to-right `Sum` with its append, bound and pointwise lemmas, and `Pairwise`, which relates two sequences position by position.
- `Text`: ASCII `str.lower()`, the substring test `p in s` (an executable scan proved equal to a reference "occurs at some index" predicate), and the file name of a Windows path (`path.split('\\')[-1]`).
- `Decimal`: the decimal text `f"{n}"` of a natural number, and the parser that reads a number back out of a `prefix + digits + suffix` text whose digits are written without a leading zero. Two round-trip lemmas connect them in both directions.
- `Detections`: the raw prediction entry with every key optional. Also the per-detection detail record (defaults `"unknown"` and `0`), the classifier, and the detection loop `TallyDetections` checked against a reference count.
- `Alerts`: the per-image alert, with severity MEDIUM/HIGH, risk `min(10, 5 + 2*leaks)`, and its message.
- `Aggregate`: the overall severity and risk score, the dispatch/coordination states, the rendered risk and business-figure texts, and `Summarize`.
- `Pipeline`: the per-image record (`Analyzed` or `Failed`), the image loop that accumulates the run totals, and the whole run. It also holds lemmas tying the totals to independent sums over the inputs.

The remote prediction call is a parameter. Each `ImageInput` carries the image
path and either the `predictions` list the call returned or the text of the
error it raised. The source catches that error per image; here it is a
`Result`, following the source's own per-image record `{"image", "error"}`.

Two behaviours of the code worth stating:
- A name containing both "leak" and "normal" counts only as a leak, because "normal" is tested in an `elif` after "leak" (line 83; see `Detections.LeakTakesPrecedence`).
- A failed image's record keeps its image name as well as its error (line 121), so `Failed` carries both.

## Model

| member | source | states |
|---|---|---|
| Text.Lower | roboflow_test1.py:81 | `class_name.lower()` on ASCII: same length, each character lower-cased and no upper-case letter left |
| Text.LowerIdempotent | roboflow_test1.py:81 | lower-casing an already lower-cased name changes nothing |
| Text.HasSubstring | roboflow_test1.py:81-83 | the `in` test is true exactly when the pattern occurs at some position of the text |
| Text.ImageName | roboflow_test1.py:44 | the image name is the longest suffix of the path with no backslash; if shorter than the path, a backslash precedes it |
| Text.ImageNameOfJoin | roboflow_test1.py:44 | the name of `dir\file` is `file` for every directory and every backslash-free file name |
| Text.ImageNameWithoutSeparator | roboflow_test1.py:44 | a path without a backslash is its own image name |
| Decimal.Show | roboflow_test1.py:170 | the rendered count is a non-empty digit string with no leading zero except for 0 |
| Decimal.ValueOfShow | roboflow_test1.py:170 | reading the rendered digits back gives the number |
| Decimal.ShowOfValue | roboflow_test1.py:170 | every digit string without a leading zero is the rendering of the number it denotes |
| Decimal.FramedRoundTrip | roboflow_test1.py:150 | a number framed by fixed text (`"9/10"`, `"$… per major leak prevented"`) parses back to itself |
| Decimal.FramedParseExact | roboflow_test1.py:150 | a text that parses to `n` is exactly `n`'s rendering between the prefix and the suffix, so a parsed figure fixes the whole text |
| Detections.Classify | roboflow_test1.py:81-84 | Leak iff the lower-cased name contains "leak"; Normal iff it contains "normal" but not "leak"; otherwise neither |
| Detections.DetailOf | roboflow_test1.py:64-78 | a detection's detail keeps the class, confidence and box values that are present; a missing class reads as "unknown" and a missing number as 0 |
| Detections.ClassifyIgnoresCase | roboflow_test1.py:81-84 | two names equal up to ASCII case are counted the same way |
| Detections.ClassifyLowered | roboflow_test1.py:81 | classifying a name that is already lower-cased gives the same kind as the original name |
| Detections.LeakTakesPrecedence | roboflow_test1.py:81-84 | every name whose lower-cased form contains both "leak" and "normal" counts as a leak, because the `elif` puts leak first |
| Detections.NormalWithLeakIsLeak | roboflow_test1.py:81-84 | the name "normal_with_leak" counts as a leak |
| Detections.DefaultClassIsUnmatched | roboflow_test1.py:65 | an entry without a class reads as "unknown", which increments neither counter |
| Detections.UpperNormalIsNormal | roboflow_test1.py:83 | "NORMAL pump" counts as normal, whatever its case |
| Detections.LeakingPumpIsLeak | roboflow_test1.py:81 | the class "Leaking_Pump" counts as a leak |
| Detections.CountsPartition | roboflow_test1.py:60-84 | leak, normal and unmatched counts add up to the number of detections, so leaks plus normals never exceed it |
| Detections.TallyDetections | roboflow_test1.py:60-84 | the loop's counters equal the reference counts; leaks plus normals are at most the detections; exactly one detail per detection, in order |
| Detections.TallyIsRepeatable | roboflow_test1.py:60-84 | tallying the same list twice gives identical counters and details |
| Alerts.ImageAlert | roboflow_test1.py:107-113 | an alert exists iff leaks > 0; HIGH iff leaks > 1, else MEDIUM; its risk is the per-image risk of that leak count, so it lies in [7, 10] |
| Alerts.ImageRisk | roboflow_test1.py:113 | the per-image risk is 5 + 2 × leaks below three leaks (7 for one, 9 for two) and the cap of 10 iff there are at least three |
| Alerts.SeverityLabel | roboflow_test1.py:108 | each alert severity prints as a label that reads back as that severity |
| Alerts.ImageRiskMonotone | roboflow_test1.py:113 | the per-image risk never decreases as the leak count grows |
| Alerts.AlertMessageCount | roboflow_test1.py:112 | the leak count reads back from the alert message |
| Aggregate.OverallLevel | roboflow_test1.py:134 | CRITICAL iff total leaks >= 3; HIGH iff 1 <= leaks < 3; NORMAL iff no leaks |
| Aggregate.LevelLabel | roboflow_test1.py:134 | each overall severity is recorded as a label that reads back as that level |
| Aggregate.OverallLevelMonotone | roboflow_test1.py:134 | the overall severity never drops as total leaks grow |
| Aggregate.OverallRisk | roboflow_test1.py:135 | the overall risk is 3 + 2 × leaks for 1 to 3 leaks (5, 7, 9), 2 iff there are no leaks, and the cap of 10 iff there are at least 4 |
| Aggregate.OverallRiskMonotone | roboflow_test1.py:135 | the overall risk never decreases as total leaks grow |
| Aggregate.RiskText | roboflow_test1.py:150 | the `"<score>/10"` text reads back as the score; with `FramedParseExact` this fixes the text |
| Aggregate.WaterText | roboflow_test1.py:170 | the water text reads back as leaks × 5000, which fixes it as `"<leaks × 5000> gallons/hour"` |
| Aggregate.CostText | roboflow_test1.py:171 | the cost text reads back as leaks × 25000, which fixes it as `"$<leaks × 25000> per major leak prevented"` |
| Aggregate.DispatchState | roboflow_test1.py:164 | the maintenance dispatch is TRIGGERED when there is a leak and STANDBY otherwise |
| Aggregate.CoordinationState | roboflow_test1.py:166 | the response coordination is MULTI-AGENCY when there is a leak and ROUTINE otherwise |
| Aggregate.Summarize | roboflow_test1.py:133-171 | a summary exists iff leaks or normals are non-zero; it carries the counts; its severity label reads back as the overall level; risk, water and cost read back from their texts; dispatch is TRIGGERED with leaks and STANDBY without, coordination MULTI-AGENCY with leaks and ROUTINE without |
| Aggregate.NoLeaksSummary | roboflow_test1.py:133-170 | with normals but no leaks: NORMAL, "2/10", STANDBY, ROUTINE, "0 gallons/hour" |
| Aggregate.ThreeLeaksSummary | roboflow_test1.py:134-135 | three leaks give CRITICAL and "9/10" |
| Aggregate.ThreeLeaksWater | roboflow_test1.py:170 | three leaks render as "15000 gallons/hour" |
| Aggregate.ThreeLeaksCost | roboflow_test1.py:171 | three leaks render as "$75000 per major leak prevented" |
| Pipeline.AnalyzeImage | roboflow_test1.py:48-121 | a failed prediction gives a record with the image name and the error only; a successful one gives the counts, the detection total and one detail per detection |
| Pipeline.AnalyzeAll | roboflow_test1.py:39-121 | one record per image, in order, each the record of its input; the run totals are the sums of leaked and normal counts over the records |
| Pipeline.RunAll | roboflow_test1.py:39-171 | as above; images analysed equals the number of error-free records and is at most the number of images; equipment monitored is at most the total detections; the summary exists iff a total is non-zero |
| Pipeline.TotalsStep | roboflow_test1.py:86-88 | adding one image's record adds exactly its own counts to the totals (nothing for a failure) |
| Pipeline.SuccessCountAtMostImages | roboflow_test1.py:146 | the number of images analysed never exceeds the number of records |
| Pipeline.RecordMatchesInput | roboflow_test1.py:86-98 | one stored record adds its response's leak and normal counts to the totals, nothing for a failed call, and one success only for a successful call; its counted pumps never exceed its detections |
| Pipeline.EquipmentAtMostDetections | roboflow_test1.py:130 | total leaks plus total normals never exceed the total detections |
| Pipeline.FailureContributesNothing | roboflow_test1.py:119-121 | a failed image adds a record but changes neither total nor the success count |
| Pipeline.TotalsAppend | roboflow_test1.py:86-88 | totals and success counts of consecutive batches add up |
| Pipeline.TotalsFollowInputs | roboflow_test1.py:86-127 | the run totals equal the counts over successful responses only, and the success count equals the number of successful calls |
| Pipeline.NoCountsNoSummary | roboflow_test1.py:133 | when the responses hold no leak and no normal detection, no summary is produced |
| Pipeline.EmptyResponsesCountNothing | roboflow_test1.py:60-88 | images whose responses have zero detections add nothing to either total |
| Pipeline.TwoLeakingPumpsExample | roboflow_test1.py:81-113 | two "Leaking_Pump" detections give two leaks and a HIGH alert with risk 9 |
| Pipeline.AlertOfRecord | roboflow_test1.py:107-113 | for an analysed image, the alert names the image and exists iff its response held a leak, and is HIGH iff it held more than one |

## Left out

- Client setup and the prediction call (lines 15-26, 51) are network calls into a library that is not part of this model. Their result is an input.
- JSON decoding of the response and the `predictions` default of `[]` (lines 54-55) are not modelled. The predictions list is given directly.
- Confidence and bounding-box values are carried as `real` and never computed on. Python floats are not modelled.
- A failure while walking the predictions of one image (for example, a malformed entry) is not modelled. Only the prediction call can fail. In the source such a failure also leaves the totals unchanged, because they are updated after the loop.
- Console output is not modelled: emoji banners, `print` text, `json.dumps` formatting, and the per-image "Normal operation" message.
- The static summary fields are not modelled (`demoStatus`, facility ids and names, the Roboflow block, the fixed "AUTOMATED"/"INTEGRATED" states, the highlight strings). Neither is the duplicate `leaksDetected` inside `businessImpact`, which is the same total.
- The alert's fixed facility, action and response-time lines are not modelled; only severity, risk and message are.
- The timestamp `datetime.now().isoformat()` (line 151) depends on the clock.
- The outer `try`/`except` and the boolean return (lines 20, 212-216) are not modelled: the only statements inside them that can fail are the setup calls, which are left out.
- Text.Lower: lower-cases ASCII letters only, not the full Unicode `str.lower()`.
- The error text of a failed image is whatever string the input carries. How Python's `str(e)` renders an exception is not modelled.
