# Atlas benchmark bookkeeping of lumina-gallery, in Dafny

lumina-gallery's benchmark scripts keep a *timeline* of atlas-generation
benchmark results. Each timeline entry is a labelled snapshot of the
`zoom_test` trace sections of one Android macrobenchmark run. The scripts also
compare the runs of one optimisation against each other. This project models
the logic of those scripts:

- **`BenchmarkData`**: the raw macrobenchmark record. It holds benchmarks with
  their `metrics` object (an association list, because key order matters),
  `sampledMetrics`, run time and iterations, and the device `context`.
- **`BenchmarkCollector`** (`scripts/atlas_benchmark_collector.py`) covers:
  - the `atlas` profile registry;
  - snapshot extraction for one named test, including the missing-median
    `KeyError`;
  - the device context;
  - `get_latest_results`, with Python's `[-count:]` slice;
  - `get_optimization_comparison`.
- **`TimelineStore`**, the timeline as a `Timeline` class whose `entries`
  field the methods change in place. It covers:
  - `collect_benchmark_result`: the dirty-commit and duplicate-label checks
    and the mode dispatch;
  - baseline mode: every baseline-like entry is popped and the new entry is
    inserted first;
  - update-baseline mode: the first baseline-like entry is overwritten, or
    index 0 when there is none;
  - removal by an index list, which pops once per listed index;
  - the cleanup of `-dirty` entries.
- **`OptimizationTracker`** (`scripts/optimization_tracker.py`) covers:
  - the ±15% / ±5% change indicator;
  - the model > SDK > frequency device-consistency check;
  - the metric catalogue and metric lookup;
  - the time-metric filter;
  - the progress summary's selection and ordering;
  - the run-file name, and how the listing splits it.
- **`MetricsTable`** (`scripts/atlas_metrics_table.py`) covers the ±5% cell
  classifier, the table built by `print_metrics_table`, its memory row, and
  the total-time verdict against the 300 ms target.
- **`TimelineChart`** (`scripts/atlas_timeline_chart.py`) covers the
  performance data points and the decisions of the HTML report's conclusion.
  Each paragraph is a constructor of `Paragraph`; the HTML is not modelled.
- **`Common`, `Sorting`, `ListEdits`** hold the Python behaviour the scripts
  rely on:
  - substring `in`, `split`/`join`, ASCII `lower()`, `s[:n]`;
  - the stable `sort`;
  - `list.pop(i)` and its `IndexError`;
  - filtering, counting and first-match searches.

Floats are modelled as `real`, so no rounding takes place. Confirmation
prompts, the git commit and the timestamp are parameters.

## Model

| member | source | states |
|---|---|---|
| BenchmarkCollector.LoadProfile | scripts/atlas_benchmark_collector.py:31-93 | only the "atlas" profile exists: its 25 trace sections, frame and memory metrics and the 300 ms target; any other name is an error listing the available profiles |
| BenchmarkCollector.AtlasMetricsIncludeHeadlines | scripts/atlas_benchmark_collector.py:35-60 | the registry holds the total-atlas, scaling and canvas sections the other scripts read |
| BenchmarkData.Lookup | scripts/atlas_benchmark_collector.py:183-184 | `metric in metrics` holds exactly when the key is present, and `metrics[metric]` is the value of its last occurrence, as `json.load` keeps the last of a repeated key |
| BenchmarkCollector.FirstNamed | scripts/atlas_benchmark_collector.py:172-175 | finds the first benchmark whose name equals the test name, or reports that none does |
| BenchmarkCollector.FirstMissingMedianAppend | scripts/atlas_benchmark_collector.py:180-203 | the metric that raises first over the profile loop followed by the memory loop is the profile loop's first one, or else the memory loop's |
| BenchmarkCollector.ExtractProfile | scripts/atlas_benchmark_collector.py:180-186 | the profile loop raises for the first registry metric present without a median; otherwise it maps every registry metric to its median, or 0.0 when absent |
| BenchmarkCollector.ExtractFrames | scripts/atlas_benchmark_collector.py:188-197 | the frame loop maps exactly the sampled registry frame metrics to their P50/P90/P99, each defaulting to 0 |
| BenchmarkCollector.ExtractMemory | scripts/atlas_benchmark_collector.py:199-203 | the memory loop raises for the first memory metric present without a median; otherwise it maps exactly the present memory metrics to their medians |
| BenchmarkCollector.ExtractTestMetrics | scripts/atlas_benchmark_collector.py:169-212 | the search loop and the three metric loops return exactly the specified extraction: the not-found snapshot, or the KeyError of the first profile-then-memory metric without a median, or the snapshot of profile, frame and memory maps |
| BenchmarkCollector.ExtractedShape | scripts/atlas_benchmark_collector.py:169-212 | no matching benchmark gives a not-found snapshot with empty maps. Otherwise: the KeyError happens exactly when a registry or memory metric lacks a median, and names such a metric. The profile map has exactly the registry keys, each with its median or 0. Memory holds exactly the present medians. Frame metrics are exactly those sampled, with percentiles defaulting to 0. Run time and iterations default to 0 |
| BenchmarkCollector.ExtractDeviceContext | scripts/atlas_benchmark_collector.py:214-228 | every present field passes through (the clock converted from Hz to GHz, memory from bytes to GiB), and every absent field takes its default: "unknown" model, brand and compilation mode, SDK 0, 0 cores, 0 GHz, 0 GiB, not locked |
| BenchmarkCollector.LatestResults | scripts/atlas_benchmark_collector.py:351-354 | a positive count keeps the last `count` entries; zero keeps the whole timeline (`[-0:]`); a negative count drops the first entries |
| BenchmarkCollector.ImprovementSign | scripts/atlas_benchmark_collector.py:380-386 | the improvement percentage is positive, negative or zero exactly when the latest value is below, above or equal to the baseline |
| BenchmarkCollector.FindBaseline | scripts/atlas_benchmark_collector.py:363-370 | the first entry whose lower-cased label contains the baseline name, with every earlier label not containing it; an unlabelled entry reached first raises |
| BenchmarkCollector.GetOptimizationComparison | scripts/atlas_benchmark_collector.py:356-388 | fewer than two entries is an error. An unlabelled entry reached in the baseline search raises KeyError. Missing profile metrics in the baseline or latest entry raise exactly when the registry is non-empty. Otherwise, and only then, the comparison succeeds: the baseline is the matched entry or entry 0, the latest is the last entry, and an improvement exists exactly for the registry metrics with a positive baseline value, equal to (b - l)/b·100. When the baseline is the last entry, every reported improvement is 0% |
| TimelineStore.Labels | scripts/atlas_benchmark_collector.py:115-117 | the list of labels exists exactly when every entry is labelled; otherwise the KeyError names the first unlabelled entry |
| TimelineStore.Timeline.Collect | scripts/atlas_benchmark_collector.py:95-167 | a dirty commit without permission or confirmation cancels, an unlabelled entry fails with its KeyError, and a duplicate label without confirmation cancels. Past those checks: the zoom test's KeyError, then the pan test's, fails the collection; a missing zoom test fails at the profile-metrics lookup; otherwise the collection succeeds. The new entry carries the label, mode, commit, timestamp, device, the extracted zoom and pan snapshots, the benchmark file and the total atlas time, and the timeline becomes the mode dispatch of it. A cancelled or failed collection leaves the timeline unchanged |
| TimelineStore.Timeline.HandleBaselineMode | scripts/atlas_benchmark_collector.py:484-501 | the timeline becomes the new entry followed by the non-baseline-like entries in their order |
| TimelineStore.BaselineModeShape | scripts/atlas_benchmark_collector.py:487-500 | the new length is the old length minus the matches plus one, the new entry is first, and the rest are the old entries without exactly the matching positions |
| TimelineStore.BaselineModeLeavesOneBaseline | scripts/atlas_benchmark_collector.py:487-500 | after baseline mode with a baseline entry exactly one entry is baseline-like |
| TimelineStore.ReplaceBaselineScenario | scripts/atlas_benchmark_collector.py:487-500 | `[pooling, baseline]` plus a new baseline gives `[new, pooling]` |
| TimelineStore.Timeline.HandleUpdateBaselineMode | scripts/atlas_benchmark_collector.py:503-524 | the search-and-break loop overwrites the first baseline-like entry (index 0 if none); an empty timeline becomes `[entry]` |
| TimelineStore.UpdateBaselineShape | scripts/atlas_benchmark_collector.py:512-523 | the length is unchanged, only the first baseline-like position (or 0) is replaced, and every other position is unchanged |
| TimelineStore.UpdateBaselineMayKeepTwoBaselines | scripts/atlas_benchmark_collector.py:512-523 | update-baseline mode over two baselines still leaves two, so "at most one baseline" is not an invariant of that mode |
| TimelineStore.OptimizationModeAppends | scripts/atlas_benchmark_collector.py:157-159 | any other mode appends the entry and keeps the old entries |
| TimelineStore.OutOfRange | scripts/atlas_benchmark_collector.py:419-420 | the invalid indices are exactly the listed indices outside `[0, len)` |
| TimelineStore.CollectIndices | scripts/atlas_benchmark_collector.py:487-490 | the index-collecting loop yields exactly the matching positions, ascending |
| TimelineStore.PopEach | scripts/atlas_benchmark_collector.py:450-451 | the pop loop does exactly what successive `list.pop` calls do, including the IndexError |
| TimelineStore.Timeline.RemoveEntries | scripts/atlas_benchmark_collector.py:411-458 | an empty timeline, an out-of-range index, a listed entry without a label (the KeyError of the listing), a declined confirmation or a failing pop leaves the timeline unchanged. Otherwise the timeline is the result of popping the indices in descending order. For distinct indices that is exactly the old timeline without those positions |
| TimelineStore.PopDistinctIndices | scripts/atlas_benchmark_collector.py:450-451 | popping distinct valid indices in descending order removes exactly those positions and keeps the order of the rest |
| TimelineStore.PopMatchingPositions | scripts/atlas_benchmark_collector.py:470-482 | popping the matching positions in descending order removes exactly the matching entries |
| TimelineStore.DuplicateIndexPopsTwice | scripts/atlas_benchmark_collector.py:450-451 | the indices `[0, 0]` remove two entries |
| TimelineStore.DuplicateLastIndexRaises | scripts/atlas_benchmark_collector.py:450-451 | the indices `[2, 2]` on three entries raise IndexError at the second pop |
| TimelineStore.Timeline.CleanExperimentalEntries | scripts/atlas_benchmark_collector.py:460-482 | an empty timeline and a timeline without dirty entries are reported and left as they are. A dirty entry without a label raises KeyError. Otherwise a confirmed cleanup removes exactly the entries whose commit contains "-dirty" |
| ListEdits.PositionsWhere | scripts/atlas_benchmark_collector.py:467-469 | the matching positions, strictly increasing, all and only the matching ones |
| ListEdits.FirstWhere | scripts/atlas_benchmark_collector.py:514-518 | the first matching position, or none when nothing matches |
| ListEdits.WithoutPositions | scripts/atlas_benchmark_collector.py:487-500 | removing the matching positions is the same as keeping the non-matching entries |
| ListEdits.PopDescending | scripts/atlas_benchmark_collector.py:450-451 | popping strictly descending valid indices removes exactly those positions |
| ListEdits.Reject | scripts/atlas_benchmark_collector.py:487-500 | keeps every non-matching entry, and only those |
| Sorting.SortBy | scripts/optimization_tracker.py:385 | the result is sorted by the key and is a permutation of the input |
| Sorting.InsertByStable | scripts/optimization_tracker.py:385 | an inserted element goes after every element with its key |
| Sorting.SortByStable | scripts/optimization_tracker.py:385 | the sort is stable: the elements of each key value keep their input order |
| Sorting.SortedDescendingDistinct | scripts/atlas_benchmark_collector.py:450 | sorting distinct indices in reverse leaves them strictly descending with the same elements |
| OptimizationTracker.ChangeIndicator | scripts/optimization_tracker.py:297-354 | nothing for a zero baseline; a gray zero exactly when the value equals a non-zero baseline. Otherwise the difference and the percentage; for time metrics the arrow points down exactly when faster; other metrics are gray or blue |
| OptimizationTracker.TimeMetricBands | scripts/optimization_tracker.py:325-340 | for a time metric: green exactly at 15% or more faster, gray when less than 15% faster, yellow when less than 15% slower, red at 15% or more slower |
| OptimizationTracker.OtherMetricBands | scripts/optimization_tracker.py:341-348 | other metrics: gray "≈" exactly within 5%, otherwise the arrow follows the sign |
| OptimizationTracker.FifteenPercentBoundaries | scripts/optimization_tracker.py:325-340 | exactly 15% faster is green, exactly 15% slower is red, 14% slower is yellow |
| OptimizationTracker.PercentBand | scripts/optimization_tracker.py:311-313 | the percentage is within a band exactly when the absolute difference is within that share of the baseline |
| OptimizationTracker.DeviceInfoOf | scripts/optimization_tracker.py:181-189 | every present field (model, brand, SDK, core count, clock frequency) is copied, and every absent one takes its default: "unknown" model and brand, SDK 0, 0 cores, 0 Hz |
| OptimizationTracker.DifferencePriority | scripts/optimization_tracker.py:193-206 | a model difference hides the others, an SDK difference hides a frequency gap, and a frequency gap is reported only above 100 MHz |
| OptimizationTracker.DifferencesMatch | scripts/optimization_tracker.py:191-209 | every warning line is the difference found for a later run |
| OptimizationTracker.DifferencesOrdered | scripts/optimization_tracker.py:191-209 | the lines come in run order, at most one per run |
| OptimizationTracker.DifferencesComplete | scripts/optimization_tracker.py:191-209 | no differing later run is missing |
| OptimizationTracker.CheckDeviceConsistency | scripts/optimization_tracker.py:175-222 | fewer than two runs gives no check. Otherwise the loops produce exactly the per-run differences against the first run, and "all same" holds exactly when there are none |
| OptimizationTracker.DeviceConsistencyScenario | scripts/optimization_tracker.py:191-209 | a 10 MHz clock difference is tolerated, and a different phone is reported by model |
| OptimizationTracker.Assign | scripts/optimization_tracker.py:268-270 | a dict assignment: one entry per metric, the key now maps to the benchmark, and the others are unchanged |
| OptimizationTracker.Catalogue | scripts/optimization_tracker.py:260-272 | every metric appears once, mapped to the last benchmark carrying it |
| OptimizationTracker.ExtractAllMetrics | scripts/optimization_tracker.py:260-272 | the nested loops build exactly that catalogue |
| OptimizationTracker.MetricValue | scripts/optimization_tracker.py:274-282 | the median (default 0) of the first benchmark of that name carrying the metric, else 0 |
| OptimizationTracker.ShownMetrics | scripts/optimization_tracker.py:125-129 | with `--all`, everything. Otherwise only the "SumMs" metrics, unless there are none |
| OptimizationTracker.TimeItemsKept | scripts/optimization_tracker.py:125-129 | the time-metric view keeps one entry per time metric |
| OptimizationTracker.Improvements | scripts/optimization_tracker.py:368-382 | each summary row is a time metric with a positive first value and its change percentage |
| OptimizationTracker.ImprovementsComplete | scripts/optimization_tracker.py:368-382 | every time metric with a positive first value has its row |
| OptimizationTracker.ImprovementsSound | scripts/optimization_tracker.py:368-382 | every summary row is the row of some catalogue time metric with a positive first value: its name, first and latest values and their change percentage |
| OptimizationTracker.CollectImprovements | scripts/optimization_tracker.py:368-382 | the append loop builds exactly those rows |
| OptimizationTracker.OptimizationSummary | scripts/optimization_tracker.py:356-418 | fewer than two runs and no time metrics are reported. Otherwise the rows are all the improvements sorted ascending by change, and the shown rows are those with a change above 1%. The rows are exactly the stable sort of the improvements by change: rows with equal change keep their catalogue order |
| OptimizationTracker.SelectShown | scripts/optimization_tracker.py:393-396 | the rows shown are exactly those whose change exceeds 1% |
| OptimizationTracker.ShownRowsAreChanges | scripts/optimization_tracker.py:393-398 | every shown row gets a change indicator, never the blank or the gray zero |
| OptimizationTracker.RunFileStemParts | scripts/optimization_tracker.py:49-56 | without underscores in the name or commit, the file name splits into name, `runNN`, date, time, commit |
| OptimizationTracker.ParseRunFileStem | scripts/optimization_tracker.py:239-244 | the listing's parse, as written |
| OptimizationTracker.ListingShowsTimeAsCommit | scripts/optimization_tracker.py:241-244 | the listing shows the date as the timestamp and the time of day as the commit |
| OptimizationTracker.ParseRunFileStemCorrected | scripts/optimization_tracker.py:239-244 | the parse with the timestamp spanning its two parts |
| OptimizationTracker.ListingRoundTrip | scripts/optimization_tracker.py:49-56 | the corrected parse recovers the run number, the timestamp and the commit |
| OptimizationTracker.UnderscoreNameLosesRunNumber | scripts/optimization_tracker.py:241-242 | a name with an underscore loses its run number to the listing position |
| MetricsTable.FormatValueWithChange | scripts/atlas_metrics_table.py:33-55 | a zero value, or a missing or zero baseline, is plain. Otherwise the change percentage and its colour |
| MetricsTable.ChangeBands | scripts/atlas_metrics_table.py:42-53 | for a positive baseline: red exactly above +5%, green exactly below −5%, yellow on the closed band |
| MetricsTable.FirstColumnPlain | scripts/atlas_metrics_table.py:107 | the first column is never annotated |
| MetricsTable.MissingBaselineNeverAnnotated | scripts/atlas_metrics_table.py:67-69 | a first entry whose zoom test was not found makes every baseline 0, so nothing is annotated |
| MetricsTable.MemoryChangeCell | scripts/atlas_metrics_table.py:130-141 | a non-positive baseline total gives 0% (yellow); otherwise the change against it |
| MetricsTable.Verdict | scripts/atlas_metrics_table.py:162-166 | a gap is reported exactly above 300 ms, with its positive percentage |
| MetricsTable.ColumnLabels | scripts/atlas_metrics_table.py:64 | one label per entry, defaulting to `run_i` |
| MetricsTable.MemoryRow | scripts/atlas_metrics_table.py:114-143 | the first column holds the total; every later one holds its change against the first column's total |
| MetricsTable.BuildTable | scripts/atlas_metrics_table.py:57-166 | no timeline gives no table. Otherwise: one column per entry, the nine tracked rows of cells against the first entry, the memory row, and the latest entry's four-section total with its verdict |
| TimelineChart.PointOf | scripts/atlas_timeline_chart.py:72-96 | the position as index and the `entry_i` label default. The atlas time is the stored total if non-zero, else the zoom test's total if found, else 0. Components are 0 when the zoom test was not found. A found zoom test's scaling, canvas and loading sections become the components (0 when absent). A present label, timestamp and commit are kept; an absent timestamp is "" and an absent commit "unknown" |
| TimelineChart.ExtractPerformanceData | scripts/atlas_timeline_chart.py:70-98 | one point per entry, in order |
| TimelineChart.CollectedEntryAtlasTime | scripts/atlas_timeline_chart.py:76-81 | for an entry as collected, the point's atlas time is its total atlas section |
| TimelineChart.KindsAppend | scripts/atlas_timeline_chart.py:361 | appending a paragraph adds exactly its kind |
| TimelineChart.AppendTargetStatus | scripts/atlas_timeline_chart.py:363-370 | adds the achieved or gap line only for a positive latest time; it keeps the earlier paragraphs, and the numbers it quotes are the computed ones; the paragraphs it adds belong to its own section (its target paragraph) |
| TimelineChart.AppendProgress | scripts/atlas_timeline_chart.py:372-381 | adds a progress verdict only with two points and both times positive; it keeps the earlier paragraphs, and the numbers it quotes are the computed ones; the paragraphs it adds belong to its own section (its progress paragraph) |
| TimelineChart.AppendBreakdown | scripts/atlas_timeline_chart.py:383-396 | adds a share line for each positive component; it keeps the earlier paragraphs, and the numbers it quotes are the computed ones; the paragraphs it adds belong to its own section (the scaling share before the canvas share) |
| TimelineChart.AppendNextSteps | scripts/atlas_timeline_chart.py:398-409 | adds a priority when the target is missed, otherwise the target-achieved note; it keeps the earlier paragraphs, and the numbers it quotes are the computed ones; the paragraphs it adds belong to its own section (its next-step paragraph) |
| TimelineChart.GenerateConclusion | scripts/atlas_timeline_chart.py:348-411 | "no data" for no points. Target achieved exactly when 0 < latest ≤ 300, and a gap exactly above 300. Improvement, regression or no change only with two positive times, by their order. A component line for each positive component. Scaling first exactly when missed and scaling > canvas, so a tie goes to canvas. The target-achieved note exactly when latest ≤ 300, including 0. Every number quoted is the one computed: the latest time, its gap above 300 ms as a percentage, the positive improvement or regression against the baseline, and each component's share of the latest time. The paragraphs come in section order, at most one per section |
| TimelineChart.Conclude | scripts/atlas_timeline_chart.py:361-409 | the four sections contribute exactly their kinds of paragraph, the paragraphs come in section order (target, progress, scaling share, canvas share, next steps) with at most one per section, and every paragraph quotes the computed numbers |
| TimelineChart.AgreeingChain | scripts/atlas_timeline_chart.py:361-409 | extending a conclusion section by section keeps every earlier paragraph and its numbers |
| TimelineChart.SectionOrderChain | scripts/atlas_timeline_chart.py:361-409 | appending paragraphs of later sections, in order, to a conclusion in section order keeps it in section order |
| Common.SplitJoin | scripts/optimization_tracker.py:240 | splitting on `_` undoes joining with `_` when no part contains it |

## Left out

- File-system work is not modelled: loading and writing the timeline JSON, backups, `init_fresh_timeline`, `clean_all_timeline_data`, `mkdir` and copying run files. The timeline is an input `seq` and the written timeline is the class's new state.
- The decode-error handling of the chart and table loaders is I/O and is left out.
- `input()` confirmations are boolean parameters.
- The git subprocess and `datetime.now()` are not modelled: the commit string and the timestamp are parameters.
- Printing and formatting are left out: ANSI colours, emoji, padding, `.1f` number formats, `_format_value`, the printed summaries and listings, and all HTML/SVG of the chart report. Results are datatypes over `real`.
- Floating-point rounding is not modelled: every value is an exact `real`.
- `Common.Lower` folds ASCII letters only; Python's `lower()` also folds other alphabets.
- The run listing's files come from a directory glob sorted by modification time. The model takes the file stem and its position as inputs.
- `TimelineChart.GenerateConclusion` takes the data points only. The HTML headings, the list markup and the fixed "continue monitoring" bullet are not paragraphs of the model.
- OptimizationTracker.CheckDeviceConsistency: the run records are reduced to their device contexts.
- OptimizationTracker.ExtractAllMetrics: states the catalogue's contents but not the dict's key order, which only decides the print order.
- TimelineStore.Timeline.RemoveEntries: with a repeated index, a later pop can remove an entry that was never listed. If that entry has no label, the source raises KeyError when printing it and does not rewrite the file. The model removes it.
- The KeyError from printing the label of an entry that baseline or update-baseline mode removes or replaces cannot occur: collection reads every label first.
- Python's `KeyError` on a benchmark without a `name` is not modelled; every raw benchmark has a name.
- The `KeyError` of `test_result["metrics"]` (scripts/atlas_benchmark_collector.py:183) on a found benchmark without a `metrics` object is not modelled; every raw benchmark carries its `metrics` object, possibly empty.

## Findings

| source | as written | input that shows it | evidently intended | confidence | as-written member | corrected member |
|---|---|---|---|---|---|---|
| scripts/optimization_tracker.py:241-244 | the listing takes `parts[2]` as the timestamp and `parts[3]` as the commit of a name built as `{name}_run{N:02d}_{YYYYmmdd}_{HHMMSS}_{commit[:8]}` | `pooling_run01_20250101_120000_abc12345` is listed with timestamp `20250101` and commit `120000` | the timestamp is `parts[2]_parts[3]` and the commit is `parts[4]` | not executed | OptimizationTracker.ListingShowsTimeAsCommit | OptimizationTracker.ListingRoundTrip |
