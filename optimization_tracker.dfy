/** The optimization tracker: per-optimization run files, the device
    consistency check across runs, the metric catalogue of a run, the
    run-to-run change classification and the progress summary. */
module OptimizationTracker {
  import opened Common
  import opened Sorting
  import opened ListEdits
  import opened BenchmarkData

  /** Time metrics are the ones whose name ends in "SumMs"; lower is better. */
  predicate IsTimeMetric(name: string) {
    EndsWith(name, "SumMs")
  }

  // ---------------------------------------------------------------------------
  // Change indicator

  datatype Color = Gray | Green | Yellow | Red | Blue
  datatype Arrow = Up | Down | Approx

  /** What `_format_change_indicator` prints, without the padding and colour codes. */
  datatype Indicator =
    | NoIndicator                // the empty string
    | Unchanged                  // a gray "0.0"
    | Change(color: Color, arrow: Arrow, diff: real, percent: real)

  function PercentChange(current: real, baseline: real): real
    requires baseline != 0.0
  {
    (current - baseline) / baseline * 100.0
  }

  /** `_format_change_indicator(current, baseline, metric_name)`. */
  function ChangeIndicator(current: real, baseline: real, name: string): (r: Indicator)
    ensures r.NoIndicator? <==> baseline == 0.0
    ensures r.Unchanged? <==> baseline != 0.0 && current == baseline
    ensures r.Change? ==> r.diff == current - baseline && r.percent == PercentChange(current, baseline)
    ensures r.Change? && IsTimeMetric(name) ==> (r.arrow == Down <==> current < baseline) && r.arrow != Approx
    ensures r.Change? && !IsTimeMetric(name) ==> r.color == Gray || r.color == Blue
  {
    if baseline == 0.0 then NoIndicator
    else if current == baseline then Unchanged
    else
      var diff := current - baseline;
      var pct := PercentChange(current, baseline);
      if IsTimeMetric(name) then
        if diff < 0.0 then Change(if Abs(pct) < 15.0 then Gray else Green, Down, diff, pct)
        else Change(if Abs(pct) < 15.0 then Yellow else Red, Up, diff, pct)
      else if Abs(pct) < 5.0 then Change(Gray, Approx, diff, pct)
      else Change(Blue, if diff > 0.0 then Up else Down, diff, pct)
  }

  /** For a positive baseline, `|pct| < t` says the value moved by less than `t`
      percent of the baseline. */
  lemma PercentBand(current: real, baseline: real, t: real)
    requires baseline > 0.0
    ensures Abs(PercentChange(current, baseline)) < t <==>
            Abs(current - baseline) * 100.0 < t * baseline
  {
    var pct := PercentChange(current, baseline);
    assert pct * baseline == (current - baseline) * 100.0;
    assert Abs(pct) * baseline == Abs(current - baseline) * 100.0;
    if Abs(pct) < t {
      assert Abs(pct) * baseline < t * baseline;
    }
    if Abs(current - baseline) * 100.0 < t * baseline {
      assert Abs(pct) * baseline < t * baseline;
    }
  }

  /** The time-metric bands: at least 15% faster is green, a faster change
      under 15% gray, a slower change under 15% yellow, at least 15% slower red. */
  lemma TimeMetricBands(current: real, baseline: real, name: string)
    requires baseline > 0.0 && IsTimeMetric(name) && current != baseline
    ensures var r := ChangeIndicator(current, baseline, name);
            && r.Change?
            && (r.color == Green <==> current <= 0.85 * baseline)
            && (r.color == Gray <==> 0.85 * baseline < current < baseline)
            && (r.color == Yellow <==> baseline < current < 1.15 * baseline)
            && (r.color == Red <==> current >= 1.15 * baseline)
  {
    PercentBand(current, baseline, 15.0);
  }

  /** The other metrics: a change under 5% is gray "≈", anything larger is blue
      with the arrow following the sign of the difference. */
  lemma OtherMetricBands(current: real, baseline: real, name: string)
    requires baseline > 0.0 && !IsTimeMetric(name) && current != baseline
    ensures var r := ChangeIndicator(current, baseline, name);
            && r.Change?
            && (r.color == Gray <==> Abs(current - baseline) < 0.05 * baseline)
            && (r.color == Gray <==> r.arrow == Approx)
            && (r.arrow == Up <==> current >= 1.05 * baseline)
            && (r.arrow == Down <==> current <= 0.95 * baseline)
  {
    PercentBand(current, baseline, 5.0);
  }

  /** Exactly 15% faster is already green, exactly 15% slower already red. */
  lemma FifteenPercentBoundaries()
    ensures ChangeIndicator(85.0, 100.0, "generateAtlasSumMs").color == Green
    ensures ChangeIndicator(115.0, 100.0, "generateAtlasSumMs").color == Red
    ensures ChangeIndicator(114.0, 100.0, "generateAtlasSumMs").color == Yellow
  {
    assert IsTimeMetric("generateAtlasSumMs") by {
      assert "generateAtlasSumMs"[13..] == "SumMs";
    }
  }

  // ---------------------------------------------------------------------------
  // Device consistency

  /** The device fields compared across runs, with their defaults. */
  datatype DeviceInfo = DeviceInfo(model: string, brand: string, sdk: int, cpuCores: int, cpuMaxFreq: int)

  function DeviceInfoOf(c: RawContext): (d: DeviceInfo)
    ensures c.model.None? ==> d.model == "unknown"
    ensures c.model.Some? ==> d.model == c.model.value
    ensures c.brand.None? ==> d.brand == "unknown"
    ensures c.brand.Some? ==> d.brand == c.brand.value
    ensures c.sdk.None? ==> d.sdk == 0
    ensures c.sdk.Some? ==> d.sdk == c.sdk.value
    ensures c.cpuCoreCount.None? ==> d.cpuCores == 0
    ensures c.cpuCoreCount.Some? ==> d.cpuCores == c.cpuCoreCount.value
    ensures c.cpuMaxFreqHz.None? ==> d.cpuMaxFreq == 0
    ensures c.cpuMaxFreqHz.Some? ==> d.cpuMaxFreq == c.cpuMaxFreqHz.value
  {
    DeviceInfo(c.model.GetOr("unknown"), c.brand.GetOr("unknown"), c.sdk.GetOr(0),
               c.cpuCoreCount.GetOr(0), c.cpuMaxFreqHz.GetOr(0))
  }

  /** One line of the inconsistency warning; `run` is the 1-based run number.
      Frequencies are reported in whole MHz (`// 1000000`; Dafny's `/` agrees
      with Python's floor division for a positive divisor). */
  datatype Difference =
    | ModelDiffers(run: nat, brand: string, model: string, firstBrand: string, firstModel: string)
    | SdkDiffers(run: nat, sdk: int, firstSdk: int)
    | FrequencyDiffers(run: nat, mhz: int, firstMhz: int)

  /** `abs(a - b)`. */
  function Gap(a: int, b: int): nat {
    if a >= b then a - b else b - a
  }

  /** The `if/elif/elif` for one later run: at most one difference, model
      first, then SDK, then a frequency gap of more than 100 MHz. */
  function DifferenceOf(first: DeviceInfo, d: DeviceInfo, run: nat): (r: Option<Difference>)
    ensures r.Some? ==> r.value.run == run
  {
    if d.model != first.model then
      Some(ModelDiffers(run, d.brand, d.model, first.brand, first.model))
    else if d.sdk != first.sdk then
      Some(SdkDiffers(run, d.sdk, first.sdk))
    else if Gap(d.cpuMaxFreq, first.cpuMaxFreq) > 100000000 then
      Some(FrequencyDiffers(run, d.cpuMaxFreq / 1000000, first.cpuMaxFreq / 1000000))
    else None
  }

  /** The priority of the checks: a model difference hides the others, an SDK
      difference hides a frequency gap, and the frequency tolerance is 100 MHz
      inclusive. */
  lemma DifferencePriority(first: DeviceInfo, d: DeviceInfo, run: nat)
    ensures var r := DifferenceOf(first, d, run);
            && (r.Some? && r.value.ModelDiffers? <==> d.model != first.model)
            && (r.Some? && r.value.SdkDiffers? <==> d.model == first.model && d.sdk != first.sdk)
            && (r.Some? && r.value.FrequencyDiffers? <==>
                  d.model == first.model && d.sdk == first.sdk && Gap(d.cpuMaxFreq, first.cpuMaxFreq) > 100000000)
            && (r.None? <==>
                  d.model == first.model && d.sdk == first.sdk && -100000000 <= d.cpuMaxFreq - first.cpuMaxFreq <= 100000000)
  {
  }

  function AsList<T>(o: Option<T>): seq<T> {
    match o
    case Some(x) => [x]
    case None => []
  }

  /** The differences of the runs at positions 1 .. n-1 against the first run. */
  function Differences(devices: seq<DeviceInfo>, n: nat): seq<Difference>
    requires 1 <= n <= |devices|
  {
    if n == 1 then []
    else Differences(devices, n - 1) + AsList(DifferenceOf(devices[0], devices[n - 1], n))
  }

  predicate LinesMatchRuns(devices: seq<DeviceInfo>, r: seq<Difference>, n: nat)
    requires n <= |devices| && 1 <= |devices|
  {
    forall k :: 0 <= k < |r| ==>
      2 <= r[k].run <= n && DifferenceOf(devices[0], devices[r[k].run - 1], r[k].run) == Some(r[k])
  }

  predicate InRunOrder(r: seq<Difference>) {
    forall a, b :: 0 <= a < b < |r| ==> r[a].run < r[b].run
  }

  /** Each line of the warning is the difference `DifferenceOf` finds for a
      later run. */
  lemma {:induction false} DifferencesMatch(devices: seq<DeviceInfo>, n: nat)
    requires 1 <= n <= |devices|
    ensures LinesMatchRuns(devices, Differences(devices, n), n)
  {
    if n > 1 {
      DifferencesMatch(devices, n - 1);
      var front := Differences(devices, n - 1);
      var d := DifferenceOf(devices[0], devices[n - 1], n);
      var r := front + AsList(d);
      assert r == Differences(devices, n);
      forall k | 0 <= k < |r|
        ensures 2 <= r[k].run <= n && DifferenceOf(devices[0], devices[r[k].run - 1], r[k].run) == Some(r[k])
      {
        if k < |front| {
          assert r[k] == front[k];
        } else {
          assert r[k] == d.value;
        }
      }
    }
  }

  /** The warning lines come in run order, at most one per run. */
  lemma {:induction false} DifferencesOrdered(devices: seq<DeviceInfo>, n: nat)
    requires 1 <= n <= |devices|
    ensures InRunOrder(Differences(devices, n))
  {
    if n > 1 {
      DifferencesOrdered(devices, n - 1);
      DifferencesMatch(devices, n - 1);
      var front := Differences(devices, n - 1);
      var d := DifferenceOf(devices[0], devices[n - 1], n);
      var r := front + AsList(d);
      assert r == Differences(devices, n);
      forall a, b | 0 <= a < b < |r|
        ensures r[a].run < r[b].run
      {
        assert r[a] == front[a];
        if b < |front| {
          assert r[b] == front[b];
        }
      }
    }
  }

  /** No later run whose device differs is missing from the warning. */
  lemma {:induction false} DifferencesComplete(devices: seq<DeviceInfo>, n: nat)
    requires 1 <= n <= |devices|
    ensures var r := Differences(devices, n);
            forall j :: 1 <= j < n && DifferenceOf(devices[0], devices[j], j + 1).Some? ==>
              DifferenceOf(devices[0], devices[j], j + 1).value in r
  {
    if n > 1 {
      DifferencesComplete(devices, n - 1);
      var front := Differences(devices, n - 1);
      var d := DifferenceOf(devices[0], devices[n - 1], n);
      var r := front + AsList(d);
      assert r == Differences(devices, n);
      forall j | 1 <= j < n && DifferenceOf(devices[0], devices[j], j + 1).Some?
        ensures DifferenceOf(devices[0], devices[j], j + 1).value in r
      {
        if j < n - 1 {
          assert DifferenceOf(devices[0], devices[j], j + 1).value in front;
        } else {
          assert r[|front|] == d.value;
        }
      }
    }
  }

  /** `_check_device_consistency`: the warning lines, and whether all runs agree
      (no check at all with fewer than two runs). */
  method CheckDeviceConsistency(runs: seq<RawContext>) returns (differences: seq<Difference>, allSame: bool)
    ensures |runs| < 2 ==> differences == [] && allSame
    ensures |runs| >= 2 ==> differences == Differences(DevicesOf(runs), |runs|)
    ensures allSame <==> differences == []
  {
    if |runs| < 2 {
      return [], true;
    }
    var devices := CollectDevices(runs);
    var i;
    var first := devices[0];
    allSame := true;
    differences := [];
    i := 1;
    while i < |devices|
      invariant 1 <= i <= |devices|
      invariant differences == Differences(devices, i)
      invariant allSame <==> differences == []
    {
      var device := devices[i];
      assert Differences(devices, i + 1) == differences + AsList(DifferenceOf(first, device, i + 1));
      if device.model != first.model {
        differences := differences + [ModelDiffers(i + 1, device.brand, device.model, first.brand, first.model)];
        allSame := false;
      } else if device.sdk != first.sdk {
        differences := differences + [SdkDiffers(i + 1, device.sdk, first.sdk)];
        allSame := false;
      } else if Gap(device.cpuMaxFreq, first.cpuMaxFreq) > 100000000 {
        differences := differences + [FrequencyDiffers(i + 1, device.cpuMaxFreq / 1000000, first.cpuMaxFreq / 1000000)];
        allSame := false;
      }
      i := i + 1;
    }
  }

  /** The `devices.append(device_info)` loop. */
  method CollectDevices(runs: seq<RawContext>) returns (devices: seq<DeviceInfo>)
    ensures devices == DevicesOf(runs)
  {
    devices := [];
    var i := 0;
    while i < |runs|
      invariant 0 <= i <= |runs|
      invariant devices == DevicesOf(runs[..i])
    {
      assert runs[..i + 1][..i] == runs[..i];
      devices := devices + [DeviceInfoOf(runs[i])];
      i := i + 1;
    }
    assert runs[..i] == runs;
  }

  function DevicesOf(runs: seq<RawContext>): (r: seq<DeviceInfo>)
    ensures |r| == |runs| && forall i :: 0 <= i < |runs| ==> r[i] == DeviceInfoOf(runs[i])
  {
    if runs == [] then [] else DevicesOf(runs[..|runs| - 1]) + [DeviceInfoOf(runs[|runs| - 1])]
  }

  function Context(model: string, sdk: int, freq: int): RawContext {
    RawContext(Some(model), Some("Google"), Some(sdk), Some(8), Some(freq), None, None, None)
  }

  /** Two runs on one phone whose clocks differ by 10 MHz, then a run on a
      different phone: only the third run is reported, for its model. */
  lemma DeviceConsistencyScenario()
    ensures var devices := DevicesOf([Context("Pixel 6", 33, 2400000000),
                                      Context("Pixel 6", 33, 2410000000),
                                      Context("Pixel 4", 33, 2400000000)]);
            Differences(devices, 3) == [ModelDiffers(3, "Google", "Pixel 4", "Google", "Pixel 6")]
  {
    var devices := DevicesOf([Context("Pixel 6", 33, 2400000000),
                              Context("Pixel 6", 33, 2410000000),
                              Context("Pixel 4", 33, 2400000000)]);
    assert devices[1].model == "Pixel 6" && devices[2].model == "Pixel 4";
    assert "Pixel 4" != "Pixel 6" by {
      assert "Pixel 4"[6] != "Pixel 6"[6];
    }
    assert DifferenceOf(devices[0], devices[1], 2) == None;
  }

  // ---------------------------------------------------------------------------
  // Metric catalogue and lookup

  /** One entry of `all_metrics`: `metric_name -> (benchmark_name, metric_name)`. */
  datatype CatalogItem = CatalogItem(metric: string, benchmark: string)

  /** The catalogue as a dictionary: the benchmark recorded for `metric`, if any. */
  function CatalogEntry(cat: seq<CatalogItem>, metric: string): Option<string> {
    if cat == [] then None
    else if cat[0].metric == metric then Some(cat[0].benchmark)
    else CatalogEntry(cat[1..], metric)
  }

  predicate DistinctMetrics(cat: seq<CatalogItem>) {
    forall i, j :: 0 <= i < j < |cat| ==> cat[i].metric != cat[j].metric
  }

  /** `all_metrics[metric] = (benchmark, metric)`: overwrite in place when the
      key exists (keeping its position), else append. */
  function Assign(cat: seq<CatalogItem>, metric: string, benchmark: string): (r: seq<CatalogItem>)
    requires DistinctMetrics(cat)
    ensures DistinctMetrics(r)
    ensures forall m :: CatalogEntry(r, m) == if m == metric then Some(benchmark) else CatalogEntry(cat, m)
  {
    if cat == [] then [CatalogItem(metric, benchmark)]
    else if cat[0].metric == metric then
      assert forall m :: m != metric ==> CatalogEntry(cat[1..], m) == CatalogEntry(cat, m);
      MetricAbsent(cat[1..], metric);
      [CatalogItem(metric, benchmark)] + cat[1..]
    else
      var rest := Assign(cat[1..], metric, benchmark);
      assert forall k :: 0 <= k < |rest| ==> rest[k].metric != cat[0].metric by {
        forall k | 0 <= k < |rest|
          ensures rest[k].metric != cat[0].metric
        {
          if rest[k].metric == cat[0].metric {
            MetricPresent(rest, k);
            MetricAbsent(cat[1..], cat[0].metric);
          }
        }
      }
      [cat[0]] + rest
  }

  lemma {:induction false} MetricPresent(cat: seq<CatalogItem>, k: nat)
    requires k < |cat|
    ensures CatalogEntry(cat, cat[k].metric).Some?
  {
    if k > 0 && cat[0].metric != cat[k].metric {
      MetricPresent(cat[1..], k - 1);
    }
  }

  lemma {:induction false} MetricAbsent(cat: seq<CatalogItem>, metric: string)
    requires forall k :: 0 <= k < |cat| ==> cat[k].metric != metric
    ensures CatalogEntry(cat, metric) == None
  {
    if cat != [] {
      MetricAbsent(cat[1..], metric);
    }
  }

  /** `for metric_name in metrics.keys(): all_metrics[metric_name] = ...` for one benchmark. */
  function AssignAll(cat: seq<CatalogItem>, keys: Obj<RawMetric>, benchmark: string): (r: seq<CatalogItem>)
    requires DistinctMetrics(cat)
    ensures DistinctMetrics(r)
    ensures forall m :: CatalogEntry(r, m) == if HasKey(keys, m) then Some(benchmark) else CatalogEntry(cat, m)
  {
    if keys == [] then cat
    else
      var init := keys[..|keys| - 1];
      var r := Assign(AssignAll(cat, init, benchmark), keys[|keys| - 1].0, benchmark);
      assert forall m :: HasKey(keys, m) <==> HasKey(init, m) || keys[|keys| - 1].0 == m by {
        forall m
          ensures HasKey(keys, m) <==> HasKey(init, m) || keys[|keys| - 1].0 == m
        {
          if HasKey(keys, m) {
            var i :| 0 <= i < |keys| && keys[i].0 == m;
            if i < |init| { assert init[i] == keys[i]; }
          }
          if HasKey(init, m) {
            var i :| 0 <= i < |init| && init[i].0 == m;
            assert keys[i] == init[i];
          }
        }
      }
      r
  }

  /** The name of the last benchmark whose metrics contain `metric`. */
  function LastCarrying(bs: seq<RawBenchmark>, metric: string): Option<string> {
    if bs == [] then None
    else if HasKey(bs[|bs| - 1].metrics, metric) then Some(bs[|bs| - 1].name)
    else LastCarrying(bs[..|bs| - 1], metric)
  }

  /** `_extract_all_metrics_from_run` as a specification: every metric name
      once, mapped to the last benchmark that carries it. */
  function Catalogue(bs: seq<RawBenchmark>): (r: seq<CatalogItem>)
    ensures DistinctMetrics(r)
    ensures forall m :: CatalogEntry(r, m) == LastCarrying(bs, m)
  {
    if bs == [] then []
    else
      var last := bs[|bs| - 1];
      AssignAll(Catalogue(bs[..|bs| - 1]), last.metrics, last.name)
  }

  /** `_extract_all_metrics_from_run`. */
  method ExtractAllMetrics(run: BenchmarkRun) returns (cat: seq<CatalogItem>)
    ensures cat == Catalogue(run.benchmarks)
  {
    var bs := run.benchmarks;
    cat := [];
    var i := 0;
    while i < |bs|
      invariant 0 <= i <= |bs|
      invariant cat == Catalogue(bs[..i])
    {
      assert bs[..i + 1][..i] == bs[..i];
      var keys := bs[i].metrics;
      var j := 0;
      while j < |keys|
        invariant 0 <= j <= |keys|
        invariant DistinctMetrics(cat)
        invariant cat == AssignAll(Catalogue(bs[..i]), keys[..j], bs[i].name)
      {
        assert keys[..j + 1][..j] == keys[..j];
        cat := Assign(cat, keys[j].0, bs[i].name);
        j := j + 1;
      }
      assert keys[..j] == keys;
      i := i + 1;
    }
    assert bs[..i] == bs;
  }

  /** The benchmark `_get_metric_value` takes the value from. */
  predicate Carries(b: RawBenchmark, benchmarkName: string, metric: string) {
    b.name == benchmarkName && HasKey(b.metrics, metric)
  }

  function MedianOrZero(b: RawBenchmark, metric: string): real
    requires HasKey(b.metrics, metric)
  {
    Lookup(b.metrics, metric).value.median.GetOr(0.0)
  }

  /** `_get_metric_value`: the median (default 0.0) of the metric in the first
      benchmark of that name that has it, else 0.0. */
  function MetricValue(bs: seq<RawBenchmark>, benchmarkName: string, metric: string): (v: real)
    ensures forall i ::
              (0 <= i < |bs| && Carries(bs[i], benchmarkName, metric)
               && (forall j :: 0 <= j < i ==> !Carries(bs[j], benchmarkName, metric))) ==>
              v == MedianOrZero(bs[i], metric)
    ensures (forall i :: 0 <= i < |bs| ==> !Carries(bs[i], benchmarkName, metric)) ==> v == 0.0
  {
    if bs == [] then 0.0
    else if Carries(bs[0], benchmarkName, metric) then MedianOrZero(bs[0], metric)
    else
      assert forall i :: 1 <= i < |bs| ==> bs[1..][i - 1] == bs[i];
      MetricValue(bs[1..], benchmarkName, metric)
  }

  /** The time-metric filter of `compare_optimization_runs`: without
      `--all`, only the "SumMs" metrics, unless there are none. */
  function ShownMetrics(cat: seq<CatalogItem>, showAll: bool): (r: seq<CatalogItem>)
    ensures showAll ==> r == cat
    ensures !showAll && Count(cat, IsTimeItem) == 0 ==> r == cat
    ensures !showAll && Count(cat, IsTimeItem) > 0 ==> r == Reject(cat, NotTimeItem)
  {
    if showAll then cat
    else
      var timeMetrics := Reject(cat, NotTimeItem);
      TimeItemsKept(cat);
      if timeMetrics != [] then timeMetrics else cat
  }

  predicate IsTimeItem(c: CatalogItem) {
    IsTimeMetric(c.metric)
  }

  predicate NotTimeItem(c: CatalogItem) {
    !IsTimeMetric(c.metric)
  }

  /** The time-metric view keeps one entry per time metric. */
  lemma {:induction false} TimeItemsKept(cat: seq<CatalogItem>)
    ensures |Reject(cat, NotTimeItem)| == Count(cat, IsTimeItem)
  {
    if cat != [] {
      TimeItemsKept(cat[..|cat| - 1]);
    }
  }

  // ---------------------------------------------------------------------------
  // Progress summary

  /** One `(metric_name, first_value, latest_value, change_percent)` tuple. */
  datatype SummaryRow = SummaryRow(metric: string, first: real, latest: real, changePercent: real)

  datatype Summary =
    | NeedTwoRuns
    | NoTimeMetrics
    | Rows(rows: seq<SummaryRow>, shown: seq<SummaryRow>)

  /** The candidate rows, in catalogue order: time metrics whose first value is positive. */
  function Improvements(first: BenchmarkRun, latest: BenchmarkRun, cat: seq<CatalogItem>): (r: seq<SummaryRow>)
    ensures forall k :: 0 <= k < |r| ==>
              IsTimeMetric(r[k].metric) && r[k].first > 0.0
              && r[k].changePercent == PercentChange(r[k].latest, r[k].first)
  {
    if cat == [] then []
    else
      Improvements(first, latest, cat[..|cat| - 1]) + ImprovementRow(first, latest, cat[|cat| - 1])
  }

  /** The row one catalogue item contributes, if any. */
  function ImprovementRow(first: BenchmarkRun, latest: BenchmarkRun, c: CatalogItem): (row: seq<SummaryRow>)
    ensures |row| <= 1
    ensures forall k :: 0 <= k < |row| ==>
              IsTimeMetric(row[k].metric) && row[k].first > 0.0
              && row[k].changePercent == PercentChange(row[k].latest, row[k].first)
  {
    var f := MetricValue(first.benchmarks, c.benchmark, c.metric);
    var l := MetricValue(latest.benchmarks, c.benchmark, c.metric);
    if IsTimeMetric(c.metric) && f > 0.0 then [SummaryRow(c.metric, f, l, PercentChange(l, f))] else []
  }

  /** Every time metric of the catalogue whose first value is positive has its row. */
  lemma {:induction false} ImprovementsComplete(first: BenchmarkRun, latest: BenchmarkRun, cat: seq<CatalogItem>, j: nat)
    requires j < |cat| && IsTimeMetric(cat[j].metric)
    requires MetricValue(first.benchmarks, cat[j].benchmark, cat[j].metric) > 0.0
    ensures var f := MetricValue(first.benchmarks, cat[j].benchmark, cat[j].metric);
            var l := MetricValue(latest.benchmarks, cat[j].benchmark, cat[j].metric);
            SummaryRow(cat[j].metric, f, l, PercentChange(l, f)) in Improvements(first, latest, cat)
  {
    if j < |cat| - 1 {
      var init := cat[..|cat| - 1];
      assert init[j] == cat[j];
      ImprovementsComplete(first, latest, init, j);
    }
  }

  /** `row` is the row catalogue item `c` contributes: a time metric whose first
      value is positive, with its first and latest values and their change. */
  predicate RowOfItem(first: BenchmarkRun, latest: BenchmarkRun, c: CatalogItem, row: SummaryRow) {
    var f := MetricValue(first.benchmarks, c.benchmark, c.metric);
    var l := MetricValue(latest.benchmarks, c.benchmark, c.metric);
    IsTimeMetric(c.metric) && f > 0.0 && row == SummaryRow(c.metric, f, l, PercentChange(l, f))
  }

  /** Every row comes from a catalogue item. */
  lemma {:induction false} ImprovementsSound(first: BenchmarkRun, latest: BenchmarkRun, cat: seq<CatalogItem>, k: nat)
    requires k < |Improvements(first, latest, cat)|
    ensures exists j :: 0 <= j < |cat| && RowOfItem(first, latest, cat[j], Improvements(first, latest, cat)[k])
  {
    var init := cat[..|cat| - 1];
    var front := Improvements(first, latest, init);
    var rows := Improvements(first, latest, cat);
    assert rows == front + ImprovementRow(first, latest, cat[|cat| - 1]);
    if k < |front| {
      ImprovementsSound(first, latest, init, k);
      var j :| 0 <= j < |init| && RowOfItem(first, latest, init[j], front[k]);
      assert init[j] == cat[j] && rows[k] == front[k];
    } else {
      assert RowOfItem(first, latest, cat[|cat| - 1], rows[k]);
    }
  }

  /** A row is shown when the change is larger than 1%. */
  predicate Insignificant(row: SummaryRow) {
    Abs(row.changePercent) <= 1.0
  }

  function ChangeKey(row: SummaryRow): real {
    row.changePercent
  }

  /** The selection and ordering of `_print_optimization_summary`. */
  method OptimizationSummary(runs: seq<BenchmarkRun>, cat: seq<CatalogItem>) returns (s: Summary)
    ensures |runs| < 2 <==> s == NeedTwoRuns
    ensures |runs| >= 2 ==> (s == NoTimeMetrics <==> Improvements(runs[0], runs[|runs| - 1], cat) == [])
    ensures s.Rows? ==>
              && SortedBy(s.rows, ChangeKey)
              && multiset(s.rows) == multiset(Improvements(runs[0], runs[|runs| - 1], cat))
              && s.shown == Reject(s.rows, Insignificant)
    ensures s.Rows? ==> s.rows == SortBy(Improvements(runs[0], runs[|runs| - 1], cat), ChangeKey)
    ensures s.Rows? ==> forall v :: WithKey(s.rows, ChangeKey, v) == WithKey(Improvements(runs[0], runs[|runs| - 1], cat), ChangeKey, v)
  {
    if |runs| < 2 {
      return NeedTwoRuns;
    }
    var improvements := CollectImprovements(runs[0], runs[|runs| - 1], cat);
    if improvements == [] {
      return NoTimeMetrics;
    }
    var rows := SortBy(improvements, ChangeKey);
    forall v {
      SortByStable(improvements, ChangeKey, v);
    }
    var shown := SelectShown(rows);
    s := Rows(rows, shown);
  }

  /** The `improvements.append(...)` loop. */
  method CollectImprovements(first: BenchmarkRun, latest: BenchmarkRun, cat: seq<CatalogItem>)
    returns (improvements: seq<SummaryRow>)
    ensures improvements == Improvements(first, latest, cat)
  {
    improvements := [];
    var i := 0;
    while i < |cat|
      invariant 0 <= i <= |cat|
      invariant improvements == Improvements(first, latest, cat[..i])
    {
      ImprovementsStep(first, latest, cat, i);
      var row := ImprovementOf(first, latest, cat[i]);
      improvements := improvements + row;
      i := i + 1;
    }
    assert cat[..i] == cat;
  }

  /** The body of that loop for one catalogue item. */
  method ImprovementOf(first: BenchmarkRun, latest: BenchmarkRun, c: CatalogItem) returns (row: seq<SummaryRow>)
    ensures row == ImprovementRow(first, latest, c)
  {
    row := [];
    if IsTimeMetric(c.metric) {
      var f := MetricValue(first.benchmarks, c.benchmark, c.metric);
      var l := MetricValue(latest.benchmarks, c.benchmark, c.metric);
      if f > 0.0 {
        row := [SummaryRow(c.metric, f, l, PercentChange(l, f))];
      }
    }
  }

  lemma ImprovementsStep(first: BenchmarkRun, latest: BenchmarkRun, cat: seq<CatalogItem>, i: nat)
    requires i < |cat|
    ensures Improvements(first, latest, cat[..i + 1])
            == Improvements(first, latest, cat[..i]) + ImprovementRow(first, latest, cat[i])
  {
    assert cat[..i + 1][..i] == cat[..i];
  }

  /** The `if abs(change_pct) > 1` selection of the rows printed. */
  method SelectShown(rows: seq<SummaryRow>) returns (shown: seq<SummaryRow>)
    ensures shown == Reject(rows, Insignificant)
  {
    shown := [];
    var i := 0;
    while i < |rows|
      invariant 0 <= i <= |rows|
      invariant shown == Reject(rows[..i], Insignificant)
    {
      assert rows[..i + 1][..i] == rows[..i];
      if Abs(rows[i].changePercent) > 1.0 {
        shown := shown + [rows[i]];
      }
      i := i + 1;
    }
    assert rows[..i] == rows;
  }

  lemma SamePercentZero(b: real)
    requires b != 0.0
    ensures PercentChange(b, b) == 0.0
  {
  }

  /** Every shown row also gets a change indicator in the summary table. */
  lemma ShownRowsAreChanges(first: BenchmarkRun, latest: BenchmarkRun, cat: seq<CatalogItem>, row: SummaryRow)
    requires row in Improvements(first, latest, cat) && !Insignificant(row)
    ensures ChangeIndicator(row.latest, row.first, row.metric).Change?
  {
    var rows := Improvements(first, latest, cat);
    var k :| 0 <= k < |rows| && rows[k] == row;
    assert row.first > 0.0 && row.changePercent == PercentChange(row.latest, row.first);
    SamePercentZero(row.first);
    assert row.latest != row.first;
  }

  // ---------------------------------------------------------------------------
  // Run files

  /** The stem of the file `collect_run` copies a result to:
      `{name}_run{N:02d}_{YYYYmmdd}_{HHMMSS}_{commit[:8]}`, `N` being the
      number of run files already there plus one. */
  function RunFileStem(optimization: string, existingRuns: nat, date: string, time: string, commit: string): string {
    Join([optimization, "run" + ZeroPad2(existingRuns + 1), date, time, Take(commit, 8)], '_')
  }

  /** The fields `list_optimization_runs` shows for one run file. */
  datatype ListedRun = ListedRun(runNumber: string, timestamp: string, gitCommit: string)

  /** The name parse of `list_optimization_runs` for the file at listing position `i`. */
  function ParseRunFileStem(stem: string, i: nat): (r: ListedRun)
    ensures var parts := Split(stem, '_');
            && (|parts| > 1 && StartsWith(parts[1], "run") ==> r.runNumber == parts[1])
            && (|parts| <= 3 ==> r.gitCommit == "unknown")
  {
    var parts := Split(stem, '_');
    ListedRun(
      if |parts| > 1 && StartsWith(parts[1], "run") then parts[1] else "run" + ZeroPad2(i + 1),
      if |parts| > 2 then parts[2] else "unknown",
      if |parts| > 3 then parts[3] else "unknown")
  }

  /** The parse as evidently intended: the timestamp is the two parts after
      the run number, the commit the part after those. */
  function ParseRunFileStemCorrected(stem: string, i: nat): (r: ListedRun)
    ensures var parts := Split(stem, '_');
            && (|parts| > 1 && StartsWith(parts[1], "run") ==> r.runNumber == parts[1])
            && (|parts| <= 4 ==> r.gitCommit == "unknown")
  {
    var parts := Split(stem, '_');
    ListedRun(
      if |parts| > 1 && StartsWith(parts[1], "run") then parts[1] else "run" + ZeroPad2(i + 1),
      if |parts| > 3 then parts[2] + "_" + parts[3] else if |parts| > 2 then parts[2] else "unknown",
      if |parts| > 4 then parts[4] else "unknown")
  }

  predicate NoUnderscore(s: string) {
    '_' !in s
  }

  predicate Digits(s: string) {
    forall k :: 0 <= k < |s| ==> '0' <= s[k] <= '9'
  }

  /** How a generated stem splits on '_' when no field holds an underscore. */
  lemma RunFileStemParts(optimization: string, existingRuns: nat, date: string, time: string, commit: string)
    requires NoUnderscore(optimization) && Digits(date) && Digits(time) && NoUnderscore(Take(commit, 8))
    ensures Split(RunFileStem(optimization, existingRuns, date, time, commit), '_')
            == [optimization, "run" + ZeroPad2(existingRuns + 1), date, time, Take(commit, 8)]
  {
    var pad := ZeroPad2(existingRuns + 1);
    var run := "run" + pad;
    assert NoUnderscore(run) by {
      forall k | 0 <= k < |run| ensures run[k] != '_' {
        if k >= 3 { assert run[k] == pad[k - 3]; }
      }
    }
    var parts := [optimization, run, date, time, Take(commit, 8)];
    assert forall k :: 0 <= k < |parts| ==> '_' !in parts[k] by {
      assert forall k :: 0 <= k < |date| ==> date[k] != '_';
      assert forall k :: 0 <= k < |time| ==> time[k] != '_';
    }
    SplitJoin(parts, '_');
  }

  /** As written, the listing shows only the date as the timestamp and the
      HHMMSS half of the timestamp as the commit. */
  lemma ListingShowsTimeAsCommit(optimization: string, existingRuns: nat, date: string, time: string, commit: string, i: nat)
    requires NoUnderscore(optimization) && Digits(date) && Digits(time) && NoUnderscore(Take(commit, 8))
    ensures ParseRunFileStem(RunFileStem(optimization, existingRuns, date, time, commit), i)
            == ListedRun("run" + ZeroPad2(existingRuns + 1), date, time)
  {
    RunFileStemParts(optimization, existingRuns, date, time, commit);
  }

  /** The corrected parse recovers the run number, the full timestamp and the commit. */
  lemma ListingRoundTrip(optimization: string, existingRuns: nat, date: string, time: string, commit: string, i: nat)
    requires NoUnderscore(optimization) && Digits(date) && Digits(time) && NoUnderscore(Take(commit, 8))
    ensures ParseRunFileStemCorrected(RunFileStem(optimization, existingRuns, date, time, commit), i)
            == ListedRun("run" + ZeroPad2(existingRuns + 1), date + "_" + time, Take(commit, 8))
  {
    RunFileStemParts(optimization, existingRuns, date, time, commit);
  }

  /** An optimization name with an underscore pushes the run number out of
      `parts[1]`: "bitmap_pooling" is listed under its listing position. */
  lemma UnderscoreNameLosesRunNumber(existingRuns: nat, date: string, time: string, commit: string, i: nat)
    ensures ParseRunFileStem(RunFileStem("bitmap_pooling", existingRuns, date, time, commit), i).runNumber
            == "run" + ZeroPad2(i + 1)
  {
    var rest := Join(["run" + ZeroPad2(existingRuns + 1), date, time, Take(commit, 8)], '_');
    var stem := RunFileStem("bitmap_pooling", existingRuns, date, time, commit);
    assert stem == "bitmap_pooling" + ['_'] + rest;
    assert "bitmap_pooling" == "bitmap" + ['_'] + "pooling";
    assert stem == "bitmap" + ['_'] + ("pooling" + ['_'] + rest);
    SplitPiece("bitmap", '_', "pooling" + ['_'] + rest);
    SplitPiece("pooling", '_', rest);
    assert Split(stem, '_')[1] == "pooling";
    assert "pooling"[..3] != "run";
  }
}
