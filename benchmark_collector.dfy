/** The benchmark collector's pure part: the "atlas" profile (which metrics
    are tracked), the extraction of one named test into a snapshot, the
    timeline entry, and the read-only queries over a timeline. */
module BenchmarkCollector {
  import opened Common
  import opened BenchmarkData

  const GenerateAtlas := "AtlasManager.generateAtlasSumMs"
  const ScaleBitmap := "PhotoLODProcessor.scaleBitmapSumMs"
  const SoftwareCanvas := "AtlasGenerator.softwareCanvasSumMs"
  const LoadBitmap := "PhotoLODProcessor.loadBitmapSumMs"
  const CreateAtlasBitmap := "AtlasGenerator.createAtlasBitmapSumMs"

  /** The trace sections of the "atlas" profile, in declaration order. */
  const AtlasMetrics: seq<string> := [
    ScaleBitmap,
    SoftwareCanvas,
    LoadBitmap,
    CreateAtlasBitmap,
    "AtlasManager.updateVisibleCellsSumMs",
    GenerateAtlas,
    "AtlasManager.selectLODLevelSumMs",
    "PhotoLODProcessor.diskOpenInputStreamSumMs",
    "PhotoLODProcessor.diskReadFileHeaderSumMs",
    "PhotoLODProcessor.memoryDecodeBoundsSumMs",
    "PhotoLODProcessor.memoryDecodeBitmapSumMs",
    "PhotoLODProcessor.memorySampleSizeCalcSumMs",
    "PhotoScaler.scaleSumMs",
    "PhotoScaler.createScaledBitmapSumMs",
    "PhotoScaler.createCroppedBitmapSumMs",
    "PhotoScaler.calculateDimensionsSumMs",
    "Atlas.bitmapAllocateSumMs",
    "Atlas.bitmapRecycleSumMs",
    "Atlas.atlasCleanupSumMs",
    "Atlas.processedPhotoCleanupSumMs",
    "TexturePacker.packAlgorithmSumMs",
    "TexturePacker.sortImagesSumMs",
    "TexturePacker.packSingleImageSumMs",
    "TexturePacker.findShelfFitSumMs",
    "TexturePacker.createNewShelfSumMs"
  ]

  const FrameMetrics: seq<string> := ["frameDurationCpuMs", "frameOverrunMs"]

  const MemoryMetrics: seq<string> :=
    ["memoryGpuMaxKb", "memoryHeapSizeMaxKb", "memoryRssAnonMaxKb", "memoryRssFileMaxKb"]

  const ZoomTest := "atlasGenerationThroughZoomInteractions"
  const PanTest := "atlasGenerationThroughPanInteractions"

  /** A profile: the tracked trace sections, the time target and the
      metric families common to every profile. */
  datatype Profile = Profile(
    metrics: seq<string>,
    targetTimeMs: real,
    baselineTimeMs: real,
    frameMetrics: seq<string>,
    memoryMetrics: seq<string>)

  datatype ProfileError = UnknownProfile(name: string, available: seq<string>)

  /** `_load_profile`: only "atlas" is known; any other name is a ValueError. */
  function LoadProfile(name: string): (r: Result<Profile, ProfileError>)
    ensures r.Ok? <==> name == "atlas"
    ensures r.Ok? ==> r.value.metrics == AtlasMetrics && r.value.targetTimeMs == 300.0
                      && r.value.frameMetrics == FrameMetrics && r.value.memoryMetrics == MemoryMetrics
    ensures r.Err? ==> r.error.available == ["atlas"]
  {
    if name == "atlas" then
      Ok(Profile(AtlasMetrics, 300.0, 1600.0, FrameMetrics, MemoryMetrics))
    else
      Err(UnknownProfile(name, ["atlas"]))
  }

  /** The sections the collector and the reports single out are tracked ones. */
  lemma AtlasMetricsIncludeHeadlines()
    ensures GenerateAtlas in AtlasMetrics && ScaleBitmap in AtlasMetrics && SoftwareCanvas in AtlasMetrics
  {
    assert AtlasMetrics[0] == ScaleBitmap && AtlasMetrics[1] == SoftwareCanvas && AtlasMetrics[5] == GenerateAtlas;
  }

  datatype Percentiles = Percentiles(p50: real, p90: real, p99: real)

  /** The snapshot `_extract_test_metrics` returns. When the test is missing the
      record carries `atlas_metrics` rather than `profile_metrics`, and no runtime. */
  datatype TestMetrics =
    | Missing(atlasMetrics: map<string, real>,
              frameMetrics: map<string, Percentiles>,
              memoryMetrics: map<string, real>)
    | Found(totalRuntimeNs: int,
            iterations: int,
            profileMetrics: map<string, real>,
            frameMetrics: map<string, Percentiles>,
            memoryMetrics: map<string, real>)

  /** The KeyErrors the collector can raise on well-typed input. */
  datatype KeyError =
    | MissingMedian(metric: string)  // a metric record without "median"
    | MissingLabel(index: nat)       // a timeline entry without "optimization"
    | MissingProfileMetrics          // a not-found snapshot read as if found

  /** The first benchmark with exactly this name. */
  function FirstNamed(bs: seq<RawBenchmark>, name: string): (r: Option<nat>)
    ensures r.Some? ==> r.value < |bs| && bs[r.value].name == name
                        && forall j :: 0 <= j < r.value ==> bs[j].name != name
    ensures r.None? ==> forall j :: 0 <= j < |bs| ==> bs[j].name != name
  {
    if bs == [] then None
    else if bs[0].name == name then Some(0)
    else match FirstNamed(bs[1..], name)
      case None => None
      case Some(k) => Some(k + 1)
  }

  /** The value a tracked metric gets in `profile_metrics`: its median, or 0.0 when absent. */
  function ProfileValueOf(b: RawBenchmark, metric: string): real
    requires !MedianMissing(b, metric)
  {
    if HasMedian(b, metric) then MedianOf(b, metric) else 0.0
  }

  /** The first metric of `ms` whose record has no median: the one whose
      `["median"]` raises first when the loops read `ms` in order. */
  function FirstMissingMedian(b: RawBenchmark, ms: seq<string>): (r: Option<string>)
    ensures r.Some? ==> r.value in ms && MedianMissing(b, r.value)
    ensures r.None? ==> forall m :: m in ms ==> !MedianMissing(b, m)
  {
    if ms == [] then None
    else if MedianMissing(b, ms[0]) then Some(ms[0])
    else FirstMissingMedian(b, ms[1..])
  }

  /** The first missing median of a concatenation is the first one of its front
      part, or else the first one of the rest. */
  lemma {:induction false} FirstMissingMedianAppend(b: RawBenchmark, front: seq<string>, rest: seq<string>)
    ensures FirstMissingMedian(b, front + rest) ==
            if FirstMissingMedian(b, front).Some? then FirstMissingMedian(b, front)
            else FirstMissingMedian(b, rest)
  {
    if front == [] {
      assert front + rest == rest;
    } else {
      assert (front + rest)[0] == front[0];
      assert (front + rest)[1..] == front[1..] + rest;
      FirstMissingMedianAppend(b, front[1..], rest);
    }
  }

  /** `profile_metrics`: every tracked metric, with its median or 0.0. */
  function ProfileMap(b: RawBenchmark, ms: seq<string>): map<string, real> {
    map m | m in ms :: if HasMedian(b, m) then MedianOf(b, m) else 0.0
  }

  function PercentilesOf(s: RawSampled): Percentiles {
    Percentiles(s.p50.GetOr(0.0), s.p90.GetOr(0.0), s.p99.GetOr(0.0))
  }

  /** `frame_metrics`: the sampled metrics among `ms`. */
  function FrameMap(b: RawBenchmark, ms: seq<string>): map<string, Percentiles> {
    map m | m in ms && m in b.sampledMetrics :: PercentilesOf(b.sampledMetrics[m])
  }

  /** `memory_metrics`: the metrics of `ms` present with a median. */
  function MemoryMap(b: RawBenchmark, ms: seq<string>): map<string, real> {
    map m | m in ms && HasMedian(b, m) :: MedianOf(b, m)
  }

  lemma ProfileMapStep(b: RawBenchmark, front: seq<string>, m: string)
    ensures ProfileMap(b, front + [m])
            == ProfileMap(b, front)[m := if HasMedian(b, m) then MedianOf(b, m) else 0.0]
  {
  }

  lemma MemoryMapStep(b: RawBenchmark, front: seq<string>, m: string)
    ensures MemoryMap(b, front + [m])
            == if HasMedian(b, m) then MemoryMap(b, front)[m := MedianOf(b, m)] else MemoryMap(b, front)
  {
  }

  /** What `_extract_test_metrics` returns or raises, as a specification. */
  function Extracted(p: Profile, run: BenchmarkRun, testName: string): Result<TestMetrics, KeyError> {
    match FirstNamed(run.benchmarks, testName)
    case None => Ok(Missing(map[], map[], map[]))
    case Some(k) =>
      var b := run.benchmarks[k];
      match FirstMissingMedian(b, p.metrics + p.memoryMetrics)
      case Some(m) => Err(MissingMedian(m))
      case None =>
        Ok(Found(b.totalRunTimeNs.GetOr(0), b.repeatIterations.GetOr(0),
                 ProfileMap(b, p.metrics), FrameMap(b, p.frameMetrics), MemoryMap(b, p.memoryMetrics)))
  }

  /** The profile loop of `_extract_test_metrics`: reads `["median"]` of every
      registered metric present in the benchmark, 0.0 for an absent one. */
  method ExtractProfile(b: RawBenchmark, ms: seq<string>) returns (r: Result<map<string, real>, KeyError>)
    ensures FirstMissingMedian(b, ms).Some? ==> r == Err(MissingMedian(FirstMissingMedian(b, ms).value))
    ensures FirstMissingMedian(b, ms).None? ==> r == Ok(ProfileMap(b, ms))
  {
    var profile: map<string, real> := map[];
    var i := 0;
    while i < |ms|
      invariant 0 <= i <= |ms|
      invariant FirstMissingMedian(b, ms[..i]).None?
      invariant profile == ProfileMap(b, ms[..i])
    {
      var m := ms[i];
      assert ms[..i + 1] == ms[..i] + [m];
      FirstMissingMedianAppend(b, ms[..i], [m]);
      ProfileMapStep(b, ms[..i], m);
      match Lookup(b.metrics, m) {
        case Some(raw) =>
          if raw.median.None? {
            FirstMissingMedianAppend(b, ms[..i], ms[i..]);
            assert ms == ms[..i] + ms[i..];
            return Err(MissingMedian(m));
          }
          profile := profile[m := raw.median.value];
        case None =>
          profile := profile[m := 0.0];
      }
      i := i + 1;
    }
    assert ms[..i] == ms;
    r := Ok(profile);
  }

  /** The frame loop of `_extract_test_metrics`: the percentiles of every
      registered metric the benchmark sampled. */
  method ExtractFrames(b: RawBenchmark, ms: seq<string>) returns (frame: map<string, Percentiles>)
    ensures frame == FrameMap(b, ms)
  {
    frame := map[];
    var i := 0;
    while i < |ms|
      invariant 0 <= i <= |ms|
      invariant frame == FrameMap(b, ms[..i])
    {
      var m := ms[i];
      assert ms[..i + 1] == ms[..i] + [m];
      if m in b.sampledMetrics {
        frame := frame[m := PercentilesOf(b.sampledMetrics[m])];
      }
      i := i + 1;
    }
    assert ms[..i] == ms;
  }

  /** The memory loop of `_extract_test_metrics`: the median of every
      registered memory metric present in the benchmark. */
  method ExtractMemory(b: RawBenchmark, ms: seq<string>) returns (r: Result<map<string, real>, KeyError>)
    ensures FirstMissingMedian(b, ms).Some? ==> r == Err(MissingMedian(FirstMissingMedian(b, ms).value))
    ensures FirstMissingMedian(b, ms).None? ==> r == Ok(MemoryMap(b, ms))
  {
    var memory: map<string, real> := map[];
    var i := 0;
    while i < |ms|
      invariant 0 <= i <= |ms|
      invariant FirstMissingMedian(b, ms[..i]).None?
      invariant memory == MemoryMap(b, ms[..i])
    {
      var m := ms[i];
      assert ms[..i + 1] == ms[..i] + [m];
      FirstMissingMedianAppend(b, ms[..i], [m]);
      MemoryMapStep(b, ms[..i], m);
      match Lookup(b.metrics, m) {
        case Some(raw) =>
          if raw.median.None? {
            FirstMissingMedianAppend(b, ms[..i], ms[i..]);
            assert ms == ms[..i] + ms[i..];
            return Err(MissingMedian(m));
          }
          memory := memory[m := raw.median.value];
        case None =>
      }
      i := i + 1;
    }
    assert ms[..i] == ms;
    r := Ok(memory);
  }

  /** `_extract_test_metrics`: flattens the first benchmark named `testName`,
      running the profile, frame and memory loops in the source's order. */
  method ExtractTestMetrics(p: Profile, run: BenchmarkRun, testName: string)
    returns (r: Result<TestMetrics, KeyError>)
    ensures r == Extracted(p, run, testName)
  {
    var bs := run.benchmarks;
    var found: Option<nat> := None;
    var k := 0;
    while k < |bs|
      invariant 0 <= k <= |bs|
      invariant found.None?
      invariant forall j :: 0 <= j < k ==> bs[j].name != testName
    {
      if bs[k].name == testName {
        found := Some(k);
        break;
      }
      k := k + 1;
    }
    if found.None? {
      return Ok(Missing(map[], map[], map[]));
    }
    assert found == FirstNamed(bs, testName);
    var b := bs[found.value];
    FirstMissingMedianAppend(b, p.metrics, p.memoryMetrics);

    var profile := ExtractProfile(b, p.metrics);
    if profile.Err? {
      return Err(profile.error);
    }
    var frame := ExtractFrames(b, p.frameMetrics);
    var memory := ExtractMemory(b, p.memoryMetrics);
    if memory.Err? {
      return Err(memory.error);
    }
    r := Ok(Found(b.totalRunTimeNs.GetOr(0), b.repeatIterations.GetOr(0), profile.value, frame, memory.value));
  }

  /** What the extraction promises: no matching benchmark gives empty maps;
      otherwise it raises exactly when a profile or memory metric lacks a
      median, and a snapshot holds every registered metric as read. */
  lemma ExtractedShape(p: Profile, run: BenchmarkRun, testName: string)
    ensures var r := Extracted(p, run, testName);
      && (FirstNamed(run.benchmarks, testName).None? ==> r == Ok(Missing(map[], map[], map[])))
      && (FirstNamed(run.benchmarks, testName).Some? ==>
      var b := run.benchmarks[FirstNamed(run.benchmarks, testName).value];
      && (r.Err? <==> exists m :: m in p.metrics + p.memoryMetrics && MedianMissing(b, m))
      && (r.Err? ==> r.error.MissingMedian? && MedianMissing(b, r.error.metric))
      && (r.Ok? ==> r.value.Found?)
      && (r.Ok? ==> r.value.totalRuntimeNs == b.totalRunTimeNs.GetOr(0)
                    && r.value.iterations == b.repeatIterations.GetOr(0))
      && (r.Ok? ==> r.value.profileMetrics.Keys == set m | m in p.metrics)
      && (r.Ok? ==> forall m :: m in p.metrics ==>
                      !MedianMissing(b, m) && r.value.profileMetrics[m] == ProfileValueOf(b, m))
      && (r.Ok? ==> r.value.memoryMetrics.Keys == set m | m in p.memoryMetrics && HasMedian(b, m))
      && (r.Ok? ==> forall m :: m in r.value.memoryMetrics ==>
                      HasMedian(b, m) && r.value.memoryMetrics[m] == MedianOf(b, m))
      && (r.Ok? ==> r.value.frameMetrics.Keys == set m | m in p.frameMetrics && m in b.sampledMetrics)
      && (r.Ok? ==> forall m :: m in r.value.frameMetrics ==>
                      (m in b.sampledMetrics &&
                       var s := b.sampledMetrics[m];
                       r.value.frameMetrics[m] == Percentiles(s.p50.GetOr(0.0), s.p90.GetOr(0.0), s.p99.GetOr(0.0)))))
  {
    var r := Extracted(p, run, testName);
    if FirstNamed(run.benchmarks, testName).Some? {
      var b := run.benchmarks[FirstNamed(run.benchmarks, testName).value];
      var first := FirstMissingMedian(b, p.metrics + p.memoryMetrics);
      if first.Some? {
        assert first.value in p.metrics + p.memoryMetrics && MedianMissing(b, first.value);
      }
    }
  }

  /** `_extract_device_context`. */
  datatype DeviceContext = DeviceContext(
    model: string,
    brand: string,
    androidVersion: int,
    cpuCores: int,
    cpuMaxFreqGhz: real,
    memoryTotalGb: real,
    cpuLocked: bool,
    compilationMode: string)

  /** `_extract_device_context`: absent fields take the documented defaults,
      and the clock and memory are converted from Hz and bytes. */
  function ExtractDeviceContext(c: RawContext): (d: DeviceContext)
    ensures d.cpuMaxFreqGhz * 1000000000.0 == c.cpuMaxFreqHz.GetOr(0) as real
    ensures d.memoryTotalGb * 1073741824.0 == c.memTotalBytes.GetOr(0) as real
    ensures c.model.None? ==> d.model == "unknown"
    ensures c.model.Some? ==> d.model == c.model.value
    ensures c.brand.None? ==> d.brand == "unknown"
    ensures c.brand.Some? ==> d.brand == c.brand.value
    ensures c.sdk.None? ==> d.androidVersion == 0
    ensures c.sdk.Some? ==> d.androidVersion == c.sdk.value
    ensures c.cpuCoreCount.None? ==> d.cpuCores == 0
    ensures c.cpuCoreCount.Some? ==> d.cpuCores == c.cpuCoreCount.value
    ensures c.cpuMaxFreqHz.None? ==> d.cpuMaxFreqGhz == 0.0
    ensures c.memTotalBytes.None? ==> d.memoryTotalGb == 0.0
    ensures c.cpuLocked.None? ==> !d.cpuLocked
    ensures c.cpuLocked.Some? ==> d.cpuLocked == c.cpuLocked.value
    ensures c.compilationMode.None? ==> d.compilationMode == "unknown"
    ensures c.compilationMode.Some? ==> d.compilationMode == c.compilationMode.value
  {
    DeviceContext(
      c.model.GetOr("unknown"),
      c.brand.GetOr("unknown"),
      c.sdk.GetOr(0),
      c.cpuCoreCount.GetOr(0),
      c.cpuMaxFreqHz.GetOr(0) as real / 1000000000.0,
      c.memTotalBytes.GetOr(0) as real / 1073741824.0,
      c.cpuLocked.GetOr(false),
      c.compilationMode.GetOr("unknown"))
  }

  /** One timeline record. Fields that readers fetch with `.get(key, default)`
      are optional, since a hand-edited or older timeline may lack them. */
  datatype Entry = Entry(
    timestamp: Option<string>,
    optimization: Option<string>,
    mode: Option<string>,
    device: DeviceContext,
    zoom: TestMetrics,
    pan: TestMetrics,
    totalOptimizationTime: Option<real>,
    gitCommit: Option<string>,
    benchmarkFile: Option<string>)

  /** The atlas generation target the reports measure against, in milliseconds. */
  const TargetMs: real := 300.0

  /** `zoom_test.get("profile_metrics", {}) if zoom_test.get("found") else {}`. */
  function ProfileOf(e: Entry): map<string, real> {
    if e.zoom.Found? then e.zoom.profileMetrics else map[]
  }

  /** `d.get(key, default)` on a map. */
  function GetOr(m: map<string, real>, key: string, default: real): real {
    if key in m then m[key] else default
  }

  /** Python's `s[start:]` for an integer `start`: a negative start counts from
      the end, and both are clamped to the list. */
  function SliceFrom<T>(s: seq<T>, start: int): seq<T> {
    var k := if start < 0 then |s| + start else start;
    if k < 0 then s else if k > |s| then [] else s[k..]
  }

  /** `get_latest_results(count)`: `timeline[-count:]`. A positive count keeps the
      last `count` entries, zero keeps the whole timeline (`[-0:]` is `[0:]`), and
      a negative count drops the first `-count` entries. */
  function LatestResults<T>(timeline: seq<T>, count: int): (r: seq<T>)
    ensures count == 0 ==> r == timeline
    ensures count > 0 ==> |r| == (if count < |timeline| then count else |timeline|)
                          && r == timeline[|timeline| - |r|..]
    ensures count < 0 ==> |r| == (if -count < |timeline| then |timeline| + count else 0)
                          && r == timeline[|timeline| - |r|..]
  {
    if timeline == [] then [] else SliceFrom(timeline, -count)
  }

  /** The percentage by which `latest` is faster than `baseline`. */
  function ImprovementPercent(baseline: real, latest: real): real
    requires baseline != 0.0
  {
    (baseline - latest) / baseline * 100.0
  }

  /** For a positive baseline the improvement is positive exactly when the latest
      run is faster, negative exactly when it is slower, and zero when equal. */
  lemma ImprovementSign(baseline: real, latest: real)
    requires baseline > 0.0
    ensures ImprovementPercent(baseline, latest) > 0.0 <==> latest < baseline
    ensures ImprovementPercent(baseline, latest) < 0.0 <==> latest > baseline
    ensures ImprovementPercent(baseline, latest) == 0.0 <==> latest == baseline
  {
    var q := (baseline - latest) / baseline;
    assert q * baseline == baseline - latest;
    if latest < baseline {
      assert q > 0.0;
    } else if latest > baseline {
      assert q < 0.0;
    }
  }

  datatype Improvement = Improvement(baselineMs: real, latestMs: real, improvementPercent: real)

  datatype Comparison = Comparison(baseline: Entry, latest: Entry, improvements: map<string, Improvement>)

  /** What `get_optimization_comparison` ends with: the `{"error": ...}` dictionary,
      a comparison, or a raised KeyError. */
  datatype ComparisonOutcome =
    | NotEnoughResults
    | Compared(comparison: Comparison)
    | Raised(error: KeyError)

  /** How the search for the baseline entry ends. */
  datatype BaselineSearch = MatchAt(index: nat) | NoMatch | LabelMissingAt(index: nat)

  /** `next(e for e in timeline if name in e["optimization"].lower())`: the scan
      stops at the first match, or raises at the first entry without a label. */
  function FindBaseline(timeline: seq<Entry>, name: string): (r: BaselineSearch)
    ensures r.MatchAt? ==>
      r.index < |timeline| && timeline[r.index].optimization.Some?
      && Contains(Lower(timeline[r.index].optimization.value), name)
    ensures r.LabelMissingAt? ==> r.index < |timeline| && timeline[r.index].optimization.None?
    ensures (r.MatchAt? || r.LabelMissingAt?) ==>
      forall j :: 0 <= j < r.index ==>
        timeline[j].optimization.Some? && !Contains(Lower(timeline[j].optimization.value), name)
    ensures r.NoMatch? ==>
      forall j :: 0 <= j < |timeline| ==>
        timeline[j].optimization.Some? && !Contains(Lower(timeline[j].optimization.value), name)
  {
    if timeline == [] then NoMatch
    else if timeline[0].optimization.None? then LabelMissingAt(0)
    else if Contains(Lower(timeline[0].optimization.value), name) then MatchAt(0)
    else match FindBaseline(timeline[1..], name)
      case NoMatch => NoMatch
      case MatchAt(k) => MatchAt(k + 1)
      case LabelMissingAt(k) => LabelMissingAt(k + 1)
  }

  /** Where the comparison's baseline comes from: the match, else the first entry. */
  function BaselineIndex(timeline: seq<Entry>, name: string): nat {
    match FindBaseline(timeline, name)
    case MatchAt(i) => i
    case _ => 0
  }

  /** `baseline["zoom_test"]["profile_metrics"].get(metric, 0)`. */
  function ProfileValue(e: Entry, metric: string): real
    requires e.zoom.Found?
  {
    GetOr(e.zoom.profileMetrics, metric, 0.0)
  }

  /** `get_optimization_comparison`: compares the baseline entry with the last one
      over the profile's metrics, reporting only metrics with a positive baseline. */
  method GetOptimizationComparison(p: Profile, timeline: seq<Entry>, baselineName: string)
    returns (r: ComparisonOutcome)
    ensures r.NotEnoughResults? <==> |timeline| < 2
    ensures |timeline| >= 2 && FindBaseline(timeline, baselineName).LabelMissingAt? ==>
      r == Raised(MissingLabel(FindBaseline(timeline, baselineName).index))
    ensures r == Raised(MissingProfileMetrics) <==>
      |timeline| >= 2 && !FindBaseline(timeline, baselineName).LabelMissingAt? && |p.metrics| > 0
      && (!timeline[BaselineIndex(timeline, baselineName)].zoom.Found? || !timeline[|timeline| - 1].zoom.Found?)
    ensures r.Compared? <==>
      |timeline| >= 2 && !FindBaseline(timeline, baselineName).LabelMissingAt?
      && (|p.metrics| == 0
          || (timeline[BaselineIndex(timeline, baselineName)].zoom.Found? && timeline[|timeline| - 1].zoom.Found?))
    ensures r.Raised? ==> r.error == MissingProfileMetrics || r.error.MissingLabel?
    ensures r.Compared? ==>
      var c := r.comparison;
      && |timeline| >= 2
      && c.baseline == timeline[BaselineIndex(timeline, baselineName)]
      && c.latest == timeline[|timeline| - 1]
      && (|p.metrics| > 0 ==> c.baseline.zoom.Found? && c.latest.zoom.Found?)
      && (forall m :: m in c.improvements <==>
            m in p.metrics && c.baseline.zoom.Found? && ProfileValue(c.baseline, m) > 0.0)
      && (forall m :: m in c.improvements ==>
            var b := ProfileValue(c.baseline, m);
            var l := ProfileValue(c.latest, m);
            c.improvements[m] == Improvement(b, l, ImprovementPercent(b, l)))
    ensures r.Compared? && BaselineIndex(timeline, baselineName) == |timeline| - 1 ==>
      forall m :: m in r.comparison.improvements ==> r.comparison.improvements[m].improvementPercent == 0.0
  {
    if |timeline| < 2 {
      return NotEnoughResults;
    }
    var baseline: Entry;
    match FindBaseline(timeline, baselineName) {
      case LabelMissingAt(i) =>
        return Raised(MissingLabel(i));
      case MatchAt(i) =>
        baseline := timeline[i];
      case NoMatch =>
        baseline := timeline[0];
    }
    var latest := timeline[|timeline| - 1];

    var improvements: map<string, Improvement> := map[];
    var i := 0;
    while i < |p.metrics|
      invariant 0 <= i <= |p.metrics|
      invariant i > 0 ==> baseline.zoom.Found? && latest.zoom.Found?
      invariant forall m :: m in improvements <==>
                  m in p.metrics[..i] && baseline.zoom.Found? && ProfileValue(baseline, m) > 0.0
      invariant forall m :: m in improvements ==>
                  baseline.zoom.Found? && latest.zoom.Found? &&
                  var b := ProfileValue(baseline, m);
                  var l := ProfileValue(latest, m);
                  improvements[m] == Improvement(b, l, ImprovementPercent(b, l))
    {
      if !baseline.zoom.Found? || !latest.zoom.Found? {
        return Raised(MissingProfileMetrics);
      }
      var m := p.metrics[i];
      assert p.metrics[..i + 1] == p.metrics[..i] + [m];
      var b := ProfileValue(baseline, m);
      var l := ProfileValue(latest, m);
      if b > 0.0 {
        improvements := improvements[m := Improvement(b, l, ImprovementPercent(b, l))];
      }
      i := i + 1;
    }
    assert p.metrics[..i] == p.metrics;
    if |p.metrics| > 0 && baseline == latest {
      SelfComparisonIsZero(Comparison(baseline, latest, improvements));
    }
    r := Compared(Comparison(baseline, latest, improvements));
  }

  /** Comparing the latest entry with itself (it is also the baseline) reports a
      zero improvement for every metric it reports. */
  lemma SelfComparisonIsZero(c: Comparison)
    requires c.baseline == c.latest && c.baseline.zoom.Found?
    requires forall m :: m in c.improvements ==>
               var b := ProfileValue(c.baseline, m);
               b > 0.0 && c.improvements[m] == Improvement(b, ProfileValue(c.latest, m),
                                                           ImprovementPercent(b, ProfileValue(c.latest, m)))
    ensures forall m :: m in c.improvements ==> c.improvements[m].improvementPercent == 0.0
  {
    forall m | m in c.improvements
      ensures c.improvements[m].improvementPercent == 0.0
    {
      ImprovementSign(ProfileValue(c.baseline, m), ProfileValue(c.latest, m));
    }
  }
}
