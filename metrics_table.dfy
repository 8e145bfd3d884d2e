/** The command-line metrics table: one column per timeline entry, the tracked
    trace sections of the zoom test as rows, every later value annotated with
    its change against the first entry, a memory row, and the verdict on the
    latest entry's total atlas time against the 300 ms target. */
module MetricsTable {
  import opened Common
  import opened BenchmarkCollector

  /** The rows of the table, in order. */
  const TrackedMetrics: seq<string> := [
    LoadBitmap,
    ScaleBitmap,
    SoftwareCanvas,
    CreateAtlasBitmap,
    "PhotoLODProcessor.diskOpenInputStreamSumMs",
    "PhotoLODProcessor.memoryDecodeBitmapSumMs",
    "PhotoScaler.createScaledBitmapSumMs",
    "TexturePacker.packAlgorithmSumMs",
    GenerateAtlas
  ]

  /** Red "📈", green "📉" and yellow "➡️". */
  datatype Trend = Slower | Faster | Similar

  /** The colour rule shared by the value cells and the memory row. */
  function TrendOf(percent: real): Trend {
    if percent > 5.0 then Slower else if percent < -5.0 then Faster else Similar
  }

  /** A printed value: plain, or with its change against the baseline. */
  datatype Cell = Plain(value: real) | Annotated(value: real, trend: Trend, percent: real)

  /** `format_value_with_change(current, baseline)`. */
  function FormatValueWithChange(current: real, baseline: Option<real>): (c: Cell)
    ensures c.value == current
    ensures c.Plain? <==> current == 0.0 || baseline.GetOr(0.0) == 0.0
    ensures c.Annotated? ==>
              c.percent * baseline.value == (current - baseline.value) * 100.0
              && c.trend == TrendOf(c.percent)
  {
    if current == 0.0 then Plain(current)
    else if baseline.None? || baseline.value == 0.0 then Plain(current)
    else
      var pct := (current - baseline.value) / baseline.value * 100.0;
      Annotated(current, TrendOf(pct), pct)
  }

  /** For a positive baseline: more than 5% above it is red, more than 5% below
      it green, and the closed band between yellow. */
  lemma ChangeBands(current: real, baseline: real)
    requires baseline > 0.0 && current != 0.0
    ensures var c := FormatValueWithChange(current, Some(baseline));
            && c.Annotated?
            && (c.trend == Slower <==> current > 1.05 * baseline)
            && (c.trend == Faster <==> current < 0.95 * baseline)
            && (c.trend == Similar <==> 0.95 * baseline <= current <= 1.05 * baseline)
  {
    var c := FormatValueWithChange(current, Some(baseline));
    var p := c.percent;
    assert p * baseline == (current - baseline) * 100.0;
    ScaledComparison(p, baseline, 5.0);
    ScaledComparison(p, baseline, -5.0);
    FivePercentOfBaseline(p, current, baseline);
  }

  lemma FivePercentOfBaseline(p: real, current: real, baseline: real)
    requires baseline > 0.0 && p * baseline == (current - baseline) * 100.0
    ensures p * baseline > 5.0 * baseline <==> current > 1.05 * baseline
    ensures p * baseline < -5.0 * baseline <==> current < 0.95 * baseline
  {
  }

  /** Multiplying by a positive number keeps the order. */
  lemma ScaledComparison(x: real, k: real, t: real)
    requires k > 0.0
    ensures x > t <==> x * k > t * k
    ensures x < t <==> x * k < t * k
  {
    if x > t {
      assert (x - t) * k > 0.0;
    }
    if x < t {
      assert (t - x) * k > 0.0;
    }
    if x == t {
      assert x * k == t * k;
    }
  }

  function MemoryOf(e: Entry): map<string, real> {
    if e.zoom.Found? then e.zoom.memoryMetrics else map[]
  }

  /** `entry.get("optimization", f"run_{i}")`. */
  function ColumnLabel(e: Entry, i: nat): string {
    e.optimization.GetOr("run_" + NatToString(i))
  }

  /** The cell of `metric` in column `i`: no baseline in the first column, the
      first entry's value (default 0) in the others. */
  function MetricCell(timeline: seq<Entry>, metric: string, i: nat): Cell
    requires i < |timeline|
  {
    FormatValueWithChange(
      GetOr(ProfileOf(timeline[i]), metric, 0.0),
      if i > 0 then Some(GetOr(ProfileOf(timeline[0]), metric, 0.0)) else None)
  }

  /** The first column is never annotated. */
  lemma FirstColumnPlain(timeline: seq<Entry>, metric: string)
    requires |timeline| > 0
    ensures MetricCell(timeline, metric, 0) == Plain(GetOr(ProfileOf(timeline[0]), metric, 0.0))
  {
  }

  /** When the first entry's zoom test was not found every baseline is 0, so
      no later value is annotated either. */
  lemma MissingBaselineNeverAnnotated(timeline: seq<Entry>, metric: string, i: nat)
    requires i < |timeline| && !timeline[0].zoom.Found?
    ensures MetricCell(timeline, metric, i).Plain?
  {
  }

  /** `(heap_kb + rss_anon_kb + rss_file_kb) / 1024.0`, absent metrics counting 0. */
  function MemoryTotalMb(e: Entry): real {
    var m := MemoryOf(e);
    (GetOr(m, "memoryHeapSizeMaxKb", 0.0) + GetOr(m, "memoryRssAnonMaxKb", 0.0) + GetOr(m, "memoryRssFileMaxKb", 0.0)) / 1024.0
  }

  datatype MemoryCell = MemoryFirst(totalMb: real) | MemoryChange(totalMb: real, trend: Trend, percent: real)

  /** A later column of the memory row against the first column's total. */
  function MemoryChangeCell(totalMb: real, baselineTotal: real): (c: MemoryCell)
    ensures c.MemoryChange? && c.totalMb == totalMb && c.trend == TrendOf(c.percent)
    ensures baselineTotal <= 0.0 ==> c.percent == 0.0 && c.trend == Similar
    ensures baselineTotal > 0.0 ==> c.percent * baselineTotal == (totalMb - baselineTotal) * 100.0
  {
    var pct := if baselineTotal > 0.0 then (totalMb - baselineTotal) / baselineTotal * 100.0 else 0.0;
    MemoryChange(totalMb, TrendOf(pct), pct)
  }

  /** The total the summary line reports: four sections of the latest entry. */
  function TotalAtlasTime(e: Entry): real {
    var m := ProfileOf(e);
    GetOr(m, LoadBitmap, 0.0) + GetOr(m, ScaleBitmap, 0.0) + GetOr(m, SoftwareCanvas, 0.0) + GetOr(m, CreateAtlasBitmap, 0.0)
  }

  datatype TargetVerdict = TargetAchieved | TargetGap(percentAbove: real)

  function Verdict(total: real): (v: TargetVerdict)
    ensures v.TargetGap? <==> total > TargetMs
    ensures v.TargetGap? ==> v.percentAbove > 0.0 && v.percentAbove * TargetMs == (total - TargetMs) * 100.0
  {
    if total > TargetMs then TargetGap((total - TargetMs) / TargetMs * 100.0) else TargetAchieved
  }

  datatype Table =
    | NoTimelineData
    | Table(columns: seq<string>, rows: seq<seq<Cell>>, memory: seq<MemoryCell>, totalTime: real, verdict: TargetVerdict)

  /** `print_metrics_table` without the printing. */
  method BuildTable(timeline: seq<Entry>) returns (t: Table)
    ensures timeline == [] <==> t == NoTimelineData
    ensures t.Table? ==>
              && |t.columns| == |timeline|
              && (forall i :: 0 <= i < |timeline| ==> t.columns[i] == ColumnLabel(timeline[i], i))
              && |t.rows| == |TrackedMetrics|
              && (forall r :: 0 <= r < |t.rows| ==> |t.rows[r]| == |timeline|)
              && (forall r, i :: 0 <= r < |t.rows| && 0 <= i < |timeline| ==>
                    t.rows[r][i] == MetricCell(timeline, TrackedMetrics[r], i))
              && |t.memory| == |timeline|
              && t.memory[0] == MemoryFirst(MemoryTotalMb(timeline[0]))
              && (forall i :: 1 <= i < |timeline| ==>
                    t.memory[i] == MemoryChangeCell(MemoryTotalMb(timeline[i]), MemoryTotalMb(timeline[0])))
              && t.totalTime == TotalAtlasTime(timeline[|timeline| - 1])
              && t.verdict == Verdict(t.totalTime)
  {
    if timeline == [] {
      return NoTimelineData;
    }
    var columns := ColumnLabels(timeline);
    var baselineMetrics := ProfileOf(timeline[0]);
    var rows := [];
    var r := 0;
    while r < |TrackedMetrics|
      invariant 0 <= r <= |TrackedMetrics|
      invariant |rows| == r
      invariant forall q :: 0 <= q < r ==> |rows[q]| == |timeline|
      invariant forall q, i :: 0 <= q < r && 0 <= i < |timeline| ==>
                  rows[q][i] == MetricCell(timeline, TrackedMetrics[q], i)
    {
      var metric := TrackedMetrics[r];
      var row := [];
      var i := 0;
      while i < |timeline|
        invariant 0 <= i <= |timeline|
        invariant |row| == i
        invariant forall j :: 0 <= j < i ==> row[j] == MetricCell(timeline, metric, j)
      {
        var current := GetOr(ProfileOf(timeline[i]), metric, 0.0);
        var baseline := if i > 0 then Some(GetOr(baselineMetrics, metric, 0.0)) else None;
        row := row + [FormatValueWithChange(current, baseline)];
        i := i + 1;
      }
      rows := rows + [row];
      r := r + 1;
    }
    var memory := MemoryRow(timeline);
    var total := TotalAtlasTime(timeline[|timeline| - 1]);
    t := Table(columns, rows, memory, total, Verdict(total));
  }

  /** The `optimizations` list of column labels. */
  method ColumnLabels(timeline: seq<Entry>) returns (columns: seq<string>)
    ensures |columns| == |timeline|
    ensures forall i :: 0 <= i < |timeline| ==> columns[i] == ColumnLabel(timeline[i], i)
  {
    columns := [];
    var i := 0;
    while i < |timeline|
      invariant 0 <= i <= |timeline|
      invariant |columns| == i
      invariant forall j :: 0 <= j < i ==> columns[j] == ColumnLabel(timeline[j], j)
    {
      columns := columns + [ColumnLabel(timeline[i], i)];
      i := i + 1;
    }
  }

  /** The memory row, whose `baseline_total` is set in the first column and
      reused in every later one. */
  method MemoryRow(timeline: seq<Entry>) returns (memory: seq<MemoryCell>)
    requires |timeline| > 0
    ensures |memory| == |timeline|
    ensures memory[0] == MemoryFirst(MemoryTotalMb(timeline[0]))
    ensures forall i :: 1 <= i < |timeline| ==>
              memory[i] == MemoryChangeCell(MemoryTotalMb(timeline[i]), MemoryTotalMb(timeline[0]))
  {
    var baselineTotal := 0.0;
    memory := [];
    var i := 0;
    while i < |timeline|
      invariant 0 <= i <= |timeline|
      invariant |memory| == i
      invariant i > 0 ==> baselineTotal == MemoryTotalMb(timeline[0])
      invariant i > 0 ==> memory[0] == MemoryFirst(MemoryTotalMb(timeline[0]))
      invariant forall j :: 1 <= j < i ==>
                  memory[j] == MemoryChangeCell(MemoryTotalMb(timeline[j]), MemoryTotalMb(timeline[0]))
    {
      var totalMb := MemoryTotalMb(timeline[i]);
      if i == 0 {
        baselineTotal := totalMb;
        memory := memory + [MemoryFirst(totalMb)];
      } else {
        memory := memory + [MemoryChangeCell(totalMb, baselineTotal)];
      }
      i := i + 1;
    }
  }
}
