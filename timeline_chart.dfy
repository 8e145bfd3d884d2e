/** The timeline report's analysis: one data point per timeline entry, and the
    conclusion drawn from the first and the latest point (target status,
    progress since the baseline, component breakdown, next step). */
module TimelineChart {
  import opened Common
  import opened BenchmarkCollector

  /** One element of `data_points`. */
  datatype DataPoint = DataPoint(
    index: nat,
    optimization: string,
    timestamp: string,
    atlasTime: real,
    bitmapScaling: real,
    canvasRendering: real,
    bitmapLoading: real,
    gitCommit: string)

  /** The point for the entry at position `i`. */
  function PointOf(e: Entry, i: nat): (p: DataPoint)
    ensures p.index == i
    ensures e.optimization.None? ==> p.optimization == "entry_" + NatToString(i)
    ensures e.optimization.Some? ==> p.optimization == e.optimization.value
    ensures e.timestamp.None? ==> p.timestamp == ""
    ensures e.timestamp.Some? ==> p.timestamp == e.timestamp.value
    ensures e.gitCommit.None? ==> p.gitCommit == "unknown"
    ensures e.gitCommit.Some? ==> p.gitCommit == e.gitCommit.value
    ensures e.totalOptimizationTime.GetOr(0.0) != 0.0 ==> p.atlasTime == e.totalOptimizationTime.value
    ensures e.totalOptimizationTime.GetOr(0.0) == 0.0 && e.zoom.Found? ==>
              p.atlasTime == GetOr(e.zoom.profileMetrics, GenerateAtlas, 0.0)
    ensures e.totalOptimizationTime.GetOr(0.0) == 0.0 && !e.zoom.Found? ==> p.atlasTime == 0.0
    ensures !e.zoom.Found? ==> p.bitmapScaling == 0.0 && p.canvasRendering == 0.0 && p.bitmapLoading == 0.0
    ensures e.zoom.Found? ==>
              && p.bitmapScaling == GetOr(e.zoom.profileMetrics, ScaleBitmap, 0.0)
              && p.canvasRendering == GetOr(e.zoom.profileMetrics, SoftwareCanvas, 0.0)
              && p.bitmapLoading == GetOr(e.zoom.profileMetrics, LoadBitmap, 0.0)
  {
    var total := e.totalOptimizationTime.GetOr(0.0);
    var atlasTime := if total == 0.0 && e.zoom.Found? then GetOr(e.zoom.profileMetrics, GenerateAtlas, 0.0) else total;
    var profile := ProfileOf(e);
    DataPoint(
      i,
      e.optimization.GetOr("entry_" + NatToString(i)),
      e.timestamp.GetOr(""),
      atlasTime,
      GetOr(profile, ScaleBitmap, 0.0),
      GetOr(profile, SoftwareCanvas, 0.0),
      GetOr(profile, LoadBitmap, 0.0),
      e.gitCommit.GetOr("unknown"))
  }

  /** `_extract_performance_data`. */
  method ExtractPerformanceData(timeline: seq<Entry>) returns (points: seq<DataPoint>)
    ensures |points| == |timeline|
    ensures forall i :: 0 <= i < |timeline| ==> points[i] == PointOf(timeline[i], i) && points[i].index == i
  {
    points := [];
    var i := 0;
    while i < |timeline|
      invariant 0 <= i <= |timeline|
      invariant |points| == i
      invariant forall j :: 0 <= j < i ==> points[j] == PointOf(timeline[j], j)
    {
      var entry := timeline[i];
      var atlasTime := entry.totalOptimizationTime.GetOr(0.0);
      if atlasTime == 0.0 {
        if entry.zoom.Found? {
          atlasTime := GetOr(entry.zoom.profileMetrics, GenerateAtlas, 0.0);
        }
      }
      var profile := ProfileOf(entry);
      points := points + [DataPoint(
        i,
        entry.optimization.GetOr("entry_" + NatToString(i)),
        entry.timestamp.GetOr(""),
        atlasTime,
        GetOr(profile, ScaleBitmap, 0.0),
        GetOr(profile, SoftwareCanvas, 0.0),
        GetOr(profile, LoadBitmap, 0.0),
        entry.gitCommit.GetOr("unknown"))];
      i := i + 1;
    }
  }

  /** An entry written by the collector records the zoom test's atlas
      generation time as its total, so its point shows that time either way. */
  lemma CollectedEntryAtlasTime(e: Entry, i: nat)
    requires e.zoom.Found? && e.totalOptimizationTime == Some(GetOr(e.zoom.profileMetrics, GenerateAtlas, 0.0))
    ensures PointOf(e, i).atlasTime == GetOr(e.zoom.profileMetrics, GenerateAtlas, 0.0)
  {
  }

  /** The paragraphs of `_generate_conclusion`, without their HTML. */
  datatype Paragraph =
    | NoDataAvailable
    | TargetAchieved(latestMs: real)
    | TargetGap(latestMs: real, gapPercent: real)
    | Improved(percent: real)
    | Regressed(percent: real)
    | NoChange(latestMs: real)
    | ScalingShare(ms: real, percent: real)
    | CanvasShare(ms: real, percent: real)
    | PrioritizeScaling
    | PrioritizeCanvas
    | KeepMonitoring

  /** What a paragraph says, without its numbers. */
  datatype Kind =
    | NoDataKind | AchievedKind | GapKind | ImprovementKind | RegressionKind | NoChangeKind
    | ScalingKind | CanvasKind | ScalingPriorityKind | CanvasPriorityKind | MonitoringKind

  function KindOf(p: Paragraph): Kind {
    match p
    case NoDataAvailable => NoDataKind
    case TargetAchieved(_) => AchievedKind
    case TargetGap(_, _) => GapKind
    case Improved(_) => ImprovementKind
    case Regressed(_) => RegressionKind
    case NoChange(_) => NoChangeKind
    case ScalingShare(_, _) => ScalingKind
    case CanvasShare(_, _) => CanvasKind
    case PrioritizeScaling => ScalingPriorityKind
    case PrioritizeCanvas => CanvasPriorityKind
    case KeepMonitoring => MonitoringKind
  }

  /** The kinds of paragraph a conclusion contains. */
  function Kinds(parts: seq<Paragraph>): set<Kind> {
    set k | 0 <= k < |parts| :: KindOf(parts[k])
  }

  lemma KindsAppend(parts: seq<Paragraph>, p: Paragraph)
    ensures Kinds(parts + [p]) == Kinds(parts) + {KindOf(p)}
  {
    var r := parts + [p];
    forall x | x in Kinds(r)
      ensures x in Kinds(parts) + {KindOf(p)}
    {
      var k :| 0 <= k < |r| && KindOf(r[k]) == x;
      if k < |parts| {
        assert r[k] == parts[k];
      }
    }
    forall x | x in Kinds(parts)
      ensures x in Kinds(r)
    {
      var k :| 0 <= k < |parts| && KindOf(parts[k]) == x;
      assert r[k] == parts[k];
    }
    assert KindOf(r[|parts|]) == KindOf(p);
  }

  /** The kinds each section of the conclusion contributes. */
  function TargetKinds(l: real): set<Kind> {
    if l <= 0.0 then {} else if l <= TargetMs then {AchievedKind} else {GapKind}
  }

  function ProgressKinds(count: nat, b: real, l: real): set<Kind> {
    if count > 1 && b > 0.0 && l > 0.0 then
      if b > l then {ImprovementKind} else if b < l then {RegressionKind} else {NoChangeKind}
    else {}
  }

  function BreakdownKinds(scaling: real, canvas: real): set<Kind> {
    (if scaling > 0.0 then {ScalingKind} else {}) + (if canvas > 0.0 then {CanvasKind} else {})
  }

  function NextStepKinds(l: real, scaling: real, canvas: real): set<Kind> {
    if l > TargetMs then
      if scaling > canvas then {ScalingPriorityKind} else {CanvasPriorityKind}
    else {MonitoringKind}
  }

  /** `part / latest_time * 100` when the latest time is positive, else 0. */
  function ShareOf(ms: real, latestMs: real): real {
    if latestMs > 0.0 then ms / latestMs * 100.0 else 0.0
  }

  /** The numbers a paragraph quotes, for latest time `l`, baseline time `b` and
      the latest scaling and canvas components: the gap above the target, the
      change since the baseline, and each component's share of the latest time. */
  predicate NumbersAgree(p: Paragraph, b: real, l: real, scaling: real, canvas: real) {
    match p
    case TargetAchieved(ms) => ms == l
    case TargetGap(ms, gap) => ms == l && gap * TargetMs == (l - TargetMs) * 100.0
    case Improved(pc) => b > 0.0 && pc == ImprovementPercent(b, l) && pc > 0.0
    case Regressed(pc) => b > 0.0 && pc == -ImprovementPercent(b, l) && pc > 0.0
    case NoChange(ms) => ms == l
    case ScalingShare(ms, pc) => ms == scaling && pc == ShareOf(scaling, l)
    case CanvasShare(ms, pc) => ms == canvas && pc == ShareOf(canvas, l)
    case _ => true
  }

  /** `parts` extends `front` with paragraphs whose numbers agree. */
  predicate ExtendsAgreeing(front: seq<Paragraph>, parts: seq<Paragraph>, b: real, l: real, scaling: real, canvas: real) {
    && |front| <= |parts| && parts[..|front|] == front
    && forall k :: |front| <= k < |parts| ==> NumbersAgree(parts[k], b, l, scaling, canvas)
  }

  /** `_generate_conclusion` over the data points (there is one per timeline
      entry, so an empty timeline is an empty list of points). */
  method GenerateConclusion(points: seq<DataPoint>) returns (parts: seq<Paragraph>)
    ensures points == [] ==> parts == [NoDataAvailable]
    ensures points != [] ==>
              var latest := points[|points| - 1];
              KindsDecided(Kinds(parts), |points|, points[0].atlasTime, latest.atlasTime,
                           latest.bitmapScaling, latest.canvasRendering)
    ensures points != [] ==>
              var latest := points[|points| - 1];
              forall k :: 0 <= k < |parts| ==>
                NumbersAgree(parts[k], points[0].atlasTime, latest.atlasTime, latest.bitmapScaling, latest.canvasRendering)
    ensures InSectionOrder(parts)
  {
    if points == [] {
      return [NoDataAvailable];
    }
    var latest := points[|points| - 1];
    parts := Conclude(|points|, points[0].atlasTime, latest.atlasTime, latest.bitmapScaling, latest.canvasRendering);
    ConclusionKinds(|points|, points[0].atlasTime, latest.atlasTime, latest.bitmapScaling, latest.canvasRendering);
  }

  /** Which paragraphs a conclusion with kinds `ks` holds, for `count` points,
      baseline time `b`, latest time `l` and the latest components. */
  predicate KindsDecided(ks: set<Kind>, count: nat, b: real, l: real, scaling: real, canvas: real) {
    && (AchievedKind in ks <==> 0.0 < l <= TargetMs)
    && (GapKind in ks <==> l > TargetMs)
    && (ImprovementKind in ks <==> count > 1 && l > 0.0 && b > l)
    && (RegressionKind in ks <==> count > 1 && b > 0.0 && l > b)
    && (NoChangeKind in ks <==> count > 1 && b > 0.0 && l == b)
    && (ScalingKind in ks <==> scaling > 0.0)
    && (CanvasKind in ks <==> canvas > 0.0)
    && (ScalingPriorityKind in ks <==> l > TargetMs && scaling > canvas)
    && (CanvasPriorityKind in ks <==> l > TargetMs && scaling <= canvas)
    && (MonitoringKind in ks <==> l <= TargetMs)
    && NoDataKind !in ks
  }

  /** The sections' kinds decide every paragraph as the source's conditions do. */
  lemma ConclusionKinds(count: nat, b: real, l: real, scaling: real, canvas: real)
    ensures KindsDecided(TargetKinds(l) + ProgressKinds(count, b, l) + BreakdownKinds(scaling, canvas)
                         + NextStepKinds(l, scaling, canvas), count, b, l, scaling, canvas)
  {
  }

  /** The position of a paragraph's section in the conclusion: target status,
      progress, the scaling and canvas shares, next steps. */
  function Rank(p: Paragraph): nat {
    match p
    case NoDataAvailable => 0
    case TargetAchieved(_) => 1
    case TargetGap(_, _) => 1
    case Improved(_) => 2
    case Regressed(_) => 2
    case NoChange(_) => 2
    case ScalingShare(_, _) => 3
    case CanvasShare(_, _) => 4
    case PrioritizeScaling => 5
    case PrioritizeCanvas => 5
    case KeepMonitoring => 5
  }

  /** The paragraphs come in section order, at most one per section. */
  predicate InSectionOrder(parts: seq<Paragraph>) {
    forall i, j :: 0 <= i < j < |parts| ==> Rank(parts[i]) < Rank(parts[j])
  }

  /** `r` extends `front` by paragraphs in section order whose ranks lie in `[lo, hi]`. */
  predicate AddsRanks(front: seq<Paragraph>, r: seq<Paragraph>, lo: nat, hi: nat) {
    && |front| <= |r| && r[..|front|] == front
    && (forall k :: |front| <= k < |r| ==> lo <= Rank(r[k]) <= hi)
    && (forall i, j :: |front| <= i < j < |r| ==> Rank(r[i]) < Rank(r[j]))
  }

  /** Paragraphs of later sections appended to a conclusion in section order
      keep it in section order. */
  lemma SectionOrderChain(front: seq<Paragraph>, r: seq<Paragraph>, lo: nat, hi: nat)
    requires lo <= hi
    requires InSectionOrder(front) && forall k :: 0 <= k < |front| ==> Rank(front[k]) < lo
    requires AddsRanks(front, r, lo, hi)
    ensures InSectionOrder(r) && forall k :: 0 <= k < |r| ==> Rank(r[k]) <= hi
  {
    forall i, j | 0 <= i < j < |r|
      ensures Rank(r[i]) < Rank(r[j])
    {
      if j < |front| {
        assert r[i] == front[i] && r[j] == front[j];
      } else if i < |front| {
        assert r[i] == front[i];
      }
    }
    forall k | 0 <= k < |r|
      ensures Rank(r[k]) <= hi
    {
      if k < |front| {
        assert r[k] == front[k];
      }
    }
  }

  /** The four sections in order, for `count` points, baseline time `b`,
      latest time `l` and the latest scaling and canvas components. */
  method Conclude(count: nat, b: real, l: real, scaling: real, canvas: real) returns (parts: seq<Paragraph>)
    ensures Kinds(parts) == TargetKinds(l) + ProgressKinds(count, b, l) + BreakdownKinds(scaling, canvas)
                            + NextStepKinds(l, scaling, canvas)
    ensures forall k :: 0 <= k < |parts| ==> NumbersAgree(parts[k], b, l, scaling, canvas)
    ensures InSectionOrder(parts)
  {
    parts := [];
    assert Kinds(parts) == {};
    var target := AppendTargetStatus(parts, l);
    SectionOrderChain([], target, 1, 1);
    var progress := AppendProgress(target, count, b, l);
    AgreeingChain([], target, progress, b, l, scaling, canvas);
    SectionOrderChain(target, progress, 2, 2);
    var breakdown := AppendBreakdown(progress, scaling, canvas, l);
    AgreeingChain([], progress, breakdown, b, l, scaling, canvas);
    SectionOrderChain(progress, breakdown, 3, 4);
    parts := AppendNextSteps(breakdown, l, scaling, canvas);
    AgreeingChain([], breakdown, parts, b, l, scaling, canvas);
    SectionOrderChain(breakdown, parts, 5, 5);
  }

  lemma AgreeingChain(a: seq<Paragraph>, mid: seq<Paragraph>, c: seq<Paragraph>,
                      b: real, l: real, scaling: real, canvas: real)
    requires ExtendsAgreeing(a, mid, b, l, scaling, canvas)
    requires ExtendsAgreeing(mid, c, b, l, scaling, canvas)
    ensures ExtendsAgreeing(a, c, b, l, scaling, canvas)
  {
    forall k | |a| <= k < |c|
      ensures NumbersAgree(c[k], b, l, scaling, canvas)
    {
      if k < |mid| {
        assert c[k] == mid[k];
      }
    }
    assert c[..|a|] == c[..|mid|][..|a|];
  }

  /** "Current vs Target": only for a positive latest time. */
  method AppendTargetStatus(parts: seq<Paragraph>, latestTime: real) returns (r: seq<Paragraph>)
    ensures Kinds(r) == Kinds(parts) + TargetKinds(latestTime)
    ensures forall b, scaling, canvas :: ExtendsAgreeing(parts, r, b, latestTime, scaling, canvas)
    ensures AddsRanks(parts, r, 1, 1)
  {
    r := parts;
    if latestTime > 0.0 {
      var gap := (latestTime - TargetMs) / TargetMs * 100.0;
      if latestTime <= TargetMs {
        KindsAppend(r, TargetAchieved(latestTime));
        r := r + [TargetAchieved(latestTime)];
      } else {
        KindsAppend(r, TargetGap(latestTime, gap));
        r := r + [TargetGap(latestTime, gap)];
      }
    }
  }

  /** "Progress since baseline": needs two points and both times positive. */
  method AppendProgress(parts: seq<Paragraph>, count: nat, baselineTime: real, latestTime: real) returns (r: seq<Paragraph>)
    ensures Kinds(r) == Kinds(parts) + ProgressKinds(count, baselineTime, latestTime)
    ensures forall scaling, canvas :: ExtendsAgreeing(parts, r, baselineTime, latestTime, scaling, canvas)
    ensures AddsRanks(parts, r, 2, 2)
  {
    r := parts;
    if count > 1 && baselineTime > 0.0 && latestTime > 0.0 {
      var improvement := ImprovementPercent(baselineTime, latestTime);
      ImprovementSign(baselineTime, latestTime);
      if improvement > 0.0 {
        KindsAppend(r, Improved(improvement));
        r := r + [Improved(improvement)];
      } else if improvement < 0.0 {
        KindsAppend(r, Regressed(-improvement));
        r := r + [Regressed(-improvement)];
      } else {
        KindsAppend(r, NoChange(latestTime));
        r := r + [NoChange(latestTime)];
      }
    }
  }

  /** "Component analysis": each positive component with its share of the latest time. */
  method AppendBreakdown(parts: seq<Paragraph>, scaling: real, canvas: real, latestTime: real) returns (r: seq<Paragraph>)
    ensures Kinds(r) == Kinds(parts) + BreakdownKinds(scaling, canvas)
    ensures forall b :: ExtendsAgreeing(parts, r, b, latestTime, scaling, canvas)
    ensures AddsRanks(parts, r, 3, 4)
  {
    r := parts;
    if scaling > 0.0 || canvas > 0.0 {
      if scaling > 0.0 {
        var share := ScalingShare(scaling, ShareOf(scaling, latestTime));
        KindsAppend(r, share);
        r := r + [share];
      }
      if canvas > 0.0 {
        var share := CanvasShare(canvas, ShareOf(canvas, latestTime));
        KindsAppend(r, share);
        r := r + [share];
      }
    }
  }

  /** "Next Steps": a priority while the target is missed (a tie goes to
      canvas), otherwise the target-achieved note. */
  method AppendNextSteps(parts: seq<Paragraph>, latestTime: real, scaling: real, canvas: real) returns (r: seq<Paragraph>)
    ensures Kinds(r) == Kinds(parts) + NextStepKinds(latestTime, scaling, canvas)
    ensures forall b :: ExtendsAgreeing(parts, r, b, latestTime, scaling, canvas)
    ensures AddsRanks(parts, r, 5, 5)
  {
    if latestTime > TargetMs {
      if scaling > canvas {
        KindsAppend(parts, PrioritizeScaling);
        r := parts + [PrioritizeScaling];
      } else {
        KindsAppend(parts, PrioritizeCanvas);
        r := parts + [PrioritizeCanvas];
      }
    } else {
      KindsAppend(parts, KeepMonitoring);
      r := parts + [KeepMonitoring];
    }
  }
}
