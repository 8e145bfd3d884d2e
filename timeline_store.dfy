/** The collector's timeline: the list of entries read from the timeline file,
    changed in place by collection (append, baseline replacement, baseline
    update), removal by index and removal of "-dirty" entries, and written back
    whole. */
module TimelineStore {
  import opened Common
  import opened Sorting
  import opened ListEdits
  import opened BenchmarkData
  import opened BenchmarkCollector

  /** `entry.get("mode") == "baseline" or "baseline" in entry.get("optimization", "").lower()`. */
  predicate BaselineLike(e: Entry) {
    e.mode == Some("baseline") || Contains(Lower(e.optimization.GetOr("")), "baseline")
  }

  /** `"-dirty" in git_commit`: the commit was taken with uncommitted changes. */
  predicate IsDirtyCommit(commit: string) {
    Contains(commit, "-dirty")
  }

  /** The cleanup's test, `"-dirty" in entry.get("git_commit", "")`. */
  predicate IsDirty(e: Entry) {
    IsDirtyCommit(e.gitCommit.GetOr(""))
  }

  predicate Unlabelled(e: Entry) {
    e.optimization.None?
  }

  /** `[entry["optimization"] for entry in timeline]`, which raises at the first
      entry without a label. */
  function Labels(s: seq<Entry>): (r: Result<seq<string>, KeyError>)
    ensures r.Ok? <==> forall i :: 0 <= i < |s| ==> s[i].optimization.Some?
    ensures r.Ok? ==> |r.value| == |s| && forall i :: 0 <= i < |s| ==> r.value[i] == s[i].optimization.value
    ensures r.Err? ==> r.error == MissingLabel(FirstWhere(s, Unlabelled).value)
  {
    match FirstWhere(s, Unlabelled)
    case Some(i) => Err(MissingLabel(i))
    case None => Ok(seq(|s|, i requires 0 <= i < |s| => s[i].optimization.value))
  }

  /** The timeline after baseline mode: every baseline-like entry removed, the
      new entry first. */
  function ReplacedBaseline(s: seq<Entry>, e: Entry): seq<Entry> {
    [e] + Reject(s, BaselineLike)
  }

  /** The position update-baseline mode overwrites: the first baseline-like entry, else 0. */
  function BaselineSlot(s: seq<Entry>): nat {
    match FirstWhere(s, BaselineLike)
    case Some(i) => i
    case None => 0
  }

  /** The timeline after update-baseline mode. */
  function UpdatedBaseline(s: seq<Entry>, e: Entry): seq<Entry> {
    if s == [] then [e]
    else
      var k := BaselineSlot(s);
      s[k := e]
  }

  /** The mode dispatch of `collect_benchmark_result`: any mode other than
      "baseline" and "update_baseline" appends. */
  function Dispatch(s: seq<Entry>, e: Entry, mode: string): seq<Entry> {
    if mode == "baseline" then ReplacedBaseline(s, e)
    else if mode == "update_baseline" then UpdatedBaseline(s, e)
    else s + [e]
  }

  /** Baseline mode removes exactly the baseline-like entries (one per matching
      index), keeps the others in their order, and puts the new entry first. */
  lemma {:induction false} BaselineModeShape(s: seq<Entry>, e: Entry)
    ensures var r := Dispatch(s, e, "baseline");
            && |r| == |s| - |PositionsWhere(s, BaselineLike)| + 1
            && r[0] == e
            && r[1..] == Without(s, SetOf(PositionsWhere(s, BaselineLike)))
  {
    RejectLength(s, BaselineLike);
    WithoutPositions(s, BaselineLike);
  }

  /** After baseline mode exactly one entry is baseline-like: the new one. */
  lemma {:induction false} BaselineModeLeavesOneBaseline(s: seq<Entry>, e: Entry)
    requires e.mode == Some("baseline")
    ensures Count(Dispatch(s, e, "baseline"), BaselineLike) == 1
  {
    CountAppend([e], Reject(s, BaselineLike), BaselineLike);
    RejectCountsNone(s, BaselineLike);
    assert [e][..0] == [];
  }

  /** Update-baseline mode keeps the length of a non-empty timeline and
      overwrites only the first baseline-like position, or position 0 when no
      entry is baseline-like. */
  lemma UpdateBaselineShape(s: seq<Entry>, e: Entry)
    ensures s == [] ==> Dispatch(s, e, "update_baseline") == [e]
    ensures s != [] ==>
      var r := Dispatch(s, e, "update_baseline");
      && |r| == |s|
      && ((exists i :: 0 <= i < |s| && BaselineLike(s[i])) ==>
            (exists k :: 0 <= k < |s| && BaselineLike(s[k]) && r[k] == e
                         && (forall j :: 0 <= j < k ==> !BaselineLike(s[j]))
                         && (forall j :: 0 <= j < |s| && j != k ==> r[j] == s[j])))
    ensures s != [] && (forall i :: 0 <= i < |s| ==> !BaselineLike(s[i])) ==>
      Dispatch(s, e, "update_baseline") == [e] + s[1..]
  {
    if s != [] {
      var r := Dispatch(s, e, "update_baseline");
      if exists i :: 0 <= i < |s| && BaselineLike(s[i]) {
        var k := BaselineSlot(s);
        assert r[k] == e;
      }
    }
  }

  /** Update-baseline mode does not restore "at most one baseline": with two
      baseline entries, replacing the first one leaves two. */
  lemma UpdateBaselineMayKeepTwoBaselines(a: Entry, b: Entry, e: Entry)
    requires a.mode == Some("baseline") && b.mode == Some("baseline") && e.mode == Some("baseline")
    ensures Count(Dispatch([a, b], e, "update_baseline"), BaselineLike) == 2
  {
    assert FirstWhere([a, b], BaselineLike) == Some(0);
    assert Dispatch([a, b], e, "update_baseline") == [e, b];
    assert [e, b][..1] == [e];
    assert [e][..0] == [];
    assert Count([e], BaselineLike) == 1;
  }

  /** Optimization mode is an in-order append. */
  lemma OptimizationModeAppends(s: seq<Entry>, e: Entry, mode: string)
    requires mode != "baseline" && mode != "update_baseline"
    ensures |Dispatch(s, e, mode)| == |s| + 1
    ensures Dispatch(s, e, mode)[..|s|] == s && Dispatch(s, e, mode)[|s|] == e
  {
  }

  /** Popping a list of distinct valid indices in descending order (what
      `for i in sorted(indices, reverse=True): timeline.pop(i)` does) removes
      exactly those positions and keeps the rest in order. */
  lemma PopDistinctIndices<T>(s: seq<T>, indices: seq<int>)
    requires Distinct(indices)
    requires forall k :: 0 <= k < |indices| ==> 0 <= indices[k] < |s|
    ensures PopAll(s, SortBy(indices, Descending)) == Some(Without(s, SetOf(indices)))
  {
    var order := SortBy(indices, Descending);
    SortedDescendingDistinct(indices);
    SameElementsSameSet(order, indices);
    forall k | 0 <= k < |order|
      ensures 0 <= order[k] < |s|
    {
      var x := order[k];
      assert x in order;
      var m :| 0 <= m < |indices| && indices[m] == x;
    }
    PopDescending(s, order);
  }

  lemma SameElementsSameSet(a: seq<int>, b: seq<int>)
    requires forall x :: x in a <==> x in b
    ensures SetOf(a) == SetOf(b)
  {
    forall x
      ensures x in SetOf(a) <==> x in SetOf(b)
    {
      if x in SetOf(a) {
        var k :| 0 <= k < |a| && a[k] == x;
        assert x in b;
      }
      if x in SetOf(b) {
        var k :| 0 <= k < |b| && b[k] == x;
        assert x in a;
      }
    }
  }

  /** Popping the matching positions, collected in ascending order and popped
      in descending order, rejects exactly the matching entries. */
  lemma PopMatchingPositions<T>(s: seq<T>, p: T -> bool)
    ensures PopAll(s, SortBy(PositionsWhere(s, p), Descending)) == Some(Reject(s, p))
  {
    var idx := PositionsWhere(s, p);
    PopDistinctIndices(s, idx);
    WithoutPositions(s, p);
  }

  /** Duplicate indices pop once per occurrence: removing [0, 0] from three
      entries leaves only the last. */
  lemma DuplicateIndexPopsTwice<T>(a: T, b: T, c: T)
    ensures PopAll([a, b, c], SortBy([0, 0], Descending)) == Some([c])
  {
    assert [0, 0][..1] == [0];
    assert SortBy([0, 0], Descending) == [0, 0];
    assert PopAll([c], []) == Some([c]);
    assert RemoveAt([b, c], 0) == [c];
    assert PopAll([b, c], [0]) == Some([c]);
    assert RemoveAt([a, b, c], 0) == [b, c];
  }

  /** A repeated last index runs past the end of the shortened list: removing
      [2, 2] from three entries raises. */
  lemma DuplicateLastIndexRaises<T>(a: T, b: T, c: T)
    ensures PopAll([a, b, c], SortBy([2, 2], Descending)) == None
  {
    assert [2, 2][..1] == [2];
    assert SortBy([2], Descending) == [2] by {
      assert [2][..0] == [];
    }
    assert SortBy([2, 2], Descending) == InsertBy([2], 2, Descending) == [2, 2];
    assert RemoveAt([a, b, c], 2) == [a, b];
    assert PopAll([a, b], [2]) == None;
  }

  /** `[i for i in indices if i < 0 or i >= len(timeline)]`. */
  function OutOfRange(indices: seq<int>, n: nat): (r: seq<int>)
    ensures forall k :: 0 <= k < |r| ==> r[k] in indices && (r[k] < 0 || r[k] >= n)
    ensures forall k :: 0 <= k < |indices| && (indices[k] < 0 || indices[k] >= n) ==> indices[k] in r
  {
    if indices == [] then []
    else
      var rest := OutOfRange(indices[1..], n);
      assert forall k :: 1 <= k < |indices| ==> indices[k] == indices[1..][k - 1];
      if indices[0] < 0 || indices[0] >= n then [indices[0]] + rest else rest
  }

  lemma InRangeNothingOutOfRange(indices: seq<int>, n: nat)
    requires forall k :: 0 <= k < |indices| ==> 0 <= indices[k] < n
    ensures OutOfRange(indices, n) == []
  {
  }

  /** The `for i, entry in enumerate(timeline): if ...: indices.append(i)` loops. */
  method CollectIndices<T>(s: seq<T>, p: T -> bool) returns (idx: seq<int>)
    ensures idx == PositionsWhere(s, p)
  {
    idx := [];
    var i := 0;
    while i < |s|
      invariant 0 <= i <= |s|
      invariant idx == PositionsWhere(s[..i], p)
    {
      assert s[..i + 1][..i] == s[..i];
      if p(s[i]) {
        idx := idx + [i];
      }
      i := i + 1;
    }
    assert s[..i] == s;
  }

  /** `for i in order: timeline.pop(i)` on a working copy; `None` when a pop raises. */
  method PopEach<T>(s: seq<T>, order: seq<int>) returns (r: Option<seq<T>>)
    ensures r == PopAll(s, order)
  {
    var t := s;
    var k := 0;
    while k < |order|
      invariant 0 <= k <= |order|
      invariant PopAll(s, order) == PopAll(t, order[k..])
    {
      var i := order[k];
      assert order[k..][1..] == order[k + 1..];
      if !(0 <= i < |t|) {
        return None;
      }
      t := t[..i] + t[i + 1..];
      k := k + 1;
    }
    r := Some(t);
  }

  /** Some listed (valid) index holds an entry without a label. */
  predicate ListedUnlabelled(s: seq<Entry>, indices: seq<int>) {
    exists k :: 0 <= k < |indices| && 0 <= indices[k] < |s| && Unlabelled(s[indices[k]])
  }

  predicate DirtyUnlabelled(e: Entry) {
    IsDirty(e) && Unlabelled(e)
  }

  /** Every unlabelled dirty entry is a dirty entry. */
  lemma {:induction false} DirtyUnlabelledCounted(s: seq<Entry>)
    ensures Count(s, DirtyUnlabelled) <= Count(s, IsDirty)
  {
    if s != [] {
      DirtyUnlabelledCounted(s[..|s| - 1]);
    }
  }

  /** When no dirty entry lacks a label, the removal the cleanup asks for
      finds every listed entry labelled. */
  lemma DirtyListedLabelled(s: seq<Entry>)
    requires Count(s, DirtyUnlabelled) == 0
    ensures !ListedUnlabelled(s, PositionsWhere(s, IsDirty))
  {
  }

  datatype CollectOutcome =
    | Collected(entry: Entry)  // the entry returned and written
    | Cancelled                // the empty dictionary returned after a declined prompt
    | Failed(error: KeyError)  // a KeyError raised before anything was written

  datatype RemovalOutcome =
    | NothingToRemove
    | InvalidIndices(invalid: seq<int>)
    | LabelMissing    // KeyError from printing a listed entry without "optimization"
    | RemovalCancelled
    | PopFailed       // IndexError from a repeated index; the file is not rewritten
    | Removed

  datatype CleanOutcome =
    | NoEntries
    | NoDirtyEntries
    | DirtyEntryUnlabelled  // KeyError from printing a dirty entry without "optimization"
    | CleanedBy(removal: RemovalOutcome)

  /** The timeline file's contents, as the list every command loads, changes in
      place and writes back. */
  class Timeline {
    var entries: seq<Entry>

    constructor (loaded: seq<Entry>)
      ensures entries == loaded
    {
      entries := loaded;
    }

    /** `_handle_baseline_mode`. */
    method HandleBaselineMode(e: Entry)
      modifies this
      ensures entries == ReplacedBaseline(old(entries), e)
    {
      var baselineIndices := CollectIndices(entries, BaselineLike);
      PopMatchingPositions(entries, BaselineLike);
      var popped := PopEach(entries, SortBy(baselineIndices, Descending));
      entries := [e] + popped.value;
    }

    /** `_handle_update_baseline_mode` (the backup file it writes first is not modelled). */
    method HandleUpdateBaselineMode(e: Entry)
      modifies this
      ensures entries == UpdatedBaseline(old(entries), e)
    {
      var baselineIndex := 0;
      var i := 0;
      while i < |entries|
        invariant 0 <= i <= |entries|
        invariant baselineIndex == 0
        invariant forall j :: 0 <= j < i ==> !BaselineLike(entries[j])
      {
        if BaselineLike(entries[i]) {
          baselineIndex := i;
          break;
        }
        i := i + 1;
      }
      assert baselineIndex == BaselineSlot(entries);
      if entries != [] {
        entries := entries[baselineIndex := e];
      } else {
        entries := entries + [e];
      }
    }

    /** `collect_benchmark_result` after the file has been read: the dirty-commit
        and duplicate-label prompts (answered by `confirmDirty` and
        `confirmDuplicate`), the extraction of both tests, the entry, and the mode
        dispatch. */
    method Collect(p: Profile, run: BenchmarkRun, optimizationName: string, mode: string,
                   allowDirty: bool, gitCommit: string, timestamp: string, benchmarkFile: string,
                   confirmDirty: bool, confirmDuplicate: bool)
      returns (outcome: CollectOutcome)
      modifies this
      ensures !outcome.Collected? ==> entries == old(entries)
      ensures IsDirtyCommit(gitCommit) && !allowDirty && !confirmDirty ==> outcome == Cancelled
      ensures (!IsDirtyCommit(gitCommit) || allowDirty || confirmDirty) && Labels(old(entries)).Err? ==>
                outcome == Failed(Labels(old(entries)).error)
      ensures (!IsDirtyCommit(gitCommit) || allowDirty || confirmDirty) && Labels(old(entries)).Ok?
              && optimizationName in Labels(old(entries)).value && !confirmDuplicate ==>
                outcome == Cancelled
      ensures outcome.Cancelled? ==>
                (IsDirtyCommit(gitCommit) && !allowDirty && !confirmDirty)
                || (Labels(old(entries)).Ok? && optimizationName in Labels(old(entries)).value && !confirmDuplicate)
      ensures outcome.Collected? ==>
                var e := outcome.entry;
                && entries == Dispatch(old(entries), e, mode)
                && e.optimization == Some(optimizationName) && e.mode == Some(mode)
                && e.gitCommit == Some(gitCommit) && e.timestamp == Some(timestamp)
                && e.device == ExtractDeviceContext(run.context)
                && e.zoom.Found? && FirstNamed(run.benchmarks, ZoomTest).Some?
                && e.totalOptimizationTime == Some(GetOr(e.zoom.profileMetrics, GenerateAtlas, 0.0))
      ensures outcome.Failed? && outcome.error == MissingProfileMetrics ==>
                FirstNamed(run.benchmarks, ZoomTest).None?
      ensures (!IsDirtyCommit(gitCommit) || allowDirty || confirmDirty) && Labels(old(entries)).Ok?
              && !(optimizationName in Labels(old(entries)).value && !confirmDuplicate) ==>
                var zoom := Extracted(p, run, ZoomTest);
                var pan := Extracted(p, run, PanTest);
                && (zoom.Err? ==> outcome == Failed(zoom.error))
                && (zoom.Ok? && pan.Err? ==> outcome == Failed(pan.error))
                && (zoom.Ok? && pan.Ok? && !zoom.value.Found? ==> outcome == Failed(MissingProfileMetrics))
                && (zoom.Ok? && pan.Ok? && zoom.value.Found? ==>
                      && outcome.Collected?
                      && outcome.entry.zoom == zoom.value
                      && outcome.entry.pan == pan.value
                      && outcome.entry.benchmarkFile == Some(benchmarkFile))
    {
      if IsDirtyCommit(gitCommit) && !allowDirty && !confirmDirty {
        return Cancelled;
      }
      var labels := Labels(entries);
      if labels.Err? {
        return Failed(labels.error);
      }
      if optimizationName in labels.value && !confirmDuplicate {
        return Cancelled;
      }
      var zoom := ExtractTestMetrics(p, run, ZoomTest);
      if zoom.Err? {
        return Failed(zoom.error);
      }
      var pan := ExtractTestMetrics(p, run, PanTest);
      if pan.Err? {
        return Failed(pan.error);
      }
      if !zoom.value.Found? {
        // the not-found snapshot has "atlas_metrics", so ["profile_metrics"] raises
        return Failed(MissingProfileMetrics);
      }
      var e := Entry(
        Some(timestamp), Some(optimizationName), Some(mode), ExtractDeviceContext(run.context),
        zoom.value, pan.value, Some(GetOr(zoom.value.profileMetrics, GenerateAtlas, 0.0)),
        Some(gitCommit), Some(benchmarkFile));
      if mode == "baseline" {
        HandleBaselineMode(e);
      } else if mode == "update_baseline" {
        HandleUpdateBaselineMode(e);
      } else {
        entries := entries + [e];
      }
      outcome := Collected(e);
    }

    /** `remove_timeline_entries`; `confirmed` stands for `--force` or a "y" answer
        (the backup file is not modelled). */
    method RemoveEntries(indices: seq<int>, confirmed: bool) returns (outcome: RemovalOutcome)
      modifies this
      ensures !outcome.Removed? ==> entries == old(entries)
      ensures old(entries) == [] ==> outcome == NothingToRemove
      ensures old(entries) != [] && OutOfRange(indices, |old(entries)|) != [] ==>
                outcome == InvalidIndices(OutOfRange(indices, |old(entries)|))
      ensures old(entries) != [] && OutOfRange(indices, |old(entries)|) == [] ==>
                (outcome == LabelMissing <==> ListedUnlabelled(old(entries), indices))
      ensures old(entries) != [] && OutOfRange(indices, |old(entries)|) == []
              && !ListedUnlabelled(old(entries), indices) && !confirmed ==>
                outcome == RemovalCancelled
      ensures old(entries) != [] && OutOfRange(indices, |old(entries)|) == []
              && !ListedUnlabelled(old(entries), indices) && confirmed ==>
                outcome == (if PopAll(old(entries), SortBy(indices, Descending)).Some? then Removed else PopFailed)
      ensures outcome.Removed? ==> Some(entries) == PopAll(old(entries), SortBy(indices, Descending))
      ensures outcome.Removed? && Distinct(indices) ==> entries == Without(old(entries), SetOf(indices))
    {
      if entries == [] {
        return NothingToRemove;
      }
      var invalid := OutOfRange(indices, |entries|);
      if invalid != [] {
        return InvalidIndices(invalid);
      }
      if ListedUnlabelled(entries, indices) {
        return LabelMissing;
      }
      if !confirmed {
        return RemovalCancelled;
      }
      if Distinct(indices) {
        PopDistinctIndices(entries, indices);
      }
      var popped := PopEach(entries, SortBy(indices, Descending));
      if popped.None? {
        return PopFailed;
      }
      entries := popped.value;
      outcome := Removed;
    }

    /** `clean_experimental_entries`: removes every entry whose commit is "-dirty". */
    method CleanExperimentalEntries(confirmed: bool) returns (outcome: CleanOutcome)
      modifies this
      ensures old(entries) == [] <==> outcome == NoEntries
      ensures outcome == NoDirtyEntries <==> old(entries) != [] && Count(old(entries), IsDirty) == 0
      ensures outcome == DirtyEntryUnlabelled <==> Count(old(entries), DirtyUnlabelled) > 0
      ensures old(entries) != [] && Count(old(entries), IsDirty) > 0 && Count(old(entries), DirtyUnlabelled) == 0 ==>
                outcome == CleanedBy(if confirmed then Removed else RemovalCancelled)
      ensures entries == if outcome == CleanedBy(Removed) then Reject(old(entries), IsDirty) else old(entries)
    {
      if entries == [] {
        return NoEntries;
      }
      var dirtyIndices := CollectIndices(entries, IsDirty);
      DirtyUnlabelledCounted(entries);
      if dirtyIndices == [] {
        return NoDirtyEntries;
      }
      var unlabelled := CollectIndices(entries, DirtyUnlabelled);
      if unlabelled != [] {
        return DirtyEntryUnlabelled;
      }
      DirtyListedLabelled(entries);
      ghost var before := entries;
      PopMatchingPositions(entries, IsDirty);
      InRangeNothingOutOfRange(dirtyIndices, |entries|);
      var removal := RemoveEntries(dirtyIndices, confirmed);
      assert removal == (if confirmed then Removed else RemovalCancelled);
      assert removal == Removed ==> entries == Reject(before, IsDirty);
      outcome := CleanedBy(removal);
    }
  }

  /** The baseline-replacement scenario: `[A (optimization), B (baseline)]`
      with a new baseline C becomes `[C, A]`. */
  lemma ReplaceBaselineScenario(a: Entry, b: Entry, c: Entry)
    requires a.mode == Some("optimization") && a.optimization == Some("pooling")
    requires b.mode == Some("baseline")
    ensures Dispatch([a, b], c, "baseline") == [c, a]
  {
    PoolingIsNotBaselineLike(a);
    assert [a, b][..1] == [a];
    assert [a][..0] == [];
    assert Reject([a], BaselineLike) == [a];
    assert Reject([a, b], BaselineLike) == [a];
  }

  /** An optimisation entry labelled "pooling" is kept by baseline mode. */
  lemma PoolingIsNotBaselineLike(a: Entry)
    requires a.mode == Some("optimization") && a.optimization == Some("pooling")
    ensures !BaselineLike(a)
  {
    assert |Lower("pooling")| < |"baseline"|;
  }
}
