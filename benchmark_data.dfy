/** The raw benchmark record that the benchmark library writes as JSON and
    every script reads: a list of named test runs and a device context. */
module BenchmarkData {
  import opened Common

  /** A JSON object whose key order matters, as its key/value pairs in document order. */
  type Obj<V> = seq<(string, V)>

  predicate HasKey<V>(o: Obj<V>, key: string) {
    exists i :: 0 <= i < |o| && o[i].0 == key
  }

  /** `o.get(key)`: the value stored under `key`, if any. A key repeated in the
      JSON text keeps its last value, as `json.load` does. */
  function Lookup<V>(o: Obj<V>, key: string): (r: Option<V>)
    ensures r.Some? <==> HasKey(o, key)
    ensures r.Some? ==> exists i :: 0 <= i < |o| && o[i] == (key, r.value)
                                    && forall j :: i < j < |o| ==> o[j].0 != key
  {
    if o == [] then None
    else if o[|o| - 1].0 == key then Some(o[|o| - 1].1)
    else
      var init := o[..|o| - 1];
      var r := Lookup(init, key);
      assert forall i :: 0 <= i < |init| ==> init[i] == o[i];
      assert HasKey(o, key) ==> HasKey(init, key) by {
        if HasKey(o, key) {
          var i :| 0 <= i < |o| && o[i].0 == key;
          assert init[i].0 == key;
        }
      }
      r
  }

  /** One metric record, `{"median": ..., ...}`; only the median is read. */
  datatype RawMetric = RawMetric(median: Option<real>)

  /** One sampled-metric record, `{"P50": ..., "P90": ..., "P99": ...}`. */
  datatype RawSampled = RawSampled(p50: Option<real>, p90: Option<real>, p99: Option<real>)

  /** One entry of `"benchmarks"`. An absent `"sampledMetrics"` is the empty map. */
  datatype RawBenchmark = RawBenchmark(
    name: string,
    metrics: Obj<RawMetric>,
    sampledMetrics: map<string, RawSampled>,
    totalRunTimeNs: Option<int>,
    repeatIterations: Option<int>)

  /** `"context"` with its `"build"` part flattened in; every field may be absent. */
  datatype RawContext = RawContext(
    model: Option<string>,
    brand: Option<string>,
    sdk: Option<int>,
    cpuCoreCount: Option<int>,
    cpuMaxFreqHz: Option<int>,
    memTotalBytes: Option<int>,
    cpuLocked: Option<bool>,
    compilationMode: Option<string>)

  /** A whole benchmark result file. An absent `"benchmarks"` is the empty list. */
  datatype BenchmarkRun = BenchmarkRun(benchmarks: seq<RawBenchmark>, context: RawContext)

  /** Whether the metric is present with a median. */
  predicate HasMedian(b: RawBenchmark, metric: string) {
    var r := Lookup(b.metrics, metric);
    r.Some? && r.value.median.Some?
  }

  /** The metric is present but has no median: reading `["median"]` raises KeyError. */
  predicate MedianMissing(b: RawBenchmark, metric: string) {
    var r := Lookup(b.metrics, metric);
    r.Some? && r.value.median.None?
  }

  function MedianOf(b: RawBenchmark, metric: string): real
    requires HasMedian(b, metric)
  {
    Lookup(b.metrics, metric).value.median.value
  }
}
