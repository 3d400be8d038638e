/**
 * Dashboard metrics providers (services/metrics_provider.py): the per-pod
 * merge of CPU and memory query results, the HPA predicate, the local
 * provider's fixed pod list and the provider choice. Query results are
 * inputs; the HTTP queries themselves are not modelled.
 */
module MetricsProvider {
  import opened Values

  datatype PodMetrics = PodMetrics(
    name: string,
    shortName: string,
    cpuPercent: Option<real>,
    memoryPercent: Option<real>,
    status: string)

  /** One sample of an instant-vector query: its labels and value. */
  datatype PromResult = PromResult(labels: map<string, string>, value: real)

  datatype MetricsSnapshot = MetricsSnapshot(
    podCount: Option<int>,
    cpuUsage: Option<real>,
    cpuUsageMax: Option<real>,
    memoryUsage: Option<real>,
    memoryUsageMax: Option<real>,
    requestRate: Option<real>,
    hpaScaled: bool,
    isLocal: bool)

  datatype ProviderKind = Local | Kubernetes {
    predicate IsLocal() {
      this == Local
    }
  }

  // ---------------------------------------------------------------------------
  // Names

  /** `result.labels.get("pod", "unknown")`. */
  function PodName(r: PromResult): string {
    if "pod" in r.labels then r.labels["pod"] else "unknown"
  }

  /** `s.split("-")[-1]`: what follows the last '-', or all of `s` when it has none. */
  function LastSegment(s: string): (r: string)
    ensures |r| <= |s| && r == s[|s| - |r|..]
    ensures '-' !in r
    ensures |r| < |s| ==> s[|s| - |r| - 1] == '-'
  {
    if s == [] then []
    else if s[|s| - 1] == '-' then []
    else LastSegment(s[..|s| - 1]) + [s[|s| - 1]]
  }

  /** `[:8]`. */
  function Take8(s: string): (r: string)
    ensures |r| <= 8 && |r| <= |s| && r == s[..|r|]
    ensures |s| >= 8 ==> |r| == 8
  {
    if |s| <= 8 then s else s[..8]
  }

  /** The short name shown for a pod: the last dash-separated part, cut to 8 characters. */
  function ShortName(name: string): (r: string)
    ensures name == "" ==> r == "unknown"
    ensures name != "" ==> r == Take8(LastSegment(name))
  {
    if name != "" then Take8(LastSegment(name)) else "unknown"
  }

  /**
   * A non-empty name's short name is a dash-free prefix, at most 8 characters
   * long, of the name's last segment: all of it when shorter than 8.
   */
  lemma ShortNameShape(name: string)
    requires name != ""
    ensures var r := ShortName(name);
            var seg := LastSegment(name);
            && |r| <= 8 && |r| <= |seg| && r == seg[..|r|] && '-' !in r
            && (|seg| >= 8 ==> |r| == 8)
            && (|seg| < 8 ==> r == seg)
  {
    var seg := LastSegment(name);
    var r := ShortName(name);
    assert r == Take8(seg);
    if |seg| <= 8 {
      assert r == seg;
    } else {
      assert r == seg[..8];
      assert forall i :: 0 <= i < 8 ==> r[i] == seg[i];
    }
  }

  lemma {:induction false} LastSegmentOfJoin(prefix: string, segment: string)
    requires '-' !in segment
    ensures LastSegment(prefix + "-" + segment) == segment
    decreases |segment|
  {
    var s := prefix + "-" + segment;
    if segment == [] {
      assert s[|s| - 1] == '-';
    } else {
      var init := segment[..|segment| - 1];
      assert s[..|s| - 1] == prefix + "-" + init;
      assert s[|s| - 1] == segment[|segment| - 1];
      assert segment[|segment| - 1] != '-';
      LastSegmentOfJoin(prefix, init);
      assert init + [segment[|segment| - 1]] == segment;
    }
  }

  /** The generated suffix of a pod name becomes its short name, cut to 8 characters. */
  lemma ShortNameOfPod(prefix: string, segment: string)
    requires '-' !in segment
    ensures ShortName(prefix + "-" + segment) == Take8(segment)
  {
    LastSegmentOfJoin(prefix, segment);
  }

  // ---------------------------------------------------------------------------
  // Ordering by name: Python compares strings by code point, lexicographically

  predicate Less(a: string, b: string)
  {
    if a == [] then b != []
    else if b == [] then false
    else if a[0] != b[0] then a[0] < b[0]
    else Less(a[1..], b[1..])
  }

  lemma {:induction false} LessIrreflexive(a: string)
    ensures !Less(a, a)
  {
    if a != [] {
      LessIrreflexive(a[1..]);
    }
  }

  lemma {:induction false} LessTransitive(a: string, b: string, c: string)
    requires Less(a, b) && Less(b, c)
    ensures Less(a, c)
  {
    if a != [] && b != [] && c != [] && a[0] == b[0] && b[0] == c[0] {
      LessTransitive(a[1..], b[1..], c[1..]);
    }
  }

  lemma {:induction false} LessTotal(a: string, b: string)
    requires a != b
    ensures Less(a, b) || Less(b, a)
  {
    if a != [] && b != [] && a[0] == b[0] {
      assert a == [a[0]] + a[1..] && b == [b[0]] + b[1..];
      LessTotal(a[1..], b[1..]);
    }
  }

  predicate SortedByName(pods: seq<PodMetrics>) {
    forall i, j :: 0 <= i < j < |pods| ==> Less(pods[i].name, pods[j].name)
  }

  // ---------------------------------------------------------------------------
  // The per-pod merge

  /** The pod names the samples carry. */
  function PodNames(results: seq<PromResult>): set<string> {
    set i | 0 <= i < |results| :: PodName(results[i])
  }

  /** The names of the merged entries. */
  function Names(pods: seq<PodMetrics>): set<string> {
    set i | 0 <= i < |pods| :: pods[i].name
  }

  /** The value of the last sample labelled with pod `name`, if any. */
  function LastValue(results: seq<PromResult>, name: string): (v: Option<real>)
    ensures v.Some? <==> name in PodNames(results)
  {
    if results == [] then None
    else if PodName(results[|results| - 1]) == name then Some(results[|results| - 1].value)
    else
      var v := LastValue(results[..|results| - 1], name);
      assert PodNames(results) == PodNames(results[..|results| - 1]) + {PodName(results[|results| - 1])};
      v
  }

  /** The entry the merge produces for pod `name`. */
  function MergedPod(name: string, cpu: seq<PromResult>, memory: seq<PromResult>): PodMetrics {
    PodMetrics(name, ShortName(name), LastValue(cpu, name), LastValue(memory, name), "running")
  }

  /** Inserts `p` among pods sorted by name, none of which has its name. */
  method InsertByName(sorted: seq<PodMetrics>, p: PodMetrics) returns (r: seq<PodMetrics>)
    requires SortedByName(sorted)
    requires p.name !in Names(sorted)
    ensures SortedByName(r)
    ensures multiset(r) == multiset(sorted) + multiset{p}
  {
    var i := 0;
    while i < |sorted| && Less(sorted[i].name, p.name)
      invariant 0 <= i <= |sorted|
      invariant forall j :: 0 <= j < i ==> Less(sorted[j].name, p.name)
    {
      i := i + 1;
    }
    forall j | i <= j < |sorted|
      ensures Less(p.name, sorted[j].name)
    {
      assert sorted[i].name in Names(sorted);
      LessTotal(sorted[i].name, p.name);
      if j > i {
        LessTransitive(p.name, sorted[i].name, sorted[j].name);
      }
    }
    r := sorted[..i] + [p] + sorted[i..];
    assert sorted == sorted[..i] + sorted[i..];
  }

  /** The first loop: one entry per CPU sample's pod, later samples overwriting earlier ones. */
  method EntriesFromCpu(cpu: seq<PromResult>) returns (byName: map<string, PodMetrics>)
    ensures byName.Keys == PodNames(cpu)
    ensures forall n :: n in byName ==>
      byName[n] == PodMetrics(n, ShortName(n), LastValue(cpu, n), None, "running")
  {
    byName := map[];
    assert byName == Seeded(cpu[..0]);
    var i := 0;
    while i < |cpu|
      invariant 0 <= i <= |cpu|
      invariant byName == Seeded(cpu[..i])
    {
      SeededStep(cpu, i);
      var name := PodName(cpu[i]);
      byName := byName[name := PodMetrics(name, ShortName(name), Some(cpu[i].value), None, "running")];
      i := i + 1;
    }
    assert cpu[..i] == cpu;
  }

  /** The entries after the first loop has read `samples`. */
  function Seeded(samples: seq<PromResult>): map<string, PodMetrics> {
    map n | n in PodNames(samples) :: PodMetrics(n, ShortName(n), LastValue(samples, n), None, "running")
  }

  lemma SeededStep(cpu: seq<PromResult>, i: nat)
    requires i < |cpu|
    ensures var name := PodName(cpu[i]);
            Seeded(cpu[..i + 1])
            == Seeded(cpu[..i])[name := PodMetrics(name, ShortName(name), Some(cpu[i].value), None, "running")]
  {
    var name := PodName(cpu[i]);
    assert cpu[..i + 1][..i] == cpu[..i];
    assert PodNames(cpu[..i + 1]) == PodNames(cpu[..i]) + {name};
    var names := PodNames(cpu[..i + 1]);
    var expected := Seeded(cpu[..i])[name := PodMetrics(name, ShortName(name), Some(cpu[i].value), None, "running")];
    forall n | n in names
      ensures Seeded(cpu[..i + 1])[n] == expected[n]
    {
      LastValueStep(cpu, i, n);
    }
  }

  /** A later sample for the same pod supersedes every earlier one. */
  lemma LastValueStep(results: seq<PromResult>, j: nat, name: string)
    requires j < |results|
    ensures LastValue(results[..j + 1], name)
         == if PodName(results[j]) == name then Some(results[j].value) else LastValue(results[..j], name)
  {
    assert results[..j + 1][..j] == results[..j];
  }

  /** The entries once the memory samples `samples` have been applied. */
  function Filled(entries: map<string, PodMetrics>, samples: seq<PromResult>): map<string, PodMetrics> {
    map n | n in entries :: entries[n].(memoryPercent := LastValue(samples, n))
  }

  /** Applying sample `j` to the entries filled from the samples before it. */
  lemma FilledStep(entries: map<string, PodMetrics>, memory: seq<PromResult>, j: nat)
    requires j < |memory|
    ensures var before := Filled(entries, memory[..j]);
            var name := PodName(memory[j]);
            Filled(entries, memory[..j + 1])
            == if name in before then before[name := before[name].(memoryPercent := Some(memory[j].value))] else before
  {
    var before := Filled(entries, memory[..j]);
    var name := PodName(memory[j]);
    var expected := if name in before then before[name := before[name].(memoryPercent := Some(memory[j].value))] else before;
    forall n | n in entries
      ensures Filled(entries, memory[..j + 1])[n] == expected[n]
    {
      LastValueStep(memory, j, n);
    }
  }

  /** The second loop: memory samples fill in pods already present and are otherwise dropped. */
  method FillMemory(entries: map<string, PodMetrics>, memory: seq<PromResult>) returns (byName: map<string, PodMetrics>)
    ensures byName.Keys == entries.Keys
    ensures forall n :: n in byName ==>
      byName[n] == entries[n].(memoryPercent := LastValue(memory, n))
  {
    byName := map n | n in entries :: entries[n].(memoryPercent := None);
    assert byName == Filled(entries, memory[..0]);
    var j := 0;
    while j < |memory|
      invariant 0 <= j <= |memory|
      invariant byName == Filled(entries, memory[..j])
    {
      FilledStep(entries, memory, j);
      var name := PodName(memory[j]);
      if name in byName {
        byName := byName[name := byName[name].(memoryPercent := Some(memory[j].value))];
      }
      j := j + 1;
    }
    assert memory[..j] == memory;
  }

  /** `sorted(pods_data.values(), key=lambda p: p.name)`. */
  method SortByName(byName: map<string, PodMetrics>) returns (pods: seq<PodMetrics>)
    requires forall n :: n in byName ==> byName[n].name == n
    ensures SortedByName(pods)
    ensures Names(pods) == byName.Keys
    ensures forall k :: 0 <= k < |pods| ==> pods[k].name in byName && pods[k] == byName[pods[k].name]
  {
    pods := [];
    var remaining := byName.Keys;
    while remaining != {}
      invariant remaining <= byName.Keys
      invariant SortedByName(pods)
      invariant Names(pods) == byName.Keys - remaining
      invariant forall k :: 0 <= k < |pods| ==> pods[k].name in byName && pods[k] == byName[pods[k].name]
      decreases remaining
    {
      var name :| name in remaining;
      var before := pods;
      pods := InsertByName(pods, byName[name]);
      forall k | 0 <= k < |pods|
        ensures pods[k].name in byName && pods[k] == byName[pods[k].name]
        ensures pods[k].name in Names(before) + {name}
      {
        assert pods[k] in multiset(before) + multiset{byName[name]};
        if pods[k] != byName[name] {
          var m :| 0 <= m < |before| && before[m] == pods[k];
        }
      }
      forall n | n in Names(before) + {name}
        ensures n in Names(pods)
      {
        if n == name {
          assert byName[name] in multiset(pods);
        } else {
          var m :| 0 <= m < |before| && before[m].name == n;
          assert before[m] in multiset(pods);
        }
      }
      remaining := remaining - {name};
    }
  }

  /**
   * `KubernetesMetricsProvider.collect_pod_metrics` on the two query
   * results: one entry per pod named in the CPU results (later samples
   * overwrite earlier ones), memory filled in only for those pods, sorted by name.
   */
  method CollectPodMetrics(cpu: seq<PromResult>, memory: seq<PromResult>) returns (pods: seq<PodMetrics>)
    ensures SortedByName(pods)
    ensures Names(pods) == PodNames(cpu)
    ensures forall i :: 0 <= i < |pods| ==> pods[i] == MergedPod(pods[i].name, cpu, memory)
  {
    var entries := EntriesFromCpu(cpu);
    var byName := FillMemory(entries, memory);
    pods := SortByName(byName);
  }

  /** `hpa_scaled`: the deployment has scaled beyond its single minimum replica. */
  function HpaScaled(podCount: Option<real>): (scaled: bool)
    ensures scaled ==> podCount.Some? && Truncate(podCount.value) >= 1
    ensures podCount.Some? && podCount.value == podCount.value.Floor as real ==>
      (scaled <==> podCount.value.Floor >= 2)
  {
    podCount.Some? && podCount.value > 1.0
  }

  /**
   * `KubernetesMetricsProvider.collect_metrics` from the six query answers
   * (pod count, CPU average and maximum, memory average and maximum, request rate).
   */
  function KubernetesSnapshot(podCount: Option<real>, cpuAvg: Option<real>, cpuMax: Option<real>,
                              memoryAvg: Option<real>, memoryMax: Option<real>, requestRate: Option<real>)
    : (s: MetricsSnapshot)
    ensures s.hpaScaled <==> podCount.Some? && podCount.value > 1.0
    ensures s.podCount.Some? <==> podCount.Some?
    ensures podCount.Some? && podCount.value >= 0.0 ==>
      s.podCount.value as real <= podCount.value < s.podCount.value as real + 1.0
    ensures !s.isLocal
  {
    MetricsSnapshot(
      if podCount.Some? then Some(Truncate(podCount.value)) else None,
      cpuAvg, cpuMax, memoryAvg, memoryMax, requestRate,
      HpaScaled(podCount), false)
  }

  /** `LocalMetricsProvider.collect_pod_metrics`: a single simulated pod without percentages. */
  function LocalPodMetrics(): (pods: seq<PodMetrics>)
    ensures |pods| == 1 && pods[0].status == "running"
    ensures pods[0].cpuPercent.None? && pods[0].memoryPercent.None?
  {
    [PodMetrics("load-harness-local", "local", None, None, "running")]
  }

  /** The local pod's short name follows the same rule the Kubernetes merge applies. */
  lemma LocalPodFollowsNamingRule()
    ensures LocalPodMetrics()[0].shortName == ShortName(LocalPodMetrics()[0].name)
  {
    ShortNameOfPod("load-harness", "local");
    assert "load-harness" + "-" + "local" == "load-harness-local";
  }

  /** `create_metrics_provider`: local exactly when ENVIRONMENT, defaulting to "local", is "local". */
  function CreateMetricsProvider(environment: map<string, string>): (kind: ProviderKind)
    ensures kind.IsLocal() <==> "ENVIRONMENT" !in environment || environment["ENVIRONMENT"] == "local"
  {
    var env := if "ENVIRONMENT" in environment then environment["ENVIRONMENT"] else "local";
    if env == "local" then Local else Kubernetes
  }
}
