/** internal/exporter of the AMD operator and pkg/metrics/registry.go: the last-good cache, the
    topology-driven sampler and the collector. */
module Exporter {
  import opened Text
  import opened Cluster
  import opened Topology
  import opened Utilization
  import opened Simulate

  // ---------------------------------------------------------------- the cache

  datatype WorldState = WorldState(top: Topology, ranges: map<string, Range>)

  const EMPTY_WORLD := WorldState(map[], map[])

  function Key(a: Assignment): string { a.podNamespace + "/" + a.podName }

  /** Namespaces hold no slash, so a key names one pod. */
  lemma KeyInjective(a: Assignment, b: Assignment)
    requires '/' !in a.podNamespace && '/' !in b.podNamespace && Key(a) == Key(b)
    ensures a.podNamespace == b.podNamespace && a.podName == b.podName
  {
    CutConcat(a.podNamespace, '/', a.podName);
    CutConcat(b.podNamespace, '/', b.podName);
    assert Key(a) == a.podNamespace + ['/'] + a.podName;
    assert Key(b) == b.podNamespace + ['/'] + b.podName;
  }

  /** What the Get of a pod brings back: its annotations, or an error. */
  type PodGet = Option<map<string, string>>

  /** One iteration of Refresh's loop. */
  function FetchOne(ranges: map<string, Range>, a: Assignment, got: PodGet, pf: FloatReader,
                    default: string): map<string, Range> {
    if Key(a) in ranges || got.None? then ranges
    else ranges[Key(a) := PodRange(pf, Lookup(got.value, UTILIZATION), default)]
  }

  function FetchAll(entries: seq<Assignment>, gets: nat -> PodGet, pf: FloatReader,
                    default: string): map<string, Range> {
    if |entries| == 0 then map[]
    else
      var n := |entries| - 1;
      FetchOne(FetchAll(entries[..n], gets, pf, default), entries[n], gets(n), pf, default)
  }

  /** The loop, one iteration at a time. */
  lemma FetchAllSteps(entries: seq<Assignment>, gets: nat -> PodGet, pf: FloatReader, default: string)
    ensures FetchAll(entries[..0], gets, pf, default) == map[]
    ensures forall i | 0 <= i < |entries| ::
              FetchAll(entries[..i + 1], gets, pf, default)
                == FetchOne(FetchAll(entries[..i], gets, pf, default), entries[i], gets(i), pf, default)
  {
    forall i | 0 <= i < |entries|
      ensures FetchAll(entries[..i + 1], gets, pf, default)
           == FetchOne(FetchAll(entries[..i], gets, pf, default), entries[i], gets(i), pf, default)
    {
      assert entries[..i + 1][..i] == entries[..i];
    }
  }

  /** Some iteration fetched the pod named k. */
  ghost predicate Reached(entries: seq<Assignment>, gets: nat -> PodGet, k: string) {
    exists i :: 0 <= i < |entries| && Key(entries[i]) == k && gets(i).Some?
  }

  lemma ReachedSnoc(entries: seq<Assignment>, gets: nat -> PodGet, k: string)
    requires |entries| > 0
    ensures var n := |entries| - 1;
            Reached(entries, gets, k) <==> Reached(entries[..n], gets, k) || (Key(entries[n]) == k && gets(n).Some?)
  {
    var n := |entries| - 1;
    if i :| 0 <= i < n && Key(entries[..n][i]) == k && gets(i).Some? { assert Key(entries[i]) == k; }
    if i :| 0 <= i < |entries| && Key(entries[i]) == k && gets(i).Some? {
      if i < n { assert Key(entries[..n][i]) == k; }
    }
  }

  /** The keys are those of the entries whose pod could be fetched at least once. */
  lemma {:induction false} FetchAllKeys(entries: seq<Assignment>, gets: nat -> PodGet, pf: FloatReader, default: string)
    ensures forall k :: k in FetchAll(entries, gets, pf, default) <==> Reached(entries, gets, k)
  {
    if |entries| > 0 {
      FetchAllKeys(entries[..|entries| - 1], gets, pf, default);
      forall k { ReachedSnoc(entries, gets, k); }
    }
  }

  /** Iteration i is the one that fetches its pod. */
  ghost predicate Fetches(entries: seq<Assignment>, gets: nat -> PodGet, i: int) {
    && 0 <= i < |entries| && gets(i).Some?
    && forall j | 0 <= j < i && Key(entries[j]) == Key(entries[i]) :: gets(j).None?
  }

  /** The annotation that iteration i reads. */
  function TextAt(gets: nat -> PodGet, i: nat): string
    requires gets(i).Some?
  {
    Lookup(gets(i).value, UTILIZATION)
  }

  lemma FetchesSnoc(entries: seq<Assignment>, gets: nat -> PodGet, i: int)
    requires |entries| > 0
    ensures var n := |entries| - 1;
            Fetches(entries, gets, i) <==>
              if i == n then gets(n).Some? && !Reached(entries[..n], gets, Key(entries[n]))
              else Fetches(entries[..n], gets, i)
  {
    var n := |entries| - 1;
    if i == n && gets(n).Some? && !Fetches(entries, gets, n) {
      var j :| 0 <= j < n && Key(entries[j]) == Key(entries[n]) && gets(j).Some?;
      assert Key(entries[..n][j]) == Key(entries[n]);
    }
  }

  /** The range of a pod comes from the annotation of its first successful fetch ... */
  lemma {:induction false} FetchAllValues(entries: seq<Assignment>, gets: nat -> PodGet, pf: FloatReader,
                                          default: string, i: nat)
    requires Fetches(entries, gets, i)
    ensures var ranges := FetchAll(entries, gets, pf, default);
            Key(entries[i]) in ranges && ranges[Key(entries[i])] == PodRange(pf, TextAt(gets, i), default)
  {
    var n := |entries| - 1;
    FetchesSnoc(entries, gets, i);
    FetchAllKeys(entries[..n], gets, pf, default);
    if i < n {
      FetchAllValues(entries[..n], gets, pf, default, i);
      assert entries[..n][i] == entries[i];
    }
  }

  /** ... and there is no range without one. */
  lemma {:induction false} FetchOfKey(entries: seq<Assignment>, gets: nat -> PodGet, k: string) returns (i: nat)
    requires Reached(entries, gets, k)
    ensures Fetches(entries, gets, i) && Key(entries[i]) == k
  {
    var n := |entries| - 1;
    ReachedSnoc(entries, gets, k);
    if Reached(entries[..n], gets, k) {
      i := FetchOfKey(entries[..n], gets, k);
      FetchesSnoc(entries, gets, i);
    } else {
      i := n;
      FetchesSnoc(entries, gets, n);
    }
  }

  ghost predicate AllBounded(ranges: map<string, Range>) {
    forall k | k in ranges :: Bounded(ranges[k])
  }

  /** For every float reader and default, even a malformed one: the stored ranges all lie inside 0-100
      exactly when the fetched annotations are tame. */
  lemma FetchAllBounded(entries: seq<Assignment>, gets: nat -> PodGet, pf: FloatReader, default: string)
    ensures AllBounded(FetchAll(entries, gets, pf, default)) <==>
            forall i | Fetches(entries, gets, i) :: Tame(pf, TextAt(gets, i), default)
  {
    var ranges := FetchAll(entries, gets, pf, default);
    FetchAllKeys(entries, gets, pf, default);
    hide FetchAll, Tame, PodRange, Bounded;
    if AllBounded(ranges) {
      forall i | Fetches(entries, gets, i) ensures Tame(pf, TextAt(gets, i), default) {
        FetchAllValues(entries, gets, pf, default, i);
        PodRangeBounded(pf, TextAt(gets, i), default);
      }
    }
    if forall i | Fetches(entries, gets, i) :: Tame(pf, TextAt(gets, i), default) {
      forall k | k in ranges ensures Bounded(ranges[k]) {
        var i := FetchOfKey(entries, gets, k);
        FetchAllValues(entries, gets, pf, default, i);
        PodRangeBounded(pf, TextAt(gets, i), default);
      }
    }
  }

  class Cache {
    const hostname: string
    const defaultUtil: string
    var state: WorldState

    constructor (hostname: string, defaultUtil: string)
      ensures this.hostname == hostname && this.defaultUtil == defaultUtil && state == EMPTY_WORLD
    {
      this.hostname := hostname;
      this.defaultUtil := defaultUtil;
      this.state := EMPTY_WORLD;
    }

    method Snapshot() returns (s: WorldState)
      ensures s == state
    {
      return state;
    }

    /** Refresh: a failed Load keeps the previous state; a failed Get only loses that range. The
        Gets happen at different times, so gets(i) is what the i-th iteration would receive. */
    method Refresh(load: Loaded, gets: nat -> PodGet, pf: FloatReader)
      modifies this`state
      ensures load.LoadFailed? ==> state == old(state)
      ensures load.Loaded? ==>
        state == WorldState(load.top, FetchAll(Entries(load.top, hostname), gets, pf, defaultUtil))
    {
      hide FetchAll, ParseUtilization, Entries;
      if load.LoadFailed? { return; }
      FetchAllSteps(Entries(load.top, hostname), gets, pf, defaultUtil);
      var entries := Entries(load.top, hostname);
      var podRanges: map<string, Range> := map[];
      for i := 0 to |entries|
        invariant podRanges == FetchAll(entries[..i], gets, pf, defaultUtil)
      {
        var a := entries[i];
        var key := a.podNamespace + "/" + a.podName;
        if key in podRanges { continue; }
        var got := gets(i);
        if got.None? { continue; }
        var r := ParseUtilization(pf, Lookup(got.value, UTILIZATION), defaultUtil);
        if r.None? {
          r := ParseUtilization(pf, "", defaultUtil);
        }
        podRanges := podRanges[key := if r.Some? then r.value else Range(ZERO, ZERO)];
      }
      assert entries[..|entries|] == entries;
      state := WorldState(load.top, podRanges);
    }
  }

  // ---------------------------------------------------------------- the sampler

  /** The values of a row; all load-driven gauges are NaN when the utilization is. */
  datatype Reading = Numbers(v: Values) | NotANumber

  datatype Snapshot = Snapshot(gpu: GPU, hostname: string, pod: string, namespace: string, container: string,
                               reading: Reading)

  datatype Draws = Draws(util: Draw, jitter: Draw)

  function IdleRow(g: GPU, hostname: string): Snapshot {
    Snapshot(g, hostname, "", "", "", Numbers(SampleIdle(g)))
  }

  function RangeOf(s: WorldState, a: Assignment): Range {
    if Key(a) in s.ranges then s.ranges[Key(a)] else Range(ZERO, ZERO)
  }

  function LoadedReading(g: GPU, r: Range, d: Draws): Reading {
    if Bounded(r) then Numbers(LoadedValues(g, Sample(r.low.v, r.high.v, d.util), d.jitter)) else NotANumber
  }

  function Row(s: WorldState, g: GPU, hostname: string, d: Draws): Snapshot {
    match Find(Entries(s.top, hostname), g.id)
    case None => IdleRow(g, hostname)
    case Some(a) => Snapshot(g, hostname, a.podName, a.podNamespace, a.container, LoadedReading(g, RangeOf(s, a), d))
  }

  /** topologySampler: one row per GPU, in order, busy exactly when the topology names a pod. */
  method TopologySampler(c: Cache, gpus: seq<GPU>, hostname: string, rng: nat -> Draws) returns (out: seq<Snapshot>)
    ensures Sampled(c.state, hostname, gpus, rng, out)
  {
    var state := c.Snapshot();
    out := [];
    for i := 0 to |gpus|
      invariant |out| == i
      invariant forall j | 0 <= j < i :: out[j] == Row(c.state, gpus[j], hostname, rng(j))
    {
      var g := gpus[i];
      var found := FindAssignment(state.top, hostname, g.id);
      if found.None? {
        out := out + [IdleRow(g, hostname)];
        continue;
      }
      var a := found.value;
      var r := if Key(a) in state.ranges then state.ranges[Key(a)] else Range(ZERO, ZERO);
      var reading := NotANumber;
      if Bounded(r) {
        var util := Sample(r.low.v, r.high.v, rng(i).util);
        var values := SampleLoaded(g, util, rng(i).jitter);
        reading := Numbers(values);
      }
      out := out + [Snapshot(g, hostname, a.podName, a.podNamespace, a.container, reading)];
    }
  }

  // ---------------------------------------------------------------- readings

  /** The gauges that a busy GPU g shows at utilization u. */
  ghost predicate ShowsLoad(g: GPU, v: Values, u: real) {
    && v.gfxActivity == u && v.packagePower == 50.0 + 2.5 * u && v.clockGfx == 500.0 + 12.0 * u
    && v.voltage == 800.0 + 4.0 * u && v.fanSpeed == 20.0 + 0.6 * u && v.pcieBandwidth == 100.0 + 80.0 * u
    && v.usedVram == u / 100.0 * g.memoryTotal as real * 0.8 && v.totalVram == g.memoryTotal as real
    && 39.0 + 0.55 * u <= v.junctionTemp < 41.0 + 0.55 * u && v.health == 1
  }

  /** The row of g reads some load inside the range, or NaN if the range has a NaN end. */
  ghost predicate ReadsWithin(g: GPU, row: Snapshot, r: Range) {
    if Bounded(r) then row.reading.Numbers? && exists u :: r.low.v <= u <= r.high.v && ShowsLoad(g, row.reading.v, u)
    else row.reading.NotANumber?
  }

  /** A row tells which GPU it is about. If the topology has an entry for the GPU it names the pod
      and container of the first one, and reads a load inside the range that is stored for the pod,
      or none if nothing is stored. Otherwise it names nobody and reads the idle baseline. */
  lemma RowMeans(s: WorldState, g: GPU, hostname: string, d: Draws)
    ensures var row, found := Row(s, g, hostname, d), Find(Entries(s.top, hostname), g.id);
      && row.gpu == g && row.hostname == hostname
      && (found.Some? ==>
            && row.pod == found.value.podName && row.namespace == found.value.podNamespace
            && row.container == found.value.container
            && var key := found.value.podNamespace + "/" + found.value.podName;
               ReadsWithin(g, row, if key in s.ranges then s.ranges[key] else Range(Finite(0.0), Finite(0.0))))
      && (found.None? ==> ReadsIdle(g, row))
  {
    var row, found := Row(s, g, hostname, d), Find(Entries(s.top, hostname), g.id);
    if found.Some? && Bounded(RangeOf(s, found.value)) {
      var r := RangeOf(s, found.value);
      var u := Sample(r.low.v, r.high.v, d.util);
      hide Sample;
      assert ShowsLoad(g, row.reading.v, u);
    }
  }

  ghost predicate ReadsIdle(g: GPU, row: Snapshot) {
    && row.pod == "" && row.namespace == "" && row.container == "" && row.reading.Numbers?
    && row.reading.v == Values(0.0, 35.0, 30.0, 0.0, 0.0, g.memoryTotal as real, 500.0, 800.0, 20.0, 100.0, 1)
  }

  /** Every load of the band is read for some draws, and with it every jitter of the temperature: the
      reading does depend on both. */
  lemma ReadingOnto(s: WorldState, g: GPU, hostname: string, u: real, jitter: Draw)
    requires var found := Find(Entries(s.top, hostname), g.id);
             found.Some? && Key(found.value) in s.ranges && Bounded(s.ranges[Key(found.value)])
             && s.ranges[Key(found.value)].low.v <= u < s.ranges[Key(found.value)].high.v
    ensures exists d :: ReadsExactly(g, Row(s, g, hostname, d), u, jitter)
  {
    var r := s.ranges[Key(Find(Entries(s.top, hostname), g.id).value)];
    SampleOnto(r.low.v, r.high.v, u);
    var x: Draw :| Sample(r.low.v, r.high.v, x) == u;
    assert ReadsExactly(g, Row(s, g, hostname, Draws(x, jitter)), u, jitter);
  }

  ghost predicate ReadsExactly(g: GPU, row: Snapshot, u: real, jitter: Draw) {
    && row.reading.Numbers? && row.reading.v.gfxActivity == u
    && row.reading.v.junctionTemp == 39.0 + 0.55 * u + 2.0 * jitter
  }

  // ---------------------------------------------------------------- conservation

  function Ids(gpus: seq<GPU>): seq<string> {
    seq(|gpus|, i requires 0 <= i < |gpus| => gpus[i].id)
  }

  function EntryIds(entries: seq<Assignment>): seq<string> {
    seq(|entries|, i requires 0 <= i < |entries| => entries[i].gpuId)
  }

  /** The IDs of the rows that carry a pod. */
  function BusyIds(entries: seq<Assignment>, ids: seq<string>): seq<string> {
    if |ids| == 0 then []
    else (if Find(entries, ids[0]).Some? then [ids[0]] else []) + BusyIds(entries, ids[1..])
  }

  lemma {:induction false} BusyIdsMembers(entries: seq<Assignment>, ids: seq<string>)
    ensures forall id :: id in BusyIds(entries, ids) <==> id in ids && id in EntryIds(entries)
    ensures NoDuplicates(ids) ==> NoDuplicates(BusyIds(entries, ids))
  {
    if |ids| > 0 {
      BusyIdsMembers(entries, ids[1..]);
      assert ids == [ids[0]] + ids[1..];
      assert NoDuplicates(ids) ==> ids[0] !in ids[1..];
      var found := Find(entries, ids[0]);
      if found.Some? {
        var i :| 0 <= i < |entries| && entries[i] == found.value;
        assert EntryIds(entries)[i] == ids[0];
      } else {
        assert forall i | 0 <= i < |entries| :: entries[i] in entries && EntryIds(entries)[i] != ids[0];
      }
    }
  }

  lemma {:induction false} DistinctCount(s: seq<string>)
    requires NoDuplicates(s)
    ensures |set x | x in s| == |s|
  {
    if |s| > 0 {
      DistinctCount(s[1..]);
      assert (set x | x in s) == {s[0]} + (set x | x in s[1..]);
      assert s[0] !in s[1..];
    }
  }

  /** How many of the rows carry a pod. */
  function Carrying(rows: seq<Snapshot>): nat {
    if |rows| == 0 then 0 else (if rows[0].pod != "" then 1 else 0) + Carrying(rows[1..])
  }

  /** Rows as the sampler returns them. */
  ghost predicate Sampled(s: WorldState, hostname: string, gpus: seq<GPU>, rng: nat -> Draws, rows: seq<Snapshot>) {
    |rows| == |gpus| && forall i | 0 <= i < |gpus| :: rows[i] == Row(s, gpus[i], hostname, rng(i))
  }

  ghost predicate PodsNamed(entries: seq<Assignment>) {
    forall a | a in entries :: a.podName != ""
  }

  lemma {:induction false} CarryingIsBusy(s: WorldState, hostname: string, gpus: seq<GPU>, rng: nat -> Draws,
                                          rows: seq<Snapshot>)
    requires Sampled(s, hostname, gpus, rng, rows) && PodsNamed(Entries(s.top, hostname))
    ensures Carrying(rows) == |BusyIds(Entries(s.top, hostname), Ids(gpus))|
  {
    if |rows| > 0 {
      assert Ids(gpus)[1..] == Ids(gpus[1..]);
      var later := (i: nat) => rng(i + 1);
      forall i | 0 <= i < |gpus| - 1 ensures rows[1..][i] == Row(s, gpus[1..][i], hostname, later(i)) {
        assert rows[i + 1] == Row(s, gpus[i + 1], hostname, rng(i + 1));
      }
      CarryingIsBusy(s, hostname, gpus[1..], later, rows[1..]);
      assert rows[0] == Row(s, gpus[0], hostname, rng(0));
    }
  }

  /** When every device of the node's topology is one of the node's GPUs and none is claimed
      twice, exactly as many of the sampled rows carry a pod as the topology has entries. */
  lemma RowsConserved(s: WorldState, hostname: string, gpus: seq<GPU>, rng: nat -> Draws, rows: seq<Snapshot>)
    requires Sampled(s, hostname, gpus, rng, rows) && PodsNamed(Entries(s.top, hostname))
    requires OnePerGpu(Entries(s.top, hostname)) && NoDuplicates(Ids(gpus))
    requires forall a | a in Entries(s.top, hostname) :: a.gpuId in Ids(gpus)
    ensures Carrying(rows) == |Entries(s.top, hostname)|
  {
    hide Row;
    var entries := Entries(s.top, hostname);
    var busy, claimed := BusyIds(entries, Ids(gpus)), EntryIds(entries);
    CarryingIsBusy(s, hostname, gpus, rng, rows);
    BusyIdsMembers(entries, Ids(gpus));
    assert forall i | 0 <= i < |claimed| :: entries[i] in entries;
    assert (set x | x in busy) == set x | x in claimed;
    DistinctCount(busy);
    DistinctCount(claimed);
  }

  // ---------------------------------------------------------------- the collector

  const METRICS := ["amd_gpu_junction_temperature", "amd_gpu_package_power", "amd_gpu_gfx_activity",
                    "amd_gpu_used_vram", "amd_gpu_total_vram", "amd_gpu_health", "amd_gpu_clock_gfx",
                    "amd_gpu_voltage", "amd_gpu_fan_speed", "amd_pcie_bandwidth"]

  function Labels(s: Snapshot): seq<string> {
    [s.gpu.id, s.gpu.serialNumber, s.gpu.cardSeries, s.gpu.cardModel, s.hostname,
     s.pod, s.namespace, s.container, s.gpu.partitionMode, s.gpu.partitionId]
  }

  /** The value a row gives to each metric; None stands for NaN. */
  function ValuesOf(s: Snapshot): (vs: seq<Option<real>>)
    ensures |vs| == 10
  {
    match s.reading
    case Numbers(v) =>
      [Some(v.junctionTemp), Some(v.packagePower), Some(v.gfxActivity), Some(v.usedVram), Some(v.totalVram),
       Some(v.health as real), Some(v.clockGfx), Some(v.voltage), Some(v.fanSpeed), Some(v.pcieBandwidth)]
    case NotANumber =>
      [None, None, None, None, Some(s.gpu.memoryTotal as real), Some(1.0), None, None, None, None]
  }

  datatype Metric = Metric(name: string, labels: seq<string>, value: Option<real>)

  const LABEL_NAMES := ["gpu_id", "serial_number", "card_series", "card_model", "hostname",
                        "pod", "namespace", "container", "partition_mode", "partition_id"]

  ghost predicate HasLabel(m: Metric, name: string, value: string) {
    |m.labels| == 10 && exists k :: 0 <= k < 10 && LABEL_NAMES[k] == name && m.labels[k] == value
  }

  /** A sample carries the identity and the attribution of its row under the right label names. */
  ghost predicate LabelsTell(m: Metric, row: Snapshot) {
    && HasLabel(m, "gpu_id", row.gpu.id) && HasLabel(m, "serial_number", row.gpu.serialNumber)
    && HasLabel(m, "card_series", row.gpu.cardSeries) && HasLabel(m, "card_model", row.gpu.cardModel)
    && HasLabel(m, "hostname", row.hostname)
    && HasLabel(m, "pod", row.pod) && HasLabel(m, "namespace", row.namespace)
    && HasLabel(m, "container", row.container)
    && HasLabel(m, "partition_mode", row.gpu.partitionMode) && HasLabel(m, "partition_id", row.gpu.partitionId)
  }

  /** Its value is the row's gauge of that name. */
  ghost predicate ValueTells(m: Metric, row: Snapshot) {
    match row.reading
    case Numbers(v) =>
      && (m.name == "amd_gpu_junction_temperature" ==> m.value == Some(v.junctionTemp))
      && (m.name == "amd_gpu_package_power" ==> m.value == Some(v.packagePower))
      && (m.name == "amd_gpu_gfx_activity" ==> m.value == Some(v.gfxActivity))
      && (m.name == "amd_gpu_used_vram" ==> m.value == Some(v.usedVram))
      && (m.name == "amd_gpu_total_vram" ==> m.value == Some(v.totalVram))
      && (m.name == "amd_gpu_health" ==> m.value == Some(v.health as real))
      && (m.name == "amd_gpu_clock_gfx" ==> m.value == Some(v.clockGfx))
      && (m.name == "amd_gpu_voltage" ==> m.value == Some(v.voltage))
      && (m.name == "amd_gpu_fan_speed" ==> m.value == Some(v.fanSpeed))
      && (m.name == "amd_pcie_bandwidth" ==> m.value == Some(v.pcieBandwidth))
    case NotANumber =>
      if m.name == "amd_gpu_total_vram" then m.value == Some(row.gpu.memoryTotal as real)
      else if m.name == "amd_gpu_health" then m.value == Some(1.0)
      else m.value == None
  }

  /** Ten samples per row, in the order of the descriptors. */
  ghost predicate Collected(rows: seq<Snapshot>, ch: seq<Metric>) {
    && |ch| == 10 * |rows|
    && forall i, k | 0 <= i < |rows| && 0 <= k < 10 ::
         ch[10 * i + k] == Metric(METRICS[k], Labels(rows[i]), ValuesOf(rows[i])[k])
  }

  /** Row i is reported by ten samples, one for each metric. */
  ghost predicate Tells(rows: seq<Snapshot>, ch: seq<Metric>, i: nat, k: nat)
    requires |ch| == 10 * |rows| && i < |rows| && k < 10
  {
    var m := ch[10 * i + k];
    m.name == METRICS[k] && LabelsTell(m, rows[i]) && ValueTells(m, rows[i])
  }

  /** Collect */
  method Collect(rows: seq<Snapshot>) returns (ch: seq<Metric>)
    ensures Collected(rows, ch)
    ensures forall i, k | 0 <= i < |rows| && 0 <= k < 10 :: Tells(rows, ch, i, k)
  {
    hide LabelsTell, ValueTells, Labels, ValuesOf;
    ch := [];
    for i := 0 to |rows|
      invariant |ch| == 10 * i
      invariant forall j, k | 0 <= j < i && 0 <= k < 10 ::
                  ch[10 * j + k] == Metric(METRICS[k], Labels(rows[j]), ValuesOf(rows[j])[k])
    {
      var labels, vs := Labels(rows[i]), ValuesOf(rows[i]);
      ghost var before := ch;
      for k := 0 to 10
        invariant |ch| == 10 * i + k && before <= ch
        invariant forall l | 0 <= l < k :: ch[10 * i + l] == Metric(METRICS[l], labels, vs[l])
      {
        ch := ch + [Metric(METRICS[k], labels, vs[k])];
      }
      forall j, k | 0 <= j < i + 1 && 0 <= k < 10
        ensures ch[10 * j + k] == Metric(METRICS[k], Labels(rows[j]), ValuesOf(rows[j])[k])
      {
        if j < i { assert before[10 * j + k] == ch[10 * j + k]; }
      }
    }
    forall i, k | 0 <= i < |rows| && 0 <= k < 10 ensures Tells(rows, ch, i, k) {
      SampleTells(rows[i], k);
    }
  }

  lemma SampleTells(row: Snapshot, k: nat)
    requires k < 10
    ensures var m := Metric(METRICS[k], Labels(row), ValuesOf(row)[k]); LabelsTell(m, row) && ValueTells(m, row)
  {
    LabelsAreRight(row, METRICS[k], ValuesOf(row)[k]);
    ValuesAreRight(row, k);
  }

  lemma LabelsAreRight(row: Snapshot, name: string, value: Option<real>)
    ensures LabelsTell(Metric(name, Labels(row), value), row)
  {
    var m := Metric(name, Labels(row), value);
    assert LABEL_NAMES[0] == "gpu_id" && m.labels[0] == row.gpu.id;
    assert LABEL_NAMES[1] == "serial_number" && m.labels[1] == row.gpu.serialNumber;
    assert LABEL_NAMES[2] == "card_series" && m.labels[2] == row.gpu.cardSeries;
    assert LABEL_NAMES[3] == "card_model" && m.labels[3] == row.gpu.cardModel;
    assert LABEL_NAMES[4] == "hostname" && m.labels[4] == row.hostname;
    assert LABEL_NAMES[5] == "pod" && m.labels[5] == row.pod;
    assert LABEL_NAMES[6] == "namespace" && m.labels[6] == row.namespace;
    assert LABEL_NAMES[7] == "container" && m.labels[7] == row.container;
    assert LABEL_NAMES[8] == "partition_mode" && m.labels[8] == row.gpu.partitionMode;
    assert LABEL_NAMES[9] == "partition_id" && m.labels[9] == row.gpu.partitionId;
  }

  /** A label name stands in one place, so a sample has one value under it. */
  lemma LabelUnique(m: Metric, name: string, v: string, w: string)
    requires HasLabel(m, name, v) && HasLabel(m, name, w)
    ensures v == w
  {
    var k :| 0 <= k < 10 && LABEL_NAMES[k] == name && m.labels[k] == v;
    var l :| 0 <= l < 10 && LABEL_NAMES[l] == name && m.labels[l] == w;
    if k < l { LabelNamesDistinct(k, l); }
    if l < k { LabelNamesDistinct(l, k); }
  }

  lemma LabelNamesDistinct(k: nat, l: nat)
    requires k < l < 10
    ensures LABEL_NAMES[k] != LABEL_NAMES[l]
  {
    // Length and the first character tell any two of the names apart.
    assert forall m | 0 <= m < 10 :: |LABEL_NAMES[m]| >= 3;
    assert |LABEL_NAMES[k]| != |LABEL_NAMES[l]| || LABEL_NAMES[k][0] != LABEL_NAMES[l][0];
  }

  function NameOf(k: nat): string
    requires k < 10
  {
    METRICS[k]
  }

  lemma ValuesAreRight(row: Snapshot, k: nat)
    requires k < 10
    ensures ValueTells(Metric(METRICS[k], Labels(row), ValuesOf(row)[k]), row)
  {
    assert METRICS[0] == "amd_gpu_junction_temperature" && METRICS[1] == "amd_gpu_package_power";
    assert METRICS[2] == "amd_gpu_gfx_activity" && METRICS[3] == "amd_gpu_used_vram";
    assert METRICS[4] == "amd_gpu_total_vram" && METRICS[5] == "amd_gpu_health";
    assert METRICS[6] == "amd_gpu_clock_gfx" && METRICS[7] == "amd_gpu_voltage";
    assert METRICS[8] == "amd_gpu_fan_speed" && METRICS[9] == "amd_pcie_bandwidth";
    forall j: nat | j < 10 && NameOf(j) == NameOf(k) ensures j == k {
      if j < k { MetricNamesDistinct(j, k); }
      if k < j { MetricNamesDistinct(k, j); }
    }
    assert forall j: nat | j < 10 :: NameOf(j) == METRICS[j];
  }

  /** One scrape of a real node: rows for its enumerated GPUs, collected. Whatever the cache
      holds, no two samples share metric name and label tuple. */
  method Scrape(c: Cache, product: string, memory: int, physical: nat, mode: string, count: int, rng: nat -> Draws)
    returns (ch: seq<Metric>, ghost rows: seq<Snapshot>)
    ensures Sampled(c.state, c.hostname, NodeGpus(c.hostname, product, memory, physical, mode, count), rng, rows)
    ensures Collected(rows, ch) && forall i, k | 0 <= i < |rows| && 0 <= k < 10 :: Tells(rows, ch, i, k)
    ensures |ch| == 10 * physical * EffectiveCount(mode, count)
    ensures forall x, y | 0 <= x < y < |ch| :: ch[x].name != ch[y].name || ch[x].labels != ch[y].labels
  {
    hide Sampled, Collected, LabelsTell, ValueTells, Tells, EffectiveCount, GpuAt;
    var gpus := BuildGPUs(c.hostname, product, memory, physical, mode, count);
    NodeGpusAre(gpus, c.hostname, product, memory, physical, mode, count);
    hide NodeGpus;
    var sampled := TopologySampler(c, gpus, c.hostname, rng);
    rows := sampled;
    ch := Collect(sampled);
    DistinctRows(c.state, c.hostname, product, memory, physical, mode, count, rng, sampled);
    CollectedLength(sampled, ch);
    SeriesDistinct(sampled, ch);
  }

  lemma CollectedLength(rows: seq<Snapshot>, ch: seq<Metric>)
    requires Collected(rows, ch)
    ensures |ch| == 10 * |rows|
  {
  }

  lemma NodeGpusAre(gpus: seq<GPU>, hostname: string, product: string, memory: int, physical: nat, mode: string,
                    count: int)
    requires |gpus| == physical * EffectiveCount(mode, count)
    requires forall i | 0 <= i < |gpus| :: gpus[i] == GpuAt(hostname, product, memory, mode, count, i)
    ensures gpus == NodeGpus(hostname, product, memory, physical, mode, count)
  {
    hide GpuAt, EffectiveCount;
  }

  lemma DistinctRows(s: WorldState, hostname: string, product: string, memory: int, physical: nat, mode: string,
                     count: int, rng: nat -> Draws, rows: seq<Snapshot>)
    requires Sampled(s, hostname, NodeGpus(hostname, product, memory, physical, mode, count), rng, rows)
    ensures |rows| == physical * EffectiveCount(mode, count)
    ensures forall i, j | 0 <= i < j < |rows| :: rows[i].gpu.id != rows[j].gpu.id
  {
    hide EffectiveCount, Row;
    var gpus := NodeGpus(hostname, product, memory, physical, mode, count);
    forall i, j | 0 <= i < j < |rows| ensures rows[i].gpu.id != rows[j].gpu.id {
      RowMeans(s, gpus[i], hostname, rng(i));
      RowMeans(s, gpus[j], hostname, rng(j));
      GpusDistinct(hostname, product, memory, mode, count, i, j);
    }
  }

  lemma SeriesDistinct(rows: seq<Snapshot>, ch: seq<Metric>)
    requires forall i, j | 0 <= i < j < |rows| :: rows[i].gpu.id != rows[j].gpu.id
    requires Collected(rows, ch)
    ensures forall x, y | 0 <= x < y < |ch| :: ch[x].name != ch[y].name || ch[x].labels != ch[y].labels
  {
    hide ValuesOf;
    forall x, y | 0 <= x < y < |ch| ensures ch[x].name != ch[y].name || ch[x].labels != ch[y].labels {
      var i, j := x / 10, y / 10;
      assert x == 10 * i + x % 10 && y == 10 * j + y % 10;
      assert ch[10 * i + x % 10] == Metric(METRICS[x % 10], Labels(rows[i]), ValuesOf(rows[i])[x % 10]);
      assert ch[10 * j + y % 10] == Metric(METRICS[y % 10], Labels(rows[j]), ValuesOf(rows[j])[y % 10]);
      if i < j {
        assert Labels(rows[i])[0] != Labels(rows[j])[0];
      } else {
        MetricNamesDistinct(x % 10, y % 10);
      }
    }
  }

  lemma MetricNamesDistinct(k: nat, l: nat)
    requires k < l < 10
    ensures METRICS[k] != METRICS[l]
  {
    // Length and the eighth character tell any two of the names apart.
    assert forall m | 0 <= m < 10 :: |METRICS[m]| > 12;
    assert |METRICS[k]| != |METRICS[l]| || METRICS[k][8] != METRICS[l][8] || METRICS[k][9] != METRICS[l][9];
  }
}
