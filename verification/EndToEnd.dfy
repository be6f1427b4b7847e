/** The reconciler and the pipeline together: what the reconciler configures is what the pipeline
    needs to account for every allocated device. */
module EndToEnd {
  import opened Text
  import opened Cluster
  import opened Exporter
  import opened Utilization
  import SU = StatusUpdater
  import opened Simulate
  import D = DeviceConfig
  import R = Reconciliation
  import P = Pipeline
  import PS = PipelineSafety
  import PC = PipelineConvergence
  import PR = PipelineReadings

  /** A cluster that the reconciler has configured with both workloads enabled. */
  ghost predicate Deployed(cfg: D.Config, me: D.Owner, spec: D.Spec, objs: D.Store) {
    && R.Configured(cfg, me, spec, objs) && D.Enabled(spec.devicePlugin) && D.Enabled(spec.metricsExporter)
    && D.PluginId(cfg) in objs && objs[D.PluginId(cfg)].spec.Workload?
  }

  /** The kubelet of h allocates only devices that its running device plugin advertises. */
  ghost predicate AllocatesAdvertised(c: P.Config, s: P.State, h: string, cfg: D.Config, objs: D.Store)
    requires h in s.kubelet && D.PluginId(cfg) in objs && objs[D.PluginId(cfg)].spec.Workload?
  {
    var advertised := R.PluginDevices(objs[D.PluginId(cfg)].spec.args);
    advertised.Some? && forall id | id in PC.AllocatedIds(c, s, h) :: id in advertised.value
  }

  /** The GPUs that BuildGPUs makes of the exporter's flags. */
  function ExporterGpus(cfg: D.Config, spec: D.Spec, h: string): seq<GPU>
    requires cfg.gpusPerNode >= 0
  {
    NodeGpus(h, cfg.productName, cfg.memoryBytes, cfg.gpusPerNode,
             D.NormalizePartition(spec.partition).0, D.NormalizePartition(spec.partition).1)
  }

  predicate ProductFits(cfg: D.Config, spec: D.Spec) {
    cfg.gpusPerNode >= 0 && R.FitsInt32(cfg.gpusPerNode * D.NormalizePartition(spec.partition).1)
  }

  /** Then the exporter has exactly one row for each of these devices. */
  lemma ExporterCovers(cfg: D.Config, me: D.Owner, spec: D.Spec, objs: D.Store, c: P.Config, s: P.State, h: string)
    requires Deployed(cfg, me, spec, objs) && ProductFits(cfg, spec)
    requires h in s.kubelet && AllocatesAdvertised(c, s, h, cfg, objs)
    ensures var ids := Ids(ExporterGpus(cfg, spec, h));
            NoDuplicates(ids) && forall id | id in PC.AllocatedIds(c, s, h) :: id in ids
  {
    var mode, count := D.NormalizePartition(spec.partition).0, D.NormalizePartition(spec.partition).1;
    R.ConfiguredArgs(cfg, me, spec, objs);
    R.PluginFlag(cfg, spec.partition);
    R.ListsAgree(h, cfg.gpusPerNode, mode, count);
    hide R.Configured, NodeGpus, D.PluginId, D.DevicePluginArgs, R.IntFlag, PC.AllocatedIds;
    IdsOfNode(h, cfg.productName, cfg.memoryBytes, cfg.gpusPerNode, mode, count);
  }

  /** The IDs of a node's GPUs are distinct and do not depend on product and memory. */
  lemma IdsOfNode(h: string, product: string, memory: int, physical: nat, mode: string, count: int)
    ensures NoDuplicates(Ids(NodeGpus(h, product, memory, physical, mode, count)))
    ensures Ids(NodeGpus(h, product, memory, physical, mode, count)) == Ids(NodeGpus(h, "", 0, physical, mode, count))
  {
    hide EffectiveCount;
    var ids := Ids(NodeGpus(h, product, memory, physical, mode, count));
    forall i, j | 0 <= i < j < |ids| ensures ids[i] != ids[j] {
      if DeviceId(i) == DeviceId(j) { DeviceIdInjective(i, j); }
    }
    assert ids == Ids(NodeGpus(h, "", 0, physical, mode, count));
  }

  /** Every allocated device has its row, and no other row carries a pod: on a node of a configured
      cluster whose pipeline has converged, the sampler's rows for the exporter's own GPUs name for
      each allocated device the pod that holds it, and as many rows carry a pod as devices are
      allocated. */
  lemma AllDevicesAttributed(cfg: D.Config, me: D.Owner, spec: D.Spec, objs: D.Store,
                             c: P.Config, s: P.State, h: string, rng: nat -> Draws, rows: seq<Snapshot>)
    requires Deployed(cfg, me, spec, objs) && ProductFits(cfg, spec)
    requires PC.Quiet(c, s) && PC.WorldExact(c, s, h) && h in s.kubelet && PC.NamedHolders(c, s, h)
    requires AllocatesAdvertised(c, s, h, cfg, objs)
    requires Sampled(s.caches[h].world, h, ExporterGpus(cfg, spec, h), rng, rows)
    ensures Carrying(rows) == |PC.AllocatedIds(c, s, h)|
    ensures forall id, key | P.Allocated(c, s, h, id, key) :: HasRow(rows, id, key)
  {
    hide PC.Quiet, PC.WorldExact;
    ExporterCovers(cfg, me, spec, objs, c, s, h);
    hide Deployed, AllocatesAdvertised, ExporterGpus;
    var gpus := ExporterGpus(cfg, spec, h);
    PC.BusyRowsCount(c, s, h, gpus, rng, rows);
    forall id, key | P.Allocated(c, s, h, id, key) ensures HasRow(rows, id, key) {
      AllocatedIn(c, s, h, id, key);
      var i :| 0 <= i < |Ids(gpus)| && Ids(gpus)[i] == id;
      RowFor(c, s, h, gpus, rng, rows, i, key);
    }
  }

  /** The same over runs. In a configured cluster, take any run whose environment rests from t0 on and
      in which every annotator, then the status-updater, then the cache of h complete error-free
      ticks, under the conditions of convergence and with anything else in between: then h's rows
      attribute every allocated device to its holder, and no others carry a pod. */
  lemma ClusterConverges(cfg: D.Config, me: D.Owner, spec: D.Spec, objs: D.Store,
                         c: P.Config, run: seq<P.State>, acts: seq<P.Action>,
                         t0: nat, t1: nat, t2: nat, t3: nat, a: nat, b: nat, h: string, e: nat, f: nat,
                         rng: nat -> Draws, rows: seq<Snapshot>)
    requires Deployed(cfg, me, spec, objs) && ProductFits(cfg, spec)
    requires P.Run(c, run, acts) && t0 <= t1 <= t2 <= t3 < |run| && PC.Undisturbed(acts, t0)
    requires PC.ReportsSane(c, run[t0]) && PC.NoCrossWork(c, run[t0])
    requires PC.AllAnnotatorsTicked(c, run, acts, t0, t1) && PC.AnnotatedStillReported(c, run[t1])
    requires t1 <= a && b <= t2 && PC.UpdaterTick(run, acts, a, b)
    requires h in c.nodes && t2 <= e && f <= t3 && PC.CacheTick(acts, h, e, f)
    requires forall m | f <= m < t3 :: acts[m] != P.CacheRestart(h)
    requires h in run[t3].kubelet && PC.NamedHolders(c, run[t3], h) && AllocatesAdvertised(c, run[t3], h, cfg, objs)
    requires h in run[t3].caches && Sampled(run[t3].caches[h].world, h, ExporterGpus(cfg, spec, h), rng, rows)
    ensures Carrying(rows) == |PC.AllocatedIds(c, run[t3], h)|
    ensures forall id, key | P.Allocated(c, run[t3], h, id, key) :: HasRow(rows, id, key)
  {
    hide PC.ReportsSane, PC.NoCrossWork, PC.WorldExact, PC.ConfigMapExact, PC.UpdateExact, PS.Inv;
    hide Deployed, AllocatesAdvertised, ExporterGpus, Sampled;
    PS.Reachable(c, run, acts, t0);
    PC.AnnotationsConverge(c, run, acts, t0, t1);
    PC.ConfigMapConverges(c, run, acts, t1, t2, a, b);
    PC.CacheConverges(c, run, acts, t2, t3, h, e, f);
    AllDevicesAttributed(cfg, me, spec, objs, c, run[t3], h, rng, rows);
  }

  ghost predicate HasRow(rows: seq<Snapshot>, id: string, key: PodKey) {
    exists i :: 0 <= i < |rows| && rows[i].gpu.id == id && PodKey(rows[i].namespace, rows[i].pod) == key
  }

  lemma AllocatedIn(c: P.Config, s: P.State, h: string, id: string, key: PodKey)
    requires h in s.kubelet && P.Allocated(c, s, h, id, key)
    ensures id in PC.AllocatedIds(c, s, h)
  {
  }

  lemma RowFor(c: P.Config, s: P.State, h: string, gpus: seq<GPU>, rng: nat -> Draws, rows: seq<Snapshot>,
               i: nat, key: PodKey)
    requires PC.Quiet(c, s) && PC.WorldExact(c, s, h) && Sampled(s.caches[h].world, h, gpus, rng, rows)
    requires i < |gpus| && P.Allocated(c, s, h, gpus[i].id, key)
    ensures HasRow(rows, gpus[i].id, key)
  {
    PC.WorldExactRows(c, s, h, gpus[i], rng(i));
    hide PC.Quiet;
    assert rows[i] == Row(s.caches[h].world, gpus[i], h, rng(i));
  }

  // ---------------------------------------------------------------- the emitted series

  /** Ten series speak of device `id`; all of them name the pod, its namespace and its container, and
      the activity among them is a load inside r, or NaN if r has a NaN end. */
  ghost predicate Reported(ch: seq<Metric>, id: string, key: PodKey, container: string, r: Range) {
    exists i: nat :: 10 * i + 10 <= |ch| && Block(ch, i, id, key, container) && ActivityWithin(ch[10 * i + 2], r)
  }

  ghost predicate Block(ch: seq<Metric>, i: nat, id: string, key: PodKey, container: string)
    requires 10 * i + 10 <= |ch|
  {
    forall k: nat | k < 10 :: Attributes(ch, i, k, id, key, container)
  }

  ghost predicate Attributes(ch: seq<Metric>, i: nat, k: nat, id: string, key: PodKey, container: string)
    requires 10 * i + 10 <= |ch| && k < 10
  {
    var m := ch[10 * i + k];
    && HasLabel(m, "gpu_id", id) && HasLabel(m, "pod", key.name) && HasLabel(m, "namespace", key.namespace)
    && HasLabel(m, "container", container)
  }

  ghost predicate ActivityWithin(m: Metric, r: Range) {
    && m.name == "amd_gpu_gfx_activity"
    && if Bounded(r) then m.value.Some? && r.low.v <= m.value.value <= r.high.v else m.value == None
  }

  lemma RowReported(rows: seq<Snapshot>, ch: seq<Metric>, i: nat, g: GPU, r: Range)
    requires |ch| == 10 * |rows| && i < |rows| && rows[i].gpu == g && ReadsWithin(g, rows[i], r)
    requires forall k: nat | k < 10 :: Tells(rows, ch, i, k)
    ensures Reported(ch, g.id, PodKey(rows[i].namespace, rows[i].pod), rows[i].container, r)
  {
    hide HasLabel;
    var key := PodKey(rows[i].namespace, rows[i].pod);
    forall k: nat | k < 10 ensures Attributes(ch, i, k, g.id, key, rows[i].container) {
      assert Tells(rows, ch, i, k);
    }
    assert Tells(rows, ch, i, 2) && METRICS[2] == "amd_gpu_gfx_activity";
    NotOtherMetrics();
    assert ActivityWithin(ch[10 * i + 2], r);
    assert Block(ch, i, g.id, key, rows[i].container);
  }

  lemma NotOtherMetrics()
    ensures "amd_gpu_gfx_activity" != "amd_gpu_total_vram" && "amd_gpu_gfx_activity" != "amd_gpu_health"
  {
    assert "amd_gpu_gfx_activity"[8] == 'g' && "amd_gpu_total_vram"[8] == 't' && "amd_gpu_health"[8] == 'h';
  }

  /** From the kubelet's allocation to the emitted series. In a configured cluster, under the conditions
      of convergence of the readings, a scrape of h's exporter reports every device that h's kubelet
      has allocated: with the pod that holds it, the container, and a load inside the range that the
      pod's annotation asks for. */
  lemma ScrapeConverges(cfg: D.Config, me: D.Owner, spec: D.Spec, objs: D.Store,
                        c: P.Config, run: seq<P.State>, acts: seq<P.Action>,
                        t0: nat, t1: nat, t2: nat, t3: nat, a: nat, b: nat, h: string, e: nat, f: nat,
                        rng: nat -> Draws, rows: seq<Snapshot>, ch: seq<Metric>)
    requires Deployed(cfg, me, spec, objs) && ProductFits(cfg, spec)
    requires P.Run(c, run, acts) && t0 <= t1 <= t2 <= t3 < |run| && PC.Undisturbed(acts, t0)
    requires PC.ReportsSane(c, run[t0]) && PC.NoCrossWork(c, run[t0]) && PC.NamedHolders(c, run[t0], h)
    requires PC.AllAnnotatorsTicked(c, run, acts, t0, t1) && PC.AnnotatedStillReported(c, run[t1])
    requires t1 <= a && b <= t2 && PC.UpdaterTick(run, acts, a, b)
    requires h in c.nodes && t2 <= e && f <= t3 && PC.CacheTick(acts, h, e, f) && PR.Smooth(acts, h, e, t3)
    requires h in run[t3].kubelet && AllocatesAdvertised(c, run[t3], h, cfg, objs)
    requires h in run[t3].caches && Sampled(run[t3].caches[h].world, h, ExporterGpus(cfg, spec, h), rng, rows)
    requires Collected(rows, ch) && forall i: nat, k: nat | i < |rows| && k < 10 :: Tells(rows, ch, i, k)
    ensures forall id, key | P.Allocated(c, run[t3], h, id, key) :: key in run[t3].pods
              && var pod := run[t3].pods[key];
                 Reported(ch, id, key, SU.FirstGpuName(pod.containers),
                          PodRange(c.pf, Lookup(pod.annotations, UTILIZATION), c.defaultUtil))
  {
    hide PC.ReportsSane, PC.NoCrossWork, PC.NamedHolders, PC.UpdaterTick, PC.CacheTick, P.Run, PC.AllAnnotatorsTicked;
    hide PC.AnnotatedStillReported, PR.Smooth, Reported, Row;
    PR.ReadingsConverge(c, run, acts, t0, t1, t2, t3, a, b, h, e, f);
    ExporterCovers(cfg, me, spec, objs, c, run[t3], h);
    hide Deployed, AllocatesAdvertised, ExporterGpus, Tells;
    forall id, key | P.Allocated(c, run[t3], h, id, key)
      ensures key in run[t3].pods
      ensures Reported(ch, id, key, SU.FirstGpuName(run[t3].pods[key].containers),
                       PodRange(c.pf, Lookup(run[t3].pods[key].annotations, UTILIZATION), c.defaultUtil))
    {
      AllocatedIn(c, run[t3], h, id, key);
      var gpus := ExporterGpus(cfg, spec, h);
      var i :| 0 <= i < |Ids(gpus)| && Ids(gpus)[i] == id;
      assert PR.HolderReads(c, run[t3], h, gpus[i], rng(i), key);
      RowMeans(run[t3].caches[h].world, gpus[i], h, rng(i));
      assert rows[i] == Row(run[t3].caches[h].world, gpus[i], h, rng(i));
      var text := Lookup(run[t3].pods[key].annotations, UTILIZATION);
      RowReported(rows, ch, i, gpus[i], PodRange(c.pf, text, c.defaultUtil));
    }
  }
}
