/** What a user of a DeviceConfig gets: which children exist after a successful Reconcile, and what
    they carry. Nothing here is stated through the reconciler's own task list or builders. */
module Children {
  import opened Text
  import opened DeviceConfig
  import opened Reconciliation

  function PluginDS(cfg: Config): ObjectId { ObjectId(DaemonSet, cfg.namespace, "amd-device-plugin") }
  function ExporterDS(cfg: Config): ObjectId { ObjectId(DaemonSet, cfg.namespace, "amd-device-metrics-exporter") }
  function ExporterSvc(cfg: Config): ObjectId { ObjectId(Service, cfg.namespace, "amd-device-metrics-exporter") }
  function UpdaterDeploy(cfg: Config): ObjectId { ObjectId(Deployment, cfg.namespace, "amd-status-updater") }
  function LabellerDS(cfg: Config): ObjectId { ObjectId(DaemonSet, cfg.namespace, "amd-node-labeller") }

  lemma ManagedAre(cfg: Config)
    ensures Managed(cfg) == {PluginDS(cfg), ExporterDS(cfg), ExporterSvc(cfg), UpdaterDeploy(cfg), LabellerDS(cfg)}
  {
  }

  /** After a successful, error-free Reconcile a workload exists exactly if it is not switched off, a
      field left out counting as on; the status-updater and the node-labeller always exist. */
  lemma WhichExist(cfg: Config, w: World, name: string, o: Oracle)
    requires Clean(o) && name in w.crs && Reconciled(cfg, w, name, o).ok
    ensures var spec, objs := w.crs[name].spec, Reconciled(cfg, w, name, o).world.objs;
      && (PluginDS(cfg) in objs <==> spec.devicePlugin != Some(false))
      && (ExporterDS(cfg) in objs <==> spec.metricsExporter != Some(false))
      && (ExporterSvc(cfg) in objs <==> spec.metricsExporter != Some(false))
      && UpdaterDeploy(cfg) in objs && LabellerDS(cfg) in objs
  {
    CleanReconcile(cfg, w, name, o, o);
    ConfiguredExist(cfg, OwnerOf(name, w.crs[name]), w.crs[name].spec, Reconciled(cfg, w, name, o).world.objs);
  }

  lemma ConfiguredExist(cfg: Config, me: Owner, spec: Spec, objs: Store)
    requires Configured(cfg, me, spec, objs)
    ensures PluginDS(cfg) in objs <==> spec.devicePlugin != Some(false)
    ensures ExporterDS(cfg) in objs <==> spec.metricsExporter != Some(false)
    ensures ExporterSvc(cfg) in objs <==> spec.metricsExporter != Some(false)
    ensures UpdaterDeploy(cfg) in objs && LabellerDS(cfg) in objs
  {
    hide PluginWant, ExporterWant, ServiceWant, UpdaterWant, LabellerWant, Matches;
    var ts := Tasks(cfg, spec);
    forall i | 0 <= i < 5 ensures Done(objs, ts[i], me) {}
    assert Done(objs, ts[0], me) && Done(objs, ts[1], me) && Done(objs, ts[2], me) && Done(objs, ts[3], me)
        && Done(objs, ts[4], me);
  }

  // ---------------------------------------------------------------- contents

  predicate Carries(x: Object, name: string, value: string) {
    x.spec.Workload? && FlagValue(x.spec.args, name) == Some(value)
  }

  predicate CarriesInt(x: Object, name: string, n: int) {
    x.spec.Workload? && IntFlag(x.spec.args, name) == Some(n)
  }

  /** A workload that runs this subcommand of the operator's image on the selected nodes, owned and
      labelled as its own. */
  predicate Runs(x: Object, me: Owner, app: string, command: string, image: string, pull: string,
                 nodes: map<string, string>) {
    && x.controller == Some(me) && "app" in x.labels && x.labels["app"] == app
    && x.spec.Workload? && |x.spec.args| > 0 && x.spec.args[0] == command
    && x.spec.image == image && x.spec.pullPolicy == pull && x.spec.nodeSelector == nodes
  }

  /** The nodes that a spec selects: its own selector, or the configured one if it has none. */
  ghost predicate Selects(cfg: Config, spec: Spec, nodes: map<string, string>) {
    if spec.nodeSelector != map[] then nodes == spec.nodeSelector else nodes == cfg.defaultNodeSelector
  }

  /** What the existing children carry. */
  lemma WhatTheyCarry(cfg: Config, me: Owner, spec: Spec, objs: Store, nodes: map<string, string>)
    requires Configured(cfg, me, spec, objs) && Selects(cfg, spec, nodes)
    ensures PluginDS(cfg) in objs ==>
      var x, pull := objs[PluginDS(cfg)], if spec.pullPolicy != "" then spec.pullPolicy else cfg.pullPolicy;
      && Runs(x, me, "amd-device-plugin", "device-plugin", cfg.image, pull, nodes)
      && Carries(x, "resource-name", cfg.resourceName)
      && Carries(x, "kubelet-socket-dir", "/var/lib/kubelet/device-plugins")
      && Carries(x, "pod-resources-socket", "/var/lib/kubelet/pod-resources/kubelet.sock")
    ensures ExporterDS(cfg) in objs ==>
      var x := objs[ExporterDS(cfg)];
      && Runs(x, me, "amd-device-metrics-exporter", "metrics-exporter", cfg.image, cfg.pullPolicy, nodes)
      && CarriesInt(x, "gpus-per-node", cfg.gpusPerNode)
      && (FitsInt64(cfg.memoryBytes) ==> CarriesInt(x, "memory-bytes", cfg.memoryBytes))
      && Carries(x, "product-name", cfg.productName) && Carries(x, "topology-namespace", cfg.namespace)
      && Carries(x, "default-utilization", cfg.defaultUtilization) && "--listen=:5000" in x.spec.args
    ensures ExporterSvc(cfg) in objs ==>
      var x := objs[ExporterSvc(cfg)];
      x.controller == Some(me) && x.spec.Endpoint? && x.spec.app == "amd-device-metrics-exporter"
    ensures UpdaterDeploy(cfg) in objs && LabellerDS(cfg) in objs
    ensures var x := objs[UpdaterDeploy(cfg)];
      && Runs(x, me, "amd-status-updater", "status-updater", cfg.image, cfg.pullPolicy, map[])
      && Carries(x, "topology-namespace", cfg.namespace) && "--reconcile-interval=5s" in x.spec.args
    ensures var x := objs[LabellerDS(cfg)];
      && Runs(x, me, "amd-node-labeller", "node-labeller", cfg.image, cfg.pullPolicy, nodes)
      && Carries(x, "product-name", cfg.productName)
  {
    ConfiguredExist(cfg, me, spec, objs);
    assert Selector(cfg, spec) == nodes;
    if PluginDS(cfg) in objs { PluginCarries(cfg, me, spec, objs); }
    ExporterCarries(cfg, me, spec, objs);
    OthersCarry(cfg, me, spec, objs);
  }

  lemma PluginCarries(cfg: Config, me: Owner, spec: Spec, objs: Store)
    requires Configured(cfg, me, spec, objs) && PluginDS(cfg) in objs
    ensures var x, pull := objs[PluginDS(cfg)], if spec.pullPolicy != "" then spec.pullPolicy else cfg.pullPolicy;
      && Runs(x, me, "amd-device-plugin", "device-plugin", cfg.image, pull, Selector(cfg, spec))
      && Carries(x, "resource-name", cfg.resourceName)
      && Carries(x, "kubelet-socket-dir", "/var/lib/kubelet/device-plugins")
      && Carries(x, "pod-resources-socket", "/var/lib/kubelet/pod-resources/kubelet.sock")
  {
    PluginArgFlags(cfg, spec.partition);
    hide FlagValue;
    var ts := Tasks(cfg, spec);
    assert Done(objs, ts[0], me);
  }

  lemma PluginArgFlags(cfg: Config, p: Partition)
    ensures var args := DevicePluginArgs(cfg, p);
      && FlagValue(args, "resource-name") == Some(cfg.resourceName)
      && FlagValue(args, "kubelet-socket-dir") == Some("/var/lib/kubelet/device-plugins")
      && FlagValue(args, "pod-resources-socket") == Some("/var/lib/kubelet/pod-resources/kubelet.sock")
  {
    var args := DevicePluginArgs(cfg, p);
    assert SOCKET_DIR[2] == 'k' && POD_RESOURCES[2] == 'p';
    NoPrefix(SOCKET_DIR, Flag("resource-name", ""), 2);
    NoPrefix(POD_RESOURCES, Flag("resource-name", ""), 2);
    NoPrefix(POD_RESOURCES, Flag("kubelet-socket-dir", ""), 2);
    assert args[2] == Flag("resource-name", cfg.resourceName) && args[3] == SOCKET_DIR && args[4] == POD_RESOURCES;
    FlagAt(args, "resource-name", cfg.resourceName, 2);
    FlagAt(args, "kubelet-socket-dir", "/var/lib/kubelet/device-plugins", 3);
    FlagAt(args, "pod-resources-socket", "/var/lib/kubelet/pod-resources/kubelet.sock", 4);
  }

  lemma ExporterCarries(cfg: Config, me: Owner, spec: Spec, objs: Store)
    requires Configured(cfg, me, spec, objs)
    ensures ExporterDS(cfg) in objs ==>
      var x := objs[ExporterDS(cfg)];
      && Runs(x, me, "amd-device-metrics-exporter", "metrics-exporter", cfg.image, cfg.pullPolicy, Selector(cfg, spec))
      && CarriesInt(x, "gpus-per-node", cfg.gpusPerNode)
      && (FitsInt64(cfg.memoryBytes) ==> CarriesInt(x, "memory-bytes", cfg.memoryBytes))
      && Carries(x, "product-name", cfg.productName) && Carries(x, "topology-namespace", cfg.namespace)
      && Carries(x, "default-utilization", cfg.defaultUtilization) && "--listen=:5000" in x.spec.args
    ensures ExporterSvc(cfg) in objs ==>
      var x := objs[ExporterSvc(cfg)];
      x.controller == Some(me) && x.spec.Endpoint? && x.spec.app == "amd-device-metrics-exporter"
  {
    assert ExporterArgs(cfg, spec.partition)[1] == "--listen=:5000";
    ExporterFlags(cfg, spec.partition);
    ExporterArgFlags(cfg, spec.partition);
    hide FlagValue, IntFlag;
    var ts := Tasks(cfg, spec);
    assert Done(objs, ts[1], me) && Done(objs, ts[2], me);
  }

  lemma ExporterArgFlags(cfg: Config, p: Partition)
    ensures var args := ExporterArgs(cfg, p);
      && (FitsInt64(cfg.memoryBytes) ==> IntFlag(args, "memory-bytes") == Some(cfg.memoryBytes))
      && FlagValue(args, "product-name") == Some(cfg.productName)
      && FlagValue(args, "topology-namespace") == Some(cfg.namespace)
      && FlagValue(args, "default-utilization") == Some(cfg.defaultUtilization)
  {
    ProductFlag(cfg, p);
    MemoryFlag(cfg, p);
    TopologyFlag(cfg, p);
    FlagAt(ExporterArgs(cfg, p), "default-utilization", cfg.defaultUtilization, 8);
  }

  lemma ProductFlag(cfg: Config, p: Partition)
    ensures FlagValue(ExporterArgs(cfg, p), "product-name") == Some(cfg.productName)
  {
    hide FlagValue;
    var args := ExporterArgs(cfg, p);
    OtherFlag("product-name", "memory-bytes", Itoa(cfg.memoryBytes), 0);
    OtherFlag("product-name", "topology-namespace", cfg.namespace, 0);
    OtherFlag("product-name", "partition-mode", NormalizePartition(p).0, 1);
    OtherFlag("product-name", "partition-count", Itoa(NormalizePartition(p).1), 1);
    OtherFlag("product-name", "default-utilization", cfg.defaultUtilization, 0);
    hide Flag, HasPrefix;
    FlagAt(args, "product-name", cfg.productName, 3);
  }

  /** A flag whose name differs at character k is not this one. */
  lemma OtherFlag(name: string, other: string, value: string, k: nat)
    requires k < |name| && k < |other| && name[k] != other[k]
    ensures !HasPrefix(Flag(other, value), Flag(name, ""))
  {
    assert Flag(other, value)[k + 2] == other[k] && Flag(name, "")[k + 2] == name[k];
    NoPrefix(Flag(other, value), Flag(name, ""), k + 2);
  }

  lemma MemoryFlag(cfg: Config, p: Partition)
    ensures FitsInt64(cfg.memoryBytes) ==> IntFlag(ExporterArgs(cfg, p), "memory-bytes") == Some(cfg.memoryBytes)
  {
    hide FlagValue;
    var args, flag := ExporterArgs(cfg, p), Flag("memory-bytes", "");
    forall j | 4 < j < 9 ensures !HasPrefix(args[j], flag) { NoPrefix(args[j], flag, 2); }
    FlagAt(args, "memory-bytes", Itoa(cfg.memoryBytes), 4);
    AtoiItoa(cfg.memoryBytes);
  }

  lemma TopologyFlag(cfg: Config, p: Partition)
    ensures FlagValue(ExporterArgs(cfg, p), "topology-namespace") == Some(cfg.namespace)
  {
    hide FlagValue;
    var args, flag := ExporterArgs(cfg, p), Flag("topology-namespace", "");
    forall j | 5 < j < 9 ensures !HasPrefix(args[j], flag) { NoPrefix(args[j], flag, 2); }
    FlagAt(args, "topology-namespace", cfg.namespace, 5);
  }

  lemma OthersCarry(cfg: Config, me: Owner, spec: Spec, objs: Store)
    requires Configured(cfg, me, spec, objs) && UpdaterDeploy(cfg) in objs && LabellerDS(cfg) in objs
    ensures var x := objs[UpdaterDeploy(cfg)];
      && Runs(x, me, "amd-status-updater", "status-updater", cfg.image, cfg.pullPolicy, map[])
      && Carries(x, "topology-namespace", cfg.namespace) && "--reconcile-interval=5s" in x.spec.args
    ensures var x := objs[LabellerDS(cfg)];
      && Runs(x, me, "amd-node-labeller", "node-labeller", cfg.image, cfg.pullPolicy, Selector(cfg, spec))
      && Carries(x, "product-name", cfg.productName)
  {
    var updater := ["status-updater", Flag("topology-namespace", cfg.namespace), "--reconcile-interval=5s"];
    NoPrefix(updater[2], Flag("topology-namespace", ""), 2);
    FlagAt(updater, "topology-namespace", cfg.namespace, 1);
    FlagAt(["node-labeller", Flag("product-name", cfg.productName)], "product-name", cfg.productName, 1);
    hide FlagValue;
    var ts := Tasks(cfg, spec);
    assert Done(objs, ts[3], me) && Done(objs, ts[4], me);
  }

  // ---------------------------------------------------------------- partitions

  /** The partitions per GPU that a spec asks for: none but under cpx, and there at least one. */
  function Asked(p: Partition): (n: int)
    ensures n >= 1
  {
    if p.mode == "cpx" && p.count >= 1 then p.count else 1
  }

  /** GPUs per node times partitions asked for. */
  function Logical(cfg: Config, p: Partition): (n: int)
    ensures cfg.gpusPerNode >= 0 ==> n >= 0
  {
    cfg.gpusPerNode * Asked(p)
  }

  /** The device plugin advertises gpu-0, gpu-1, ... up to GPUs per node times partitions asked for,
      if that is an int32, and the exporter is told the same mode and number. */
  lemma PartitionsAsked(cfg: Config, me: Owner, spec: Spec, objs: Store)
    requires Configured(cfg, me, spec, objs)
    requires spec.devicePlugin != Some(false) && spec.metricsExporter != Some(false)
    ensures PluginDS(cfg) in objs && objs[PluginDS(cfg)].spec.Workload? && ExporterDS(cfg) in objs
    ensures cfg.gpusPerNode >= 0 && FitsInt32(Logical(cfg, spec.partition)) ==>
      PluginDevices(objs[PluginDS(cfg)].spec.args) == Some(Simulate.DeviceIds(Logical(cfg, spec.partition)))
    ensures Carries(objs[ExporterDS(cfg)], "partition-mode", if spec.partition.mode == "cpx" then "cpx" else "spx")
    ensures CarriesInt(objs[ExporterDS(cfg)], "partition-count", Asked(spec.partition))
  {
    ConfiguredArgs(cfg, me, spec, objs);
    hide Configured;
    ArgsAsked(cfg, spec.partition);
    hide DevicePluginArgs, ExporterArgs, IntFlag, FlagValue, PluginDevices;
  }

  lemma ArgsAsked(cfg: Config, p: Partition)
    ensures cfg.gpusPerNode >= 0 && FitsInt32(Logical(cfg, p)) ==>
      PluginDevices(DevicePluginArgs(cfg, p)) == Some(Simulate.DeviceIds(Logical(cfg, p)))
    ensures FlagValue(ExporterArgs(cfg, p), "partition-mode") == Some(if p.mode == "cpx" then "cpx" else "spx")
    ensures IntFlag(ExporterArgs(cfg, p), "partition-count") == Some(Asked(p))
  {
    PluginFlag(cfg, p);
    ExporterFlags(cfg, p);
    hide DevicePluginArgs, ExporterArgs, IntFlag, FlagValue;
    WrapsAround(Logical(cfg, p));
    assert NormalizePartition(p).1 == Asked(p);
    hide Wrap32;
  }

  /** Arithmetic on int32 is arithmetic modulo 2^32, and exact where the result fits. */
  lemma WrapsAround(n: int)
    ensures exists k :: Wrap32(n) == n + k * 0x1_0000_0000
    ensures FitsInt32(n) ==> Wrap32(n) == n
  {
    var k := (n + 0x8000_0000) / 0x1_0000_0000;
    assert Wrap32(n) == n + (-k) * 0x1_0000_0000;
  }

  // ---------------------------------------------------------------- order and status

  /** The order in which Reconcile deals with the children. */
  function InOrder(cfg: Config): seq<ObjectId> {
    [PluginDS(cfg), ExporterDS(cfg), ExporterSvc(cfg), UpdaterDeploy(cfg), LabellerDS(cfg)]
  }

  /** An error at one child - here because a stranger owns it - leaves all later children as they
      were. */
  lemma ErrorStopsTheRest(cfg: Config, w: World, name: string, o: Oracle, i: nat, j: nat)
    requires name in w.crs && !o.crFails && i <= j < 5 && Foreign(w.objs, InOrder(cfg)[i], OwnerOf(name, w.crs[name]))
    requires i == 0 ==> w.crs[name].spec.devicePlugin != Some(false)
    requires i == 1 || i == 2 ==> w.crs[name].spec.metricsExporter != Some(false)
    ensures !Reconciled(cfg, w, name, o).ok
    ensures SameAt(w.objs, Reconciled(cfg, w, name, o).world.objs, InOrder(cfg)[j])
  {
    var ts, me := Tasks(cfg, w.crs[name].spec), OwnerOf(name, w.crs[name]);
    assert ts[i].Ensure? && DistinctIds(ts) && ts[i].id == InOrder(cfg)[i] && ts[j].id == InOrder(cfg)[j];
    hide Tasks, InOrder;
    TasksFrame(w.objs, ts, i, me, o, ts[i].id);
    var prev := RunTasks(w.objs, ts, i, me, o);
    TaskEffect(prev.objs, ts[i], me, o, i);
    assert Foreign(prev.objs, ts[i].id, me);
    StopsAt(w.objs, ts, i + 1, me, o);
    if i < j { TasksFrame(w.objs, ts, i + 1, me, o, ts[j].id); }
  }

  /** A DeviceConfig that is gone needs no work and is no error; one that cannot be read is an error
      and changes nothing. */
  lemma NothingToDo(cfg: Config, w: World, name: string, o: Oracle)
    requires o.crFails || name !in w.crs
    ensures Reconciled(cfg, w, name, o) == Result(w, !o.crFails, 0)
  {
  }

  predicate AllReady(objs: Store, id: ObjectId) {
    id in objs && objs[id].numberReady >= 1 && objs[id].numberReady == objs[id].desiredScheduled
  }

  /** The status written after a successful, error-free Reconcile: a workload is ready if it is not
      switched off and all of its at least one desired pods are. */
  lemma WrittenStatus(cfg: Config, w: World, name: string, o: Oracle)
    requires Clean(o) && name in w.crs && Reconciled(cfg, w, name, o).ok
    requires !o.status.Rejected? && !o.readyFails(0) && !o.readyFails(1)
    ensures var spec, after := w.crs[name].spec, Reconciled(cfg, w, name, o).world;
      && name in after.crs && after.crs[name].spec == spec
      && var status := after.crs[name].status;
      && (status.devicePluginReady <==> spec.devicePlugin != Some(false) && AllReady(after.objs, PluginDS(cfg)))
      && (status.metricsExporterReady <==> spec.metricsExporter != Some(false) && AllReady(after.objs, ExporterDS(cfg)))
  {
  }

  /** A workload whose readiness cannot be read counts as not ready; a status that is not accepted is
      not stored, which is no error; and after an error no status is written. */
  lemma StatusFaults(cfg: Config, w: World, name: string, o: Oracle)
    requires name in w.crs && !o.crFails
    ensures var r := Reconciled(cfg, w, name, o);
      && r.world.crs.Keys == w.crs.Keys && (forall n | n in w.crs && n != name :: r.world.crs[n] == w.crs[n])
      && (!r.ok || o.status.Rejected? ==> r.world.crs == w.crs)
      && (r.ok && !o.status.Rejected? && o.readyFails(0) ==> !r.world.crs[name].status.devicePluginReady)
      && (r.ok && !o.status.Rejected? && o.readyFails(1) ==> !r.world.crs[name].status.metricsExporterReady)
      && (r.ok <==> RunTasks(w.objs, Tasks(cfg, w.crs[name].spec), 5, OwnerOf(name, w.crs[name]), o).ok)
  {
    hide Tasks, RunTasks, Ready;
  }
}
