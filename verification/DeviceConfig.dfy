/** pkg/controller/deviceconfig_controller.go: the reconciler of DeviceConfig resources. */
module DeviceConfig {
  import opened Text
  import opened Cluster

  type Int32 = n: int | -0x8000_0000 <= n < 0x8000_0000

  /** Go's int32 arithmetic wraps around. */
  function Wrap32(n: int): Int32 {
    (n + 0x8000_0000) % 0x1_0000_0000 - 0x8000_0000
  }

  datatype Partition = Partition(mode: string, count: Int32)

  datatype Spec = Spec(devicePlugin: Option<bool>, pullPolicy: string, metricsExporter: Option<bool>,
                       nodeSelector: map<string, string>, partition: Partition)

  datatype Status = Status(devicePluginReady: bool, metricsExporterReady: bool)

  datatype DeviceConfig = DeviceConfig(uid: string, spec: Spec, status: Status)

  /** The controller's flags. */
  datatype Config = Config(image: string, pullPolicy: string, gpusPerNode: Int32, productName: string,
                           memoryBytes: int, resourceName: string, defaultNodeSelector: map<string, string>,
                           defaultUtilization: string, namespace: string)

  datatype Kind = DaemonSet | Deployment | Service

  datatype ObjectId = ObjectId(kind: Kind, namespace: string, name: string)

  /** The parts of a child's spec that the builders vary, and a service's immutable ClusterIP. */
  datatype ChildSpec =
    | Workload(args: seq<string>, nodeSelector: map<string, string>, image: string, pullPolicy: string)
    | Endpoint(app: string, clusterIP: string)

  /** A controller reference. Kind and name tell whether two of them mean the same object; a
      recreated owner has the same name and a new UID. */
  datatype Owner = Owner(kind: string, name: string, uid: string)

  predicate SameOwner(a: Owner, b: Owner) {
    a.kind == b.kind && a.name == b.name
  }

  /** The reference to a DeviceConfig, which is cluster-scoped. */
  function OwnerOf(name: string, cr: DeviceConfig): Owner {
    Owner("DeviceConfig", name, cr.uid)
  }

  /** A stored child. */
  datatype Object = Object(labels: map<string, string>, spec: ChildSpec, controller: Option<Owner>,
                           numberReady: nat, desiredScheduled: nat)

  type Store = map<ObjectId, Object>

  // ---------------------------------------------------------------- builders

  function NormalizePartition(p: Partition): (string, Int32) {
    if p.mode != "cpx" then ("spx", 1) else if p.count < 1 then ("cpx", 1) else ("cpx", p.count)
  }

  function CommonLabels(app: string): map<string, string> {
    map["app" := app, "app.kubernetes.io/name" := "fake-rocm-gpu-operator",
        "app.kubernetes.io/managed-by" := "deviceconfig-controller", "app.kubernetes.io/part-of" := "sims"]
  }

  function Flag(name: string, value: string): string { "--" + name + "=" + value }

  const SOCKET_DIR := Flag("kubelet-socket-dir", "/var/lib/kubelet/device-plugins")
  const POD_RESOURCES := Flag("pod-resources-socket", "/var/lib/kubelet/pod-resources/kubelet.sock")

  function DevicePluginArgs(cfg: Config, p: Partition): seq<string> {
    ["device-plugin",
     Flag("gpus-per-node", Itoa(Wrap32(cfg.gpusPerNode * NormalizePartition(p).1))),
     Flag("resource-name", cfg.resourceName),
     SOCKET_DIR,
     POD_RESOURCES]
  }

  function ExporterArgs(cfg: Config, p: Partition): seq<string> {
    ["metrics-exporter",
     "--listen=:5000",
     Flag("gpus-per-node", Itoa(cfg.gpusPerNode)),
     Flag("product-name", cfg.productName),
     Flag("memory-bytes", Itoa(cfg.memoryBytes)),
     Flag("topology-namespace", cfg.namespace),
     Flag("partition-mode", NormalizePartition(p).0),
     Flag("partition-count", Itoa(NormalizePartition(p).1)),
     Flag("default-utilization", cfg.defaultUtilization)]
  }

  /** A desired child: what Apply writes into the stored object. */
  datatype Want = Want(labels: map<string, string>, spec: ChildSpec)

  datatype Task = Ensure(id: ObjectId, want: Want) | Remove(id: ObjectId)

  function PluginId(cfg: Config): ObjectId { ObjectId(DaemonSet, cfg.namespace, "amd-device-plugin") }
  function ExporterId(cfg: Config): ObjectId { ObjectId(DaemonSet, cfg.namespace, "amd-device-metrics-exporter") }
  function ServiceId(cfg: Config): ObjectId { ObjectId(Service, cfg.namespace, "amd-device-metrics-exporter") }
  function UpdaterId(cfg: Config): ObjectId { ObjectId(Deployment, cfg.namespace, "amd-status-updater") }
  function LabellerId(cfg: Config): ObjectId { ObjectId(DaemonSet, cfg.namespace, "amd-node-labeller") }

  function Managed(cfg: Config): set<ObjectId> {
    {PluginId(cfg), ExporterId(cfg), ServiceId(cfg), UpdaterId(cfg), LabellerId(cfg)}
  }

  function Selector(cfg: Config, spec: Spec): map<string, string> {
    if |spec.nodeSelector| == 0 then cfg.defaultNodeSelector else spec.nodeSelector
  }

  function Enabled(o: Option<bool>): bool { o.None? || o.value }

  function PluginWant(cfg: Config, spec: Spec): Want {
    Want(CommonLabels("amd-device-plugin"),
         Workload(DevicePluginArgs(cfg, spec.partition), Selector(cfg, spec), cfg.image,
                  if spec.pullPolicy == "" then cfg.pullPolicy else spec.pullPolicy))
  }

  function ExporterWant(cfg: Config, spec: Spec): Want {
    Want(CommonLabels("amd-device-metrics-exporter"),
         Workload(ExporterArgs(cfg, spec.partition), Selector(cfg, spec), cfg.image, cfg.pullPolicy))
  }

  function ServiceWant(cfg: Config): Want {
    Want(CommonLabels("amd-device-metrics-exporter"), Endpoint("amd-device-metrics-exporter", ""))
  }

  function UpdaterWant(cfg: Config): Want {
    Want(CommonLabels("amd-status-updater"),
         Workload(["status-updater", Flag("topology-namespace", cfg.namespace), "--reconcile-interval=5s"],
                  map[], cfg.image, cfg.pullPolicy))
  }

  function LabellerWant(cfg: Config, spec: Spec): Want {
    Want(CommonLabels("amd-node-labeller"),
         Workload(["node-labeller", Flag("product-name", cfg.productName)],
                  Selector(cfg, spec), cfg.image, cfg.pullPolicy))
  }

  /** What a spec asks for, child by child, in the order of Reconcile. */
  function Tasks(cfg: Config, spec: Spec): (ts: seq<Task>)
    ensures |ts| == 5
    ensures forall i | 0 <= i < 5 :: ts[i].id in Managed(cfg)
    ensures forall i, j | 0 <= i < j < 5 :: ts[i].id != ts[j].id
  {
    [if Enabled(spec.devicePlugin) then Ensure(PluginId(cfg), PluginWant(cfg, spec)) else Remove(PluginId(cfg)),
     if Enabled(spec.metricsExporter)
     then Ensure(ExporterId(cfg), ExporterWant(cfg, spec))
     else Remove(ExporterId(cfg)),
     if Enabled(spec.metricsExporter) then Ensure(ServiceId(cfg), ServiceWant(cfg)) else Remove(ServiceId(cfg)),
     Ensure(UpdaterId(cfg), UpdaterWant(cfg)),
     Ensure(LabellerId(cfg), LabellerWant(cfg, spec))]
  }

  // ---------------------------------------------------------------- one child

  /** Which calls fail during one Reconcile, and the ClusterIPs that a create would be given.
      Task i does one Get and at most one write. */
  datatype Oracle = Oracle(crFails: bool, getFails: nat -> bool, write: nat -> Fault, ip: nat -> string,
                           readyFails: nat -> bool, status: Fault)

  ghost predicate Clean(o: Oracle) {
    !o.crFails && forall i | 0 <= i < 5 :: !o.getFails(i) && o.write(i).NoFault?
  }

  /** The mutate function of CreateOrUpdate applied to a stored object. */
  function Mutated(x: Object, want: Want, me: Owner): Object {
    var spec := if want.spec.Endpoint? && x.spec.Endpoint?
                then want.spec.(clusterIP := x.spec.clusterIP)
                else want.spec;
    x.(labels := want.labels, spec := spec, controller := Some(me))
  }

  /** A created object; the API server fills in a service's ClusterIP. */
  function Created(want: Want, me: Owner, ip: string): Object {
    Object(want.labels, if want.spec.Endpoint? then want.spec.(clusterIP := ip) else want.spec, Some(me), 0, 0)
  }

  predicate Foreign(objs: Store, id: ObjectId, me: Owner) {
    id in objs && objs[id].controller.Some? && !SameOwner(objs[id].controller.value, me)
  }

  datatype Outcome = Outcome(objs: Store, ok: bool, writes: nat)

  function Write(objs: Store, next: Store, fault: Fault): Outcome {
    match fault
    case NoFault => Outcome(next, true, 1)
    case Rejected => Outcome(objs, false, 1)
    case Lost => Outcome(next, false, 1)
  }

  function RunTask(objs: Store, t: Task, me: Owner, o: Oracle, i: nat): Outcome {
    match t
    case Ensure(id, want) =>
      if o.getFails(i) then Outcome(objs, false, 0)
      else if id !in objs then Write(objs, objs[id := Created(want, me, o.ip(i))], o.write(i))
      else if Foreign(objs, id, me) then Outcome(objs, false, 0)
      else
        var next := Mutated(objs[id], want, me);
        if next == objs[id] then Outcome(objs, true, 0) else Write(objs, objs[id := next], o.write(i))
    case Remove(id) =>
      if o.write(i).Rejected? then Outcome(objs, false, 0)
      else if id !in objs then Outcome(objs, o.write(i).NoFault?, 0)
      else Write(objs, objs - {id}, o.write(i))
  }

  /** The first n tasks, stopping at the first error. */
  function RunTasks(objs: Store, ts: seq<Task>, n: nat, me: Owner, o: Oracle): Outcome
    requires n <= |ts|
  {
    if n == 0 then Outcome(objs, true, 0)
    else
      var prev := RunTasks(objs, ts, n - 1, me, o);
      if !prev.ok then prev
      else
        var r := RunTask(prev.objs, ts[n - 1], me, o, n - 1);
        r.(writes := prev.writes + r.writes)
  }

  predicate Ready(objs: Store, id: ObjectId) {
    id in objs && objs[id].numberReady > 0 && objs[id].numberReady == objs[id].desiredScheduled
  }

  datatype World = World(objs: Store, crs: map<string, DeviceConfig>)

  datatype Result = Result(world: World, ok: bool, writes: nat)

  function ObservedStatus(cfg: Config, objs: Store, spec: Spec, o: Oracle): Status {
    Status(Enabled(spec.devicePlugin) && !o.readyFails(0) && Ready(objs, PluginId(cfg)),
           Enabled(spec.metricsExporter) && !o.readyFails(1) && Ready(objs, ExporterId(cfg)))
  }

  /** One call of Reconcile. The children end up as the task list leaves them, up to the first
      error; the status tells which of the two optional workloads are enabled and ready. */
  function Reconciled(cfg: Config, w: World, name: string, o: Oracle): Result {
    if o.crFails then Result(w, false, 0)
    else if name !in w.crs then Result(w, true, 0)
    else
      var cr := w.crs[name];
      var r := RunTasks(w.objs, Tasks(cfg, cr.spec), 5, OwnerOf(name, cr), o);
      var crs := if r.ok && !o.status.Rejected?
                 then w.crs[name := cr.(status := ObservedStatus(cfg, r.objs, cr.spec, o))]
                 else w.crs;
      Result(World(r.objs, crs), r.ok, r.writes)
  }

  class Reconciler {
    const cfg: Config
    var objs: Store
    var crs: map<string, DeviceConfig>
    var writes: nat

    constructor (cfg: Config, objs: Store, crs: map<string, DeviceConfig>)
      ensures this.cfg == cfg && this.objs == objs && this.crs == crs && writes == 0
    {
      this.cfg, this.objs, this.crs, this.writes := cfg, objs, crs, 0;
    }

    /** applyDaemonSet, applyDeployment and applyService. */
    method Apply(id: ObjectId, want: Want, me: Owner, o: Oracle, i: nat) returns (ok: bool)
      modifies this`objs, this`writes
      ensures writes >= old(writes)
      ensures Outcome(objs, ok, writes - old(writes)) == RunTask(old(objs), Ensure(id, want), me, o, i)
    {
      if o.getFails(i) { return false; }
      var next := objs;
      if id !in objs {
        next := objs[id := Created(want, me, o.ip(i))];
      } else {
        if objs[id].controller.Some? && !SameOwner(objs[id].controller.value, me) { return false; }
        if Mutated(objs[id], want, me) == objs[id] { return true; }
        next := objs[id := Mutated(objs[id], want, me)];
      }
      writes := writes + 1;
      if !o.write(i).Rejected? { objs := next; }
      return o.write(i).NoFault?;
    }

    method DeleteIfExists(id: ObjectId, me: Owner, o: Oracle, i: nat) returns (ok: bool)
      modifies this`objs, this`writes
      ensures writes >= old(writes)
      ensures Outcome(objs, ok, writes - old(writes)) == RunTask(old(objs), Remove(id), me, o, i)
    {
      if o.write(i).Rejected? { return false; }
      if id !in objs { return o.write(i).NoFault?; }
      writes := writes + 1;
      objs := objs - {id};
      return o.write(i).NoFault?;
    }

    method DsReady(id: ObjectId, fails: bool) returns (ready: bool)
      ensures ready == (!fails && Ready(objs, id))
    {
      if fails || id !in objs { return false; }
      return objs[id].numberReady > 0 && objs[id].numberReady == objs[id].desiredScheduled;
    }

    /** Reconcile. Failing to write the status is not an error. */
    method Reconcile(name: string, o: Oracle) returns (ok: bool)
      modifies this
      ensures writes >= old(writes)
      ensures Result(World(objs, crs), ok, writes - old(writes)) == Reconciled(cfg, World(old(objs), old(crs)), name, o)
    {
      hide RunTask, RunTasks, PluginWant, ExporterWant, ServiceWant, UpdaterWant, LabellerWant;
      hide PluginId, ExporterId, ServiceId, UpdaterId, LabellerId, Ready;
      if o.crFails { return false; }
      if name !in crs { return true; }
      var cr := crs[name];
      var me := OwnerOf(name, cr);
      var status := Status(false, false);
      ghost var ts, s0, w0 := Tasks(cfg, cr.spec), objs, writes;
      NoTasks(s0, ts, me, o);

      if Enabled(cr.spec.devicePlugin) {
        ok := Apply(PluginId(cfg), PluginWant(cfg, cr.spec), me, o, 0);
      } else {
        ok := DeleteIfExists(PluginId(cfg), me, o, 0);
      }
      Extend(s0, ts, 0, me, o, s0, 0, Outcome(objs, ok, writes - w0));
      if !ok { return false; }
      if Enabled(cr.spec.devicePlugin) {
        var ready := DsReady(PluginId(cfg), o.readyFails(0));
        status := status.(devicePluginReady := ready);
      }

      ghost var s1, w1 := objs, writes;
      if Enabled(cr.spec.metricsExporter) {
        ok := Apply(ExporterId(cfg), ExporterWant(cfg, cr.spec), me, o, 1);
      } else {
        ok := DeleteIfExists(ExporterId(cfg), me, o, 1);
      }
      Extend(s0, ts, 1, me, o, s1, w1 - w0, Outcome(objs, ok, writes - w1));
      if !ok { return false; }

      ghost var s2, w2 := objs, writes;
      if Enabled(cr.spec.metricsExporter) {
        ok := Apply(ServiceId(cfg), ServiceWant(cfg), me, o, 2);
      } else {
        ok := DeleteIfExists(ServiceId(cfg), me, o, 2);
      }
      Extend(s0, ts, 2, me, o, s2, w2 - w0, Outcome(objs, ok, writes - w2));
      if !ok { return false; }
      if Enabled(cr.spec.metricsExporter) {
        var ready := DsReady(ExporterId(cfg), o.readyFails(1));
        status := status.(metricsExporterReady := ready);
      }

      ghost var s3, w3 := objs, writes;
      ok := Apply(UpdaterId(cfg), UpdaterWant(cfg), me, o, 3);
      Extend(s0, ts, 3, me, o, s3, w3 - w0, Outcome(objs, ok, writes - w3));
      if !ok { return false; }

      ghost var s4, w4 := objs, writes;
      ok := Apply(LabellerId(cfg), LabellerWant(cfg, cr.spec), me, o, 4);
      Extend(s0, ts, 4, me, o, s4, w4 - w0, Outcome(objs, ok, writes - w4));
      if !ok { return false; }

      if !o.status.Rejected? { crs := crs[name := cr.(status := status)]; }
      assert Ready(objs, PluginId(cfg)) == Ready(s1, PluginId(cfg)) by {
        ReadyStays(s1, ts[1], me, o, 1, ts[0].id);
        ReadyStays(s2, ts[2], me, o, 2, ts[0].id);
        ReadyStays(s3, ts[3], me, o, 3, ts[0].id);
        ReadyStays(s4, ts[4], me, o, 4, ts[0].id);
      }
      assert Ready(objs, ExporterId(cfg)) == Ready(s3, ExporterId(cfg)) by {
        ReadyStays(s3, ts[3], me, o, 3, ts[1].id);
        ReadyStays(s4, ts[4], me, o, 4, ts[1].id);
      }
      return true;
    }
  }

  lemma ReadyStays(objs: Store, t: Task, me: Owner, o: Oracle, i: nat, id: ObjectId)
    requires id != t.id
    ensures Ready(RunTask(objs, t, me, o, i).objs, id) == Ready(objs, id)
  {
  }

  lemma NoTasks(start: Store, ts: seq<Task>, me: Owner, o: Oracle)
    ensures RunTasks(start, ts, 0, me, o) == Outcome(start, true, 0)
  {
  }

  lemma Extend(start: Store, ts: seq<Task>, n: nat, me: Owner, o: Oracle, objs: Store, w: nat, r: Outcome)
    requires n < |ts| == 5 && RunTasks(start, ts, n, me, o) == Outcome(objs, true, w)
    requires r == RunTask(objs, ts[n], me, o, n)
    ensures RunTasks(start, ts, n + 1, me, o) == Outcome(r.objs, r.ok, w + r.writes)
    ensures !r.ok ==> RunTasks(start, ts, 5, me, o) == Outcome(r.objs, r.ok, w + r.writes)
  {
    if !r.ok { StopsAt(start, ts, n + 1, me, o); }
  }

  /** An error is final: the tasks after it are not run. */
  lemma {:induction false} StopsAt(objs: Store, ts: seq<Task>, n: nat, me: Owner, o: Oracle)
    requires |ts| == 5 && n <= 5 && !RunTasks(objs, ts, n, me, o).ok
    ensures RunTasks(objs, ts, 5, me, o) == RunTasks(objs, ts, n, me, o)
    decreases 5 - n
  {
    if n < 5 { StopsAt(objs, ts, n + 1, me, o); }
  }
}
