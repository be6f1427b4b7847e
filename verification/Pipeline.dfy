/** The attribution pipeline as one state machine. Every read and every write of a component is
    a step of its own, so a component may act on data that has changed since it read it. */
module Pipeline {
  import opened Text
  import opened Cluster
  import opened Topology
  import opened Annotator
  import opened StatusUpdater
  import opened Exporter
  import opened Utilization
  import opened Simulate

  datatype Config = Config(nodes: set<string>, resource: string, defaultUtil: string, pf: FloatReader)

  // ---------------------------------------------------------------- state

  /** An annotator between two API calls: the pods still to visit, and whether the Get of the
      first one has found it in need of a patch. The tick is over when the queue is empty. */
  datatype Annotating = Annotating(queue: seq<Work>, gotten: bool)

  /** The status-updater between two API calls. `rev` is the ConfigMap's revision at the Get. */
  datatype Updating = Idle | Have(top: Topology) | Writing(top: Topology, rev: nat, existed: bool)

  datatype Refreshing = Resting | Fetching(rev: nat, top: Topology, next: nat, ranges: map<string, Range>)

  /** An exporter's cache; `loaded` is the revision that its world comes from. */
  datatype CacheState = CacheState(world: WorldState, loaded: Option<nat>, refresh: Refreshing)

  /** A device in the hands of a pod, as some kubelet reported it. */
  datatype Holding = Holding(node: string, gpu: string, key: PodKey)

  datatype Binding = Binding(key: PodKey, node: string)

  datatype State = State(
    kubelet: map<string, seq<PodResources>>,
    pods: map<PodKey, Pod>,
    cm: Option<ConfigMap>,
    annotators: map<string, Annotating>,
    updater: Updating,
    caches: map<string, CacheState>,
    // History: every allocation and pod binding so far, and what Load would have returned at
    // each revision of the ConfigMap.
    allocs: set<Holding>,
    bound: set<Binding>,
    log: seq<Loaded>)

  /** An ID that the device plugin advertises. */
  ghost predicate Advertised(id: string) {
    exists i: nat :: id == DeviceId(i)
  }

  ghost predicate Holds(c: Config, report: seq<PodResources>, id: string, key: PodKey) {
    exists p :: p in report && p.key == key && id in HeldIds(p, c.resource)
  }

  /** The kubelet of node n has GPU g allocated to the pod. */
  ghost predicate Allocated(c: Config, s: State, n: string, g: string, key: PodKey) {
    n in s.kubelet && Holds(c, s.kubelet[n], g, key)
  }

  ghost function Holdings(c: Config, n: string, report: seq<PodResources>): set<Holding> {
    set p, id | p in report && id in HeldIds(p, c.resource) :: Holding(n, id, p.key)
  }

  function ListedIn(pods: map<PodKey, Pod>, order: seq<PodKey>): seq<Listed>
    requires forall k | k in order :: k in pods
  {
    seq(|order|, i requires 0 <= i < |order| => Listed(order[i], pods[order[i]]))
  }

  ghost predicate Init(c: Config, s: State) {
    && "" !in c.nodes
    && s.kubelet == (map n | n in c.nodes :: [])
    && s.pods == map[]
    && View(s.cm) in {Loaded(map[]), LoadFailed}
    && s.annotators == (map n | n in c.nodes :: Annotating([], false))
    && s.updater == Idle
    && s.caches == (map n | n in c.nodes :: CacheState(EMPTY_WORLD, None, Resting))
    && s.allocs == {} && s.bound == {} && s.log == [View(s.cm)]
  }

  // ---------------------------------------------------------------- steps

  datatype Action =
    // the world outside the pipeline
    | Allocate(node: string, report: seq<PodResources>)
    | PutPod(key: PodKey, pod: Pod)
    | RemovePod(key: PodKey)
    | PutConfigMap(cm: Option<ConfigMap>)
    // the annotator of a node; a failing List is a Stutter
    | AnnotatorList(node: string)
    | AnnotatorGet(node: string, ok: bool)
    | AnnotatorPatch(node: string, fault: Fault)
    | AnnotatorRestart(node: string)
    // the status-updater; a failing List is a Stutter
    | UpdaterList(order: seq<PodKey>)
    | UpdaterGet(ok: bool)
    | UpdaterWrite(fault: Fault)
    | UpdaterRestart
    // the exporter's cache of a node; a failing Load is a Stutter
    | CacheLoad(node: string)
    | CacheGet(node: string, ok: bool)
    | CachePublish(node: string)
    | CacheRestart(node: string)
    | Stutter

  predicate Environment(a: Action) {
    a.Allocate? || a.PutPod? || a.RemovePod? || a.PutConfigMap?
  }

  /** Kubelets hand out advertised devices only, nobody but the annotator writes its annotation,
      and nobody but the status-updater writes a topology. */
  ghost predicate Enabled(c: Config, s: State, a: Action) {
    match a
    case Allocate(n, report) =>
      n in s.kubelet && forall p, id | p in report && id in HeldIds(p, c.resource) :: Advertised(id)
    case PutPod(key, pod) =>
      AnnotationOf(pod) == if key in s.pods then AnnotationOf(s.pods[key]) else ""
    case RemovePod(key) => true
    case PutConfigMap(cm) => View(cm) in {Loaded(map[]), LoadFailed}
    case AnnotatorList(n) => n in s.annotators && n in s.kubelet && s.annotators[n].queue == []
    case AnnotatorGet(n, _) => n in s.annotators && s.annotators[n].queue != [] && !s.annotators[n].gotten
    case AnnotatorPatch(n, _) => n in s.annotators && s.annotators[n].queue != [] && s.annotators[n].gotten
    case AnnotatorRestart(n) => n in s.annotators
    case UpdaterList(order) => s.updater.Idle? && NoDuplicates(order) && forall k :: k in order <==> k in s.pods
    case UpdaterGet(_) => s.updater.Have?
    case UpdaterWrite(_) => s.updater.Writing?
    case UpdaterRestart => true
    case CacheLoad(n) => n in s.caches && s.caches[n].refresh.Resting?
    case CacheGet(n, _) =>
      && n in s.caches && s.caches[n].refresh.Fetching?
      && s.caches[n].refresh.next < |Entries(s.caches[n].refresh.top, n)|
    case CachePublish(n) =>
      && n in s.caches && s.caches[n].refresh.Fetching?
      && s.caches[n].refresh.next == |Entries(s.caches[n].refresh.top, n)|
    case CacheRestart(n) => n in s.caches
    case Stutter => true
  }

  function PopWork(t: Annotating): Annotating
    requires t.queue != []
  {
    Annotating(t.queue[1..], false)
  }

  /** The Get of annotatePod decides whether a Patch follows. */
  function AfterGet(s: State, n: string, ok: bool): State
    requires n in s.annotators && s.annotators[n].queue != []
  {
    var t := s.annotators[n];
    s.(annotators := s.annotators[n :=
      if ok && NeedsPatch(s.pods, t.queue[0]) then t.(gotten := true) else PopWork(t)])
  }

  /** The Patch, which does not look at the annotation again. */
  function AfterPatch(s: State, n: string, fault: Fault): State
    requires n in s.annotators && s.annotators[n].queue != []
  {
    var t := s.annotators[n];
    var w := t.queue[0];
    s.(annotators := s.annotators[n := PopWork(t)],
       pods := if fault.Rejected? || w.key !in s.pods then s.pods
               else s.pods[w.key := Annotated(s.pods[w.key], w.value)])
  }

  /** The Get of Save, which ends the tick if the body is already stored. */
  function AfterUpdaterGet(s: State, ok: bool): State
    requires s.updater.Have?
  {
    var top := s.updater.top;
    s.(updater := if !ok || Stored(s.cm, top) then Idle else Writing(top, |s.log|, s.cm.Some?))
  }

  /** Whether the write of Save still meets the object that its Get saw. */
  predicate Conflict(s: State)
    requires s.updater.Writing?
  {
    if s.updater.existed then s.cm.None? || s.updater.rev != |s.log| else s.cm.Some?
  }

  function AfterWrite(s: State, fault: Fault): State
    requires s.updater.Writing?
  {
    var top := s.updater.top;
    if Conflict(s) || fault.Rejected? then s.(updater := Idle)
    else
      s.(updater := Idle, cm := Some(Written(s.cm, top)), log := s.log + [Loaded(top)])
  }

  function PodGetOf(s: State, a: Assignment, ok: bool): PodGet {
    var key := PodKey(a.podNamespace, a.podName);
    if ok && key in s.pods then Some(s.pods[key].annotations) else None
  }

  function AfterLoad(s: State, n: string): State
    requires n in s.caches && |s.log| > 0
  {
    match View(s.cm)
    case LoadFailed => s
    case Loaded(top) =>
      s.(caches := s.caches[n := s.caches[n].(refresh := Fetching(|s.log| - 1, top, 0, map[]))])
  }

  function AfterCacheGet(c: Config, s: State, n: string, ok: bool): State
    requires n in s.caches && s.caches[n].refresh.Fetching?
    requires s.caches[n].refresh.next < |Entries(s.caches[n].refresh.top, n)|
  {
    var f := s.caches[n].refresh;
    var a := Entries(f.top, n)[f.next];
    var f' := f.(next := f.next + 1, ranges := FetchOne(f.ranges, a, PodGetOf(s, a, ok), c.pf, c.defaultUtil));
    s.(caches := s.caches[n := s.caches[n].(refresh := f')])
  }

  function AfterPublish(s: State, n: string): State
    requires n in s.caches && s.caches[n].refresh.Fetching?
  {
    var f := s.caches[n].refresh;
    s.(caches := s.caches[n := CacheState(WorldState(f.top, f.ranges), Some(f.rev), Resting)])
  }

  ghost function Step(c: Config, s: State, a: Action): State
    requires Enabled(c, s, a) && |s.log| > 0
  {
    match a
    case Allocate(n, report) =>
      s.(kubelet := s.kubelet[n := report], allocs := s.allocs + Holdings(c, n, report))
    case PutPod(key, pod) =>
      s.(pods := s.pods[key := pod], bound := s.bound + if pod.node == "" then {} else {Binding(key, pod.node)})
    case RemovePod(key) => s.(pods := s.pods - {key})
    case PutConfigMap(cm) => s.(cm := cm, log := s.log + [View(cm)])
    case AnnotatorList(n) =>
      s.(annotators := s.annotators[n := Annotating(Todo(s.kubelet[n], c.resource), false)])
    case AnnotatorGet(n, ok) => AfterGet(s, n, ok)
    case AnnotatorPatch(n, fault) => AfterPatch(s, n, fault)
    case AnnotatorRestart(n) => s.(annotators := s.annotators[n := Annotating([], false)])
    case UpdaterList(order) => s.(updater := Have(Rebuilt(ListedIn(s.pods, order))))
    case UpdaterGet(ok) => AfterUpdaterGet(s, ok)
    case UpdaterWrite(fault) => AfterWrite(s, fault)
    case UpdaterRestart => s.(updater := Idle)
    case CacheLoad(n) => AfterLoad(s, n)
    case CacheGet(n, ok) => AfterCacheGet(c, s, n, ok)
    case CachePublish(n) => AfterPublish(s, n)
    case CacheRestart(n) => s.(caches := s.caches[n := CacheState(EMPTY_WORLD, None, Resting)])
    case Stutter => s
  }

  ghost predicate Next(c: Config, s: State, a: Action, s': State) {
    |s.log| > 0 && Enabled(c, s, a) && s' == Step(c, s, a)
  }

  ghost predicate StepAt(c: Config, run: seq<State>, acts: seq<Action>, i: nat)
    requires |run| == |acts| + 1 && i < |acts|
  {
    Next(c, run[i], acts[i], run[i + 1])
  }

  /** A finite run of the whole system. */
  ghost predicate Run(c: Config, run: seq<State>, acts: seq<Action>) {
    && |run| == |acts| + 1
    && Init(c, run[0])
    && forall i | 0 <= i < |acts| :: StepAt(c, run, acts, i)
  }

  /** Two uninterrupted steps of an annotator are one annotatePod with the same faults. */
  lemma StepsAreAnnotateOne(s: State, n: string, luck: Luck)
    requires n in s.annotators && s.annotators[n].queue != []
    ensures var w, mid := s.annotators[n].queue[0], AfterGet(s, n, luck.get);
            var after := if luck.get && NeedsPatch(s.pods, w) then AfterPatch(mid, n, luck.patch) else mid;
            && after.pods == AnnotateOne(s.pods, w, luck)
            && after.annotators[n].queue == s.annotators[n].queue[1..]
  {
  }

  /** What another writer does to the ConfigMap. */
  function Disturbed(s: State, other: Between): State {
    if other.Untouched? then s else s.(cm := other.cm, log := s.log + [View(other.cm)])
  }

  /** The updater's Get and write, with another writer in between and any faults, are one Save. */
  lemma StepsAreSave(s: State, getOk: bool, other: Between, write: Fault)
    requires s.updater.Have?
    ensures var mid := Disturbed(AfterUpdaterGet(s, getOk), other);
            var after := if mid.updater.Writing? then AfterWrite(mid, write) else mid;
            after.updater.Idle? && after.cm == Saved(s.cm, s.updater.top, !getOk, other, write).0
  {
    hide View, Stored, Written;
  }

  /** The kubelet's devices have IDs that survive the annotation. */
  lemma AdvertisedClean(id: string)
    requires Advertised(id)
    ensures CleanId(id)
  {
    var i: nat :| id == DeviceId(i);
    ValueDigits(i);
    forall j | 4 <= j < |id| ensures IsDigit(id[j]) { assert id[j] == Itoa(i)[j - 4]; }
  }

  /** An allocation that only involves advertised devices comes back from its annotation. */
  lemma WantRoundTrip(ids: set<string>)
    requires forall id | id in ids :: Advertised(id)
    ensures AssignedIds(Join(Canonical(ids), ',')) == Canonical(ids)
  {
    forall id | id in Canonical(ids) ensures CleanId(id) { AdvertisedClean(id); }
    AnnotationRoundTrip(Canonical(ids));
  }

  lemma {:induction false} TodoMembers(report: seq<PodResources>, resource: string, w: Work)
    ensures w in Todo(report, resource) <==>
            exists p :: p in report && HeldIds(p, resource) != {} &&
              w == Work(p.key, Join(Canonical(HeldIds(p, resource)), ','))
  {
    if |report| > 0 {
      var p := report[0];
      assert report == [p] + report[1..];
      EmptyEnumeration(Canonical(HeldIds(p, resource)), HeldIds(p, resource));
      TodoMembers(report[1..], resource, w);
    }
  }
}
