/** Safety of the pipeline over every run: where attributions come from, and what a cache shows. */
module PipelineSafety {
  import opened Text
  import opened Cluster
  import opened Topology
  import opened Annotator
  import opened StatusUpdater
  import opened Exporter
  import opened Utilization
  import opened Simulate
  import opened Pipeline

  // ---------------------------------------------------------------- the invariant

  /** Some kubelet has had this device allocated to this pod. */
  ghost predicate Held(allocs: set<Holding>, key: PodKey, id: string) {
    exists n :: Holding(n, id, key) in allocs
  }

  /** Every device that an annotation value names has been allocated to the pod. */
  ghost predicate Justified(allocs: set<Holding>, key: PodKey, value: string) {
    forall id | id in AssignedIds(value) :: Held(allocs, key, id)
  }

  ghost predicate EntryJustified(s: State, n: string, a: Assignment) {
    var key := PodKey(a.podNamespace, a.podName);
    Held(s.allocs, key, a.gpuId) && Binding(key, n) in s.bound
  }

  ghost predicate TopJustified(s: State, top: Topology) {
    forall n, a | a in Entries(top, n) :: EntryJustified(s, n, a)
  }

  /** Work in an annotator's queue: a justified value, for a pod that this node has served. */
  ghost predicate WorkJustified(s: State, n: string, w: Work) {
    && Justified(s.allocs, w.key, w.value)
    && exists id :: Holding(n, id, w.key) in s.allocs
  }

  ghost predicate ReportOk(c: Config, s: State, n: string, report: seq<PodResources>) {
    forall p, id | p in report && id in HeldIds(p, c.resource) ::
      Advertised(id) && Holding(n, id, p.key) in s.allocs
  }

  ghost predicate KubeletsOk(c: Config, s: State) {
    forall n | n in s.kubelet :: ReportOk(c, s, n, s.kubelet[n])
  }

  ghost predicate PodsOk(s: State) {
    forall k | k in s.pods :: PodOk(s, k, s.pods[k])
  }

  ghost predicate PodOk(s: State, k: PodKey, pod: Pod) {
    Justified(s.allocs, k, AnnotationOf(pod)) && (pod.node != "" ==> Binding(k, pod.node) in s.bound)
  }

  ghost predicate QueuesOk(s: State) {
    forall n, w | n in s.annotators && w in s.annotators[n].queue :: WorkJustified(s, n, w)
  }

  ghost predicate UpdaterOk(s: State) {
    s.updater != Idle ==> TopJustified(s, s.updater.top)
  }

  ghost predicate LogOk(s: State) {
    && |s.log| > 0 && s.log[|s.log| - 1] == View(s.cm)
    && forall r | 0 <= r < |s.log| && s.log[r].Loaded? :: TopJustified(s, s.log[r].top)
  }

  /** What a cache shows or is about to show is what Load returned at a recorded revision, and a
      refresh in flight is not older than the world it will replace. */
  ghost predicate CacheOk(s: State, k: CacheState) {
    && (k.loaded.None? ==> k.world == EMPTY_WORLD)
    && (k.loaded.Some? ==> k.loaded.value < |s.log| && s.log[k.loaded.value] == Loaded(k.world.top))
    && (k.refresh.Fetching? ==>
          && k.refresh.rev < |s.log| && s.log[k.refresh.rev] == Loaded(k.refresh.top)
          && (k.loaded.Some? ==> k.loaded.value <= k.refresh.rev))
  }

  ghost predicate CachesOk(s: State) {
    forall n | n in s.caches :: CacheOk(s, s.caches[n])
  }

  ghost predicate DomainsOk(c: Config, s: State) {
    "" !in c.nodes && s.kubelet.Keys == s.annotators.Keys == s.caches.Keys == c.nodes
  }

  ghost predicate Inv(c: Config, s: State) {
    DomainsOk(c, s) && KubeletsOk(c, s) && PodsOk(s) && QueuesOk(s) && UpdaterOk(s) && LogOk(s) && CachesOk(s)
  }

  // ---------------------------------------------------------------- preservation

  /** Histories only grow, so nothing that was justified stops being so. */
  ghost predicate Grows(s: State, s': State) {
    s.allocs <= s'.allocs && s.bound <= s'.bound && s.log <= s'.log
  }

  lemma StepGrows(c: Config, s: State, a: Action, s': State)
    requires Next(c, s, a, s')
    ensures Grows(s, s')
  {
  }

  lemma HeldGrows(s: State, s': State, key: PodKey, id: string)
    requires Grows(s, s') && Held(s.allocs, key, id)
    ensures Held(s'.allocs, key, id)
  {
    var n :| Holding(n, id, key) in s.allocs;
    assert Holding(n, id, key) in s'.allocs;
  }

  lemma JustifiedGrows(s: State, s': State, key: PodKey, value: string)
    requires Grows(s, s') && Justified(s.allocs, key, value)
    ensures Justified(s'.allocs, key, value)
  {
    forall id | id in AssignedIds(value) ensures Held(s'.allocs, key, id) { HeldGrows(s, s', key, id); }
  }

  lemma TopGrows(s: State, s': State, top: Topology)
    requires Grows(s, s') && TopJustified(s, top)
    ensures TopJustified(s', top)
  {
    forall n, a | a in Entries(top, n) ensures EntryJustified(s', n, a) {
      HeldGrows(s, s', PodKey(a.podNamespace, a.podName), a.gpuId);
    }
  }

  lemma WorkGrows(s: State, s': State, n: string, w: Work)
    requires Grows(s, s') && WorkJustified(s, n, w)
    ensures WorkJustified(s', n, w)
  {
    JustifiedGrows(s, s', w.key, w.value);
    var id :| Holding(n, id, w.key) in s.allocs;
    assert Holding(n, id, w.key) in s'.allocs;
  }

  lemma StepDomains(c: Config, s: State, a: Action, s': State)
    requires DomainsOk(c, s) && Next(c, s, a, s')
    ensures DomainsOk(c, s')
  {
    match a
    case Allocate(_, _) => case PutPod(_, _) => case RemovePod(_) => case PutConfigMap(_) =>
    case AnnotatorList(_) => case AnnotatorGet(_, _) => case AnnotatorPatch(_, _) => case AnnotatorRestart(_) =>
    case UpdaterList(_) => case UpdaterGet(_) => case UpdaterWrite(_) => case UpdaterRestart =>
    case CacheLoad(_) => case CacheGet(_, _) => case CachePublish(_) => case CacheRestart(_) => case Stutter =>
  }

  lemma ReportGrows(c: Config, s: State, s': State, n: string, report: seq<PodResources>)
    requires Grows(s, s') && ReportOk(c, s, n, report)
    ensures ReportOk(c, s', n, report)
  {
  }

  lemma NewReportOk(c: Config, s: State, n: string, report: seq<PodResources>)
    requires Enabled(c, s, Allocate(n, report))
    ensures ReportOk(c, s.(allocs := s.allocs + Holdings(c, n, report)), n, report)
  {
    forall p, id | p in report && id in HeldIds(p, c.resource) ensures Holding(n, id, p.key) in Holdings(c, n, report) {
    }
  }

  lemma StepKubelets(c: Config, s: State, a: Action, s': State)
    requires KubeletsOk(c, s) && Next(c, s, a, s')
    ensures KubeletsOk(c, s')
  {
    StepGrows(c, s, a, s');
    forall n | n in s'.kubelet ensures ReportOk(c, s', n, s'.kubelet[n]) {
      if a.Allocate? && n == a.node {
        NewReportOk(c, s, n, a.report);
        ReportGrows(c, s.(allocs := s.allocs + Holdings(c, n, a.report)), s', n, a.report);
      } else {
        ReportGrows(c, s, s', n, s.kubelet[n]);
      }
    }
  }

  lemma PodGrows(s: State, s': State, k: PodKey, pod: Pod)
    requires Grows(s, s') && PodOk(s, k, pod)
    ensures PodOk(s', k, pod)
  {
    JustifiedGrows(s, s', k, AnnotationOf(pod));
  }

  lemma PatchPods(s: State, n: string, fault: Fault)
    requires PodsOk(s) && QueuesOk(s) && n in s.annotators && s.annotators[n].queue != []
    ensures PodsOk(AfterPatch(s, n, fault))
  {
    var w := s.annotators[n].queue[0];
    assert WorkJustified(s, n, w);
    var s' := AfterPatch(s, n, fault);
    forall k | k in s'.pods ensures PodOk(s', k, s'.pods[k]) {
      assert PodOk(s, k, s.pods[k]);
    }
  }

  lemma PodsFrame(c: Config, s: State, a: Action, s': State)
    requires Next(c, s, a, s') && !a.AnnotatorPatch?
    ensures forall k | k in s'.pods ::
      || (k in s.pods && s'.pods[k] == s.pods[k])
      || (a.PutPod? && a.key == k && s'.pods[k] == a.pod)
  {
  }

  lemma PutPodOk(c: Config, s: State, key: PodKey, pod: Pod)
    requires PodsOk(s) && Enabled(c, s, PutPod(key, pod)) && |s.log| > 0
    ensures PodOk(Step(c, s, PutPod(key, pod)), key, pod)
  {
    EmptyAnnotation();
    if key in s.pods { assert PodOk(s, key, s.pods[key]); }
  }

  lemma StepPods(c: Config, s: State, a: Action, s': State)
    requires PodsOk(s) && QueuesOk(s) && Next(c, s, a, s')
    ensures PodsOk(s')
  {
    if a.AnnotatorPatch? {
      PatchPods(s, a.node, a.fault);
    } else {
      StepGrows(c, s, a, s');
      PodsFrame(c, s, a, s');
      forall k | k in s'.pods ensures PodOk(s', k, s'.pods[k]) {
        if k in s.pods && s'.pods[k] == s.pods[k] {
          PodGrows(s, s', k, s.pods[k]);
        } else {
          PutPodOk(c, s, a.key, a.pod);
        }
      }
    }
  }

  /** Freshly computed work asks only for devices that the kubelet reports. */
  lemma TodoJustified(c: Config, s: State, n: string, w: Work)
    requires KubeletsOk(c, s) && n in s.kubelet && w in Todo(s.kubelet[n], c.resource)
    ensures WorkJustified(s, n, w)
  {
    TodoMembers(s.kubelet[n], c.resource, w);
    var p :| p in s.kubelet[n] && HeldIds(p, c.resource) != {} &&
      w == Work(p.key, Join(Canonical(HeldIds(p, c.resource)), ','));
    var ids := HeldIds(p, c.resource);
    WantRoundTrip(ids);
    assert ReportOk(c, s, n, s.kubelet[n]);
    forall id | id in AssignedIds(w.value) ensures Held(s.allocs, w.key, id) {
      assert id in ids && Holding(n, id, p.key) in s.allocs;
    }
    var id :| id in ids;
    assert Holding(n, id, w.key) in s.allocs;
  }

  lemma StepQueues(c: Config, s: State, a: Action, s': State)
    requires KubeletsOk(c, s) && QueuesOk(s) && Next(c, s, a, s')
    ensures QueuesOk(s')
  {
    StepGrows(c, s, a, s');
    forall n, w | n in s'.annotators && w in s'.annotators[n].queue ensures WorkJustified(s', n, w) {
      if w in s.annotators[n].queue {
        WorkGrows(s, s', n, w);
      } else {
        TodoJustified(c, s, n, w);
      }
    }
  }

  /** An entry of the rebuilt topology names a stored pod of its node and one of the devices in
      that pod's annotation. */
  lemma RebuiltFrom(pods: map<PodKey, Pod>, order: seq<PodKey>, n: string, a: Assignment)
    requires forall k | k in order :: k in pods
    requires a in Entries(Rebuilt(ListedIn(pods, order)), n)
    ensures var key := PodKey(a.podNamespace, a.podName);
            && n != "" && key in order && pods[key].node == n && a.gpuId in AssignedIds(AnnotationOf(pods[key]))
            && a.container == FirstGpuName(pods[key].containers)
  {
    hide Rebuilt, NodeEntries, EntriesOf, AssignedIds, AnnotationOf;
    var listed := ListedIn(pods, order);
    RebuiltEntries(listed, n);
    NodeEntriesMembership(listed, n, a);
    var p :| p in listed && p.pod.node == n && a in EntriesOf(p);
    EntryFrom(p, a);
    var i :| 0 <= i < |listed| && listed[i] == p;
    assert order[i] == p.key;
  }

  lemma EntryFrom(p: Listed, a: Assignment)
    requires a in EntriesOf(p)
    ensures PodKey(a.podNamespace, a.podName) == p.key && a.gpuId in AssignedIds(AnnotationOf(p.pod))
    ensures a.container == FirstGpuName(p.pod.containers)
  {
    var j :| 0 <= j < |EntriesOf(p)| && EntriesOf(p)[j] == a;
  }

  lemma RebuiltJustified(s: State, order: seq<PodKey>)
    requires PodsOk(s) && forall k | k in order :: k in s.pods
    ensures TopJustified(s, Rebuilt(ListedIn(s.pods, order)))
  {
    var top := Rebuilt(ListedIn(s.pods, order));
    forall n, a | a in Entries(top, n) ensures EntryJustified(s, n, a) {
      RebuiltFrom(s.pods, order, n, a);
    }
  }

  lemma StepUpdater(c: Config, s: State, a: Action, s': State)
    requires PodsOk(s) && UpdaterOk(s) && Next(c, s, a, s')
    ensures UpdaterOk(s')
  {
    StepGrows(c, s, a, s');
    if a.UpdaterList? {
      RebuiltJustified(s, a.order);
    } else if s'.updater != Idle {
      TopGrows(s, s', s.updater.top);
    }
  }

  lemma LogUntouched(c: Config, s: State, a: Action, s': State)
    requires Next(c, s, a, s') && !a.PutConfigMap? && !a.UpdaterWrite?
    ensures s'.log == s.log && s'.cm == s.cm
  {
    hide Rebuilt, ListedIn, Todo, View, Stored, NeedsPatch, Holdings, FetchOne, PodGetOf, Entries;
  }

  lemma LogMoves(c: Config, s: State, a: Action, s': State)
    requires Next(c, s, a, s')
    ensures a.PutConfigMap? ==> s'.log == s.log + [View(a.cm)] && s'.cm == a.cm
    ensures a.UpdaterWrite? ==> s.updater.Writing? && s' == AfterWrite(s, a.fault)
  {
    hide AfterWrite, Rebuilt, ListedIn, Todo, View, Stored, NeedsPatch, Holdings, FetchOne, PodGetOf, Entries;
  }

  lemma LogFrame(c: Config, s: State, a: Action, s': State)
    requires LogOk(s) && Next(c, s, a, s')
    ensures |s'.log| > 0 && s'.log[|s'.log| - 1] == View(s'.cm)
    ensures forall r | |s.log| <= r < |s'.log| && s'.log[r].Loaded? ::
              s'.log[r].top == map[] || (s.updater.Writing? && s'.log[r].top == s.updater.top)
  {
    LogMoves(c, s, a, s');
    if a.PutConfigMap? {
      PutFrame(c, s, a);
    } else if a.UpdaterWrite? {
      WriteFrame(s, a.fault);
    } else {
      LogUntouched(c, s, a, s');
    }
    hide Next, TopJustified, AfterWrite;
  }

  lemma PutFrame(c: Config, s: State, a: Action)
    requires a.PutConfigMap? && Enabled(c, s, a)
    ensures View(a.cm) in {Loaded(map[]), LoadFailed}
  {
  }

  lemma WriteFrame(s: State, fault: Fault)
    requires LogOk(s) && s.updater.Writing?
    ensures var s' := AfterWrite(s, fault);
      && s'.log[|s'.log| - 1] == View(s'.cm)
      && (s'.log == s.log || s'.log == s.log + [Loaded(s.updater.top)])
  {
    hide TopJustified;
  }

  lemma StepLog(c: Config, s: State, a: Action, s': State)
    requires UpdaterOk(s) && LogOk(s) && Next(c, s, a, s')
    ensures LogOk(s')
  {
    StepGrows(c, s, a, s');
    LogFrame(c, s, a, s');
    forall r | 0 <= r < |s'.log| && s'.log[r].Loaded? ensures TopJustified(s', s'.log[r].top) {
      if r < |s.log| {
        TopGrows(s, s', s.log[r].top);
      } else if s'.log[r].top != map[] {
        TopGrows(s, s', s.updater.top);
      }
    }
  }

  lemma CacheGrows(s: State, s': State, k: CacheState)
    requires Grows(s, s') && CacheOk(s, k)
    ensures CacheOk(s', k)
  {
  }

  /** What the steps of one cache make of its state. */
  lemma CacheMoves(c: Config, s: State, a: Action, s': State, n: string)
    requires LogOk(s) && CachesOk(s) && Next(c, s, a, s') && n in s.caches && n in s'.caches
    requires s.caches[n] != s'.caches[n]
    ensures s'.log == s.log && CacheOk(s', s'.caches[n])
    ensures a != CacheRestart(n) ==> NotOlder(s.caches[n], s'.caches[n])
  {
    assert CacheOk(s, s.caches[n]);
    match a
    case CacheLoad(_) =>
    case CacheGet(_, _) =>
    case CachePublish(_) =>
    case _ =>
  }

  ghost predicate NotOlder(k: CacheState, k': CacheState) {
    k.loaded.Some? ==> k'.loaded.Some? && k.loaded.value <= k'.loaded.value
  }

  lemma StepCaches(c: Config, s: State, a: Action, s': State)
    requires LogOk(s) && CachesOk(s) && s.caches.Keys == s'.caches.Keys && Next(c, s, a, s')
    ensures CachesOk(s')
  {
    StepGrows(c, s, a, s');
    forall n | n in s'.caches ensures CacheOk(s', s'.caches[n]) {
      if s.caches[n] == s'.caches[n] { CacheGrows(s, s', s.caches[n]); } else { CacheMoves(c, s, a, s', n); }
    }
  }

  lemma InitInv(c: Config, s: State)
    requires Init(c, s)
    ensures Inv(c, s)
  {
  }

  /** Every reachable state satisfies the invariant. */
  lemma {:induction false} Reachable(c: Config, run: seq<State>, acts: seq<Action>, k: nat)
    requires Run(c, run, acts) && k < |run|
    ensures Inv(c, run[k])
  {
    if k == 0 {
      InitInv(c, run[0]);
    } else {
      Reachable(c, run, acts, k - 1);
      var s, a, s' := run[k - 1], acts[k - 1], run[k];
      assert StepAt(c, run, acts, k - 1);
      StepDomains(c, s, a, s');
      StepKubelets(c, s, a, s');
      StepPods(c, s, a, s');
      StepQueues(c, s, a, s');
      StepUpdater(c, s, a, s');
      StepLog(c, s, a, s');
      StepCaches(c, s, a, s');
    }
  }

  // ---------------------------------------------------------------- provenance

  ghost predicate OnceAllocated(c: Config, run: seq<State>, k: int, h: Holding)
    requires k < |run|
  {
    exists j :: 0 <= j <= k && Allocated(c, run[j], h.node, h.gpu, h.key)
  }

  ghost predicate OnceBound(run: seq<State>, k: int, b: Binding)
    requires k < |run|
  {
    exists j :: 0 <= j <= k && b.key in run[j].pods && run[j].pods[b.key].node == b.node
  }

  lemma NewHistory(c: Config, s: State, a: Action, s': State)
    requires Next(c, s, a, s')
    ensures forall h | h in s'.allocs && h !in s.allocs :: Allocated(c, s', h.node, h.gpu, h.key)
    ensures forall b | b in s'.bound && b !in s.bound :: b.key in s'.pods && s'.pods[b.key].node == b.node
  {
    forall h | h in s'.allocs && h !in s.allocs ensures Allocated(c, s', h.node, h.gpu, h.key) {
      var p, id :| p in a.report && id in HeldIds(p, c.resource) && h == Holding(a.node, id, p.key);
      assert Holds(c, s'.kubelet[a.node], id, p.key);
    }
  }

  /** The history variables record what really happened: an allocation or binding in them was
      the state of a kubelet or of the API server at some point of the run. */
  lemma {:induction false} HistoryIsReal(c: Config, run: seq<State>, acts: seq<Action>, k: nat)
    requires Run(c, run, acts) && k < |run|
    ensures forall h | h in run[k].allocs :: OnceAllocated(c, run, k, h)
    ensures forall b | b in run[k].bound :: OnceBound(run, k, b)
  {
    if k > 0 {
      HistoryIsReal(c, run, acts, k - 1);
      assert StepAt(c, run, acts, k - 1);
      NewHistory(c, run[k - 1], acts[k - 1], run[k]);
      forall h | h in run[k].allocs ensures OnceAllocated(c, run, k, h) {
        if h in run[k - 1].allocs { assert OnceAllocated(c, run, k - 1, h); }
      }
      forall b | b in run[k].bound ensures OnceBound(run, k, b) {
        if b in run[k - 1].bound { assert OnceBound(run, k - 1, b); }
      }
    }
  }

  /** No pod name ever served two nodes, be it by allocation or by binding. */
  ghost predicate NoNameReuse(c: Config, run: seq<State>, k: nat)
    requires k < |run|
  {
    forall i, j, n, g, key | 0 <= i <= k && 0 <= j <= k && Allocated(c, run[i], n, g, key)
                             && key in run[j].pods && run[j].pods[key].node != "" :: run[j].pods[key].node == n
  }

  /** Provenance. In every run, whatever failed and however old the data was, a row of node h that
      attributes its GPU to a pod speaks of a device that some kubelet really had allocated to that
      pod, and of a pod that really was bound to h. If pod names are not reused on other nodes, it
      was h's own kubelet. */
  lemma Provenance(c: Config, run: seq<State>, acts: seq<Action>, k: nat, h: string, g: GPU, d: Draws)
    requires Run(c, run, acts) && k < |run| && h in run[k].caches
    requires Row(run[k].caches[h].world, g, h, d) != IdleRow(g, h)
    ensures var row := Row(run[k].caches[h].world, g, h, d);
            var key := PodKey(row.namespace, row.pod);
      && (exists n :: OnceAllocated(c, run, k, Holding(n, g.id, key)))
      && OnceBound(run, k, Binding(key, h))
      && (NoNameReuse(c, run, k) ==> OnceAllocated(c, run, k, Holding(h, g.id, key)))
  {
    var s := run[k];
    Reachable(c, run, acts, k);
    HistoryIsReal(c, run, acts, k);
    var a := Find(Entries(s.caches[h].world.top, h), g.id).value;
    var key := PodKey(a.podNamespace, a.podName);
    ShownJustified(c, s, h, a);
    var n :| Holding(n, g.id, key) in s.allocs;
    assert OnceAllocated(c, run, k, Holding(n, g.id, key));
    assert OnceBound(run, k, Binding(key, h));
    assert h in c.nodes && h != "";
  }

  lemma ShownJustified(c: Config, s: State, h: string, a: Assignment)
    requires Inv(c, s) && h in s.caches && a in Entries(s.caches[h].world.top, h)
    ensures EntryJustified(s, h, a)
  {
    assert CacheOk(s, s.caches[h]);
  }

  // ---------------------------------------------------------------- the last good state

  lemma CacheStep(c: Config, run: seq<State>, acts: seq<Action>, m: nat, n: string)
    requires Run(c, run, acts) && m < |acts| && n in c.nodes && acts[m] != CacheRestart(n)
    ensures n in run[m].caches && n in run[m + 1].caches
    ensures NotOlder(run[m].caches[n], run[m + 1].caches[n]) && run[m].log <= run[m + 1].log
  {
    Reachable(c, run, acts, m);
    Reachable(c, run, acts, m + 1);
    assert StepAt(c, run, acts, m);
    StepGrows(c, run[m], acts[m], run[m + 1]);
    if run[m].caches[n] != run[m + 1].caches[n] { CacheMoves(c, run[m], acts[m], run[m + 1], n); }
  }

  lemma {:induction false} NeverBack(c: Config, run: seq<State>, acts: seq<Action>, i: nat, k: nat, n: string)
    requires Run(c, run, acts) && i <= k < |run| && n in c.nodes
    requires forall m | i <= m < k :: acts[m] != CacheRestart(n)
    ensures n in run[i].caches && n in run[k].caches
    ensures NotOlder(run[i].caches[n], run[k].caches[n]) && run[i].log <= run[k].log
  {
    ReachableDomains(c, run, acts, k);
    if i < k {
      NeverBack(c, run, acts, i, k - 1, n);
      CacheStep(c, run, acts, k - 1, n);
    }
  }

  /** A cache shows the initial empty world or exactly what Load returned at some revision, and
      until its process restarts it never goes back to an older one. */
  lemma LastGoodState(c: Config, run: seq<State>, acts: seq<Action>, i: nat, k: nat, n: string)
    requires Run(c, run, acts) && i <= k < |run| && n in c.nodes
    requires forall m | i <= m < k :: acts[m] != CacheRestart(n)
    ensures n in run[i].caches && n in run[k].caches
    ensures NotOlder(run[i].caches[n], run[k].caches[n]) && run[i].log <= run[k].log
    ensures match run[k].caches[n].loaded
            case None => run[k].caches[n].world == EMPTY_WORLD
            case Some(r) => r < |run[k].log| && run[k].log[r] == Loaded(run[k].caches[n].world.top)
  {
    NeverBack(c, run, acts, i, k, n);
    Reachable(c, run, acts, k);
    assert CacheOk(run[k], run[k].caches[n]);
  }

  /** A loop over these entries, with some outcome of each Get, makes these ranges. */
  ghost predicate Fetched(c: Config, entries: seq<Assignment>, ranges: map<string, Range>) {
    exists gets: nat -> PodGet :: ranges == FetchAll(entries, gets, c.pf, c.defaultUtil)
  }

  /** What a cache shows, and what a refresh has gathered so far, is what the loop of Refresh
      makes of the host's entries. */
  ghost predicate CacheFetched(c: Config, n: string, k: CacheState) {
    && Fetched(c, Entries(k.world.top, n), k.world.ranges)
    && (k.refresh.Fetching? ==>
          && k.refresh.next <= |Entries(k.refresh.top, n)|
          && Fetched(c, Entries(k.refresh.top, n)[..k.refresh.next], k.refresh.ranges))
  }

  ghost predicate RangesOk(c: Config, s: State) {
    forall n | n in s.caches :: CacheFetched(c, n, s.caches[n])
  }

  lemma {:induction false} SameGets(entries: seq<Assignment>, gets: nat -> PodGet, gets': nat -> PodGet, c: Config)
    requires forall i | 0 <= i < |entries| :: gets(i) == gets'(i)
    ensures FetchAll(entries, gets, c.pf, c.defaultUtil) == FetchAll(entries, gets', c.pf, c.defaultUtil)
  {
    if |entries| > 0 { SameGets(entries[..|entries| - 1], gets, gets', c); }
  }

  lemma NothingFetched(c: Config)
    ensures Fetched(c, [], map[])
  {
    assert FetchAll([], (i: nat) => None, c.pf, c.defaultUtil) == map[];
  }

  lemma OneMoreFetched(c: Config, entries: seq<Assignment>, m: nat, ranges: map<string, Range>, got: PodGet)
    requires m < |entries| && Fetched(c, entries[..m], ranges)
    ensures Fetched(c, entries[..m + 1], FetchOne(ranges, entries[m], got, c.pf, c.defaultUtil))
  {
    var gets: nat -> PodGet :| ranges == FetchAll(entries[..m], gets, c.pf, c.defaultUtil);
    var gets' := (i: nat) => if i == m then got else gets(i);
    SameGets(entries[..m], gets, gets', c);
    assert entries[..m + 1][..m] == entries[..m];
    var more := FetchOne(ranges, entries[m], got, c.pf, c.defaultUtil);
    assert FetchAll(entries[..m + 1], gets', c.pf, c.defaultUtil) == more;
  }

  lemma RangesMove(c: Config, s: State, a: Action, s': State, n: string)
    requires Next(c, s, a, s') && n in s.caches && n in s'.caches
    requires s.caches[n] != s'.caches[n] && CacheFetched(c, n, s.caches[n])
    ensures CacheFetched(c, n, s'.caches[n])
  {
    hide Fetched;
    NothingFetched(c);
    match a
    case CacheLoad(_) =>
      if View(s.cm).Loaded? { assert Entries(View(s.cm).top, n)[..0] == []; }
    case CacheGet(_, ok) =>
      var f := s.caches[n].refresh;
      var entries := Entries(f.top, n);
      OneMoreFetched(c, entries, f.next, f.ranges, PodGetOf(s, entries[f.next], ok));
    case CachePublish(_) =>
      var f := s.caches[n].refresh;
      assert Entries(f.top, n)[..f.next] == Entries(f.top, n);
    case _ =>
  }

  lemma {:induction false} ReachableRanges(c: Config, run: seq<State>, acts: seq<Action>, k: nat)
    requires Run(c, run, acts) && k < |run|
    ensures RangesOk(c, run[k])
  {
    if k > 0 {
      ReachableRanges(c, run, acts, k - 1);
      assert StepAt(c, run, acts, k - 1);
      ReachableDomains(c, run, acts, k - 1);
      StepRanges(c, run[k - 1], acts[k - 1], run[k]);
    } else {
      NothingFetched(c);
    }
  }

  lemma StepRanges(c: Config, s: State, a: Action, s': State)
    requires DomainsOk(c, s) && RangesOk(c, s) && Next(c, s, a, s')
    ensures RangesOk(c, s')
  {
    StepDomains(c, s, a, s');
    forall n | n in s'.caches ensures CacheFetched(c, n, s'.caches[n]) {
      if s.caches[n] != s'.caches[n] { RangesMove(c, s, a, s', n); }
    }
  }

  /** The utilization annotation of a's pod. */
  function TextOf(s: State, a: Assignment): string
    requires PodKey(a.podNamespace, a.podName) in s.pods
  {
    Lookup(s.pods[PodKey(a.podNamespace, a.podName)].annotations, UTILIZATION)
  }

  /** The range r, filed under `key`, was read from the annotation that a listed pod of that name
      had in state j. */
  ghost predicate ReadAt(c: Config, s: State, entries: seq<Assignment>, key: string, r: Range) {
    exists a :: a in entries && Key(a) == key && PodKey(a.podNamespace, a.podName) in s.pods
                && r == PodRange(c.pf, TextOf(s, a), c.defaultUtil)
  }

  ghost predicate ReadBefore(c: Config, run: seq<State>, k: int, entries: seq<Assignment>, key: string, r: Range)
    requires k < |run|
  {
    exists j :: 0 <= j <= k && ReadAt(c, run[j], entries, key, r)
  }

  ghost predicate AllRead(c: Config, run: seq<State>, k: int, entries: seq<Assignment>, ranges: map<string, Range>)
    requires k < |run|
  {
    forall key | key in ranges :: ReadBefore(c, run, k, entries, key, ranges[key])
  }

  ghost predicate CacheRead(c: Config, run: seq<State>, k: int, n: string, x: CacheState)
    requires k < |run|
  {
    && AllRead(c, run, k, Entries(x.world.top, n), x.world.ranges)
    && (x.refresh.Fetching? ==> AllRead(c, run, k, Entries(x.refresh.top, n), x.refresh.ranges))
  }

  lemma AllReadLater(c: Config, run: seq<State>, k: nat, entries: seq<Assignment>, ranges: map<string, Range>)
    requires 0 < k < |run| && AllRead(c, run, k - 1, entries, ranges)
    ensures AllRead(c, run, k, entries, ranges)
  {
    forall key | key in ranges ensures ReadBefore(c, run, k, entries, key, ranges[key]) {
      assert ReadBefore(c, run, k - 1, entries, key, ranges[key]);
    }
  }

  lemma OneMoreRead(c: Config, run: seq<State>, k: nat, entries: seq<Assignment>, ranges: map<string, Range>,
                    a: Assignment, ok: bool)
    requires 0 < k < |run| && AllRead(c, run, k - 1, entries, ranges) && a in entries
    ensures AllRead(c, run, k, entries, FetchOne(ranges, a, PodGetOf(run[k - 1], a, ok), c.pf, c.defaultUtil))
  {
    hide PodRange;
    var got := PodGetOf(run[k - 1], a, ok);
    var more := FetchOne(ranges, a, got, c.pf, c.defaultUtil);
    AllReadLater(c, run, k, entries, ranges);
    forall key | key in more ensures ReadBefore(c, run, k, entries, key, more[key]) {
      if key in ranges && more[key] == ranges[key] {
        assert ReadBefore(c, run, k, entries, key, ranges[key]);
      } else {
        assert ReadAt(c, run[k - 1], entries, key, more[key]);
      }
    }
  }

  lemma ReadMoves(c: Config, run: seq<State>, acts: seq<Action>, k: nat, n: string)
    requires 0 < k < |run| == |acts| + 1 && StepAt(c, run, acts, k - 1) && n in run[k - 1].caches && n in run[k].caches
    requires CacheRead(c, run, k - 1, n, run[k - 1].caches[n])
    ensures CacheRead(c, run, k, n, run[k].caches[n])
  {
    var s, a, s' := run[k - 1], acts[k - 1], run[k];
    var x := s.caches[n];
    AllReadLater(c, run, k, Entries(x.world.top, n), x.world.ranges);
    if x.refresh.Fetching? { AllReadLater(c, run, k, Entries(x.refresh.top, n), x.refresh.ranges); }
    if a.CacheGet? && a.node == n {
      var e := Entries(x.refresh.top, n)[x.refresh.next];
      OneMoreRead(c, run, k, Entries(x.refresh.top, n), x.refresh.ranges, e, a.ok);
      hide AllRead;
    } else {
      hide FetchOne;
      CacheElse(c, s, a, s', n);
    }
  }

  /** Steps other than a Get move ranges only together with their topology. */
  lemma CacheElse(c: Config, s: State, a: Action, s': State, n: string)
    requires Next(c, s, a, s') && n in s.caches && n in s'.caches && !(a.CacheGet? && a.node == n)
    ensures var x, x' := s.caches[n], s'.caches[n];
      && (x'.world == x.world || x'.world == EMPTY_WORLD
          || (x.refresh.Fetching? && x'.world == WorldState(x.refresh.top, x.refresh.ranges)))
      && (x'.refresh.Fetching? ==> x'.refresh == x.refresh || x'.refresh.ranges == map[])
  {
  }

  lemma {:induction false} ReachableReads(c: Config, run: seq<State>, acts: seq<Action>, k: nat, n: string)
    requires Run(c, run, acts) && k < |run| && n in c.nodes
    ensures n in run[k].caches && CacheRead(c, run, k, n, run[k].caches[n])
  {
    hide CacheRead, Next, Init;
    ReachableDomains(c, run, acts, k);
    if k > 0 {
      ReachableReads(c, run, acts, k - 1, n);
      assert StepAt(c, run, acts, k - 1);
      hide StepAt;
      ReadMoves(c, run, acts, k, n);
    } else {
      NothingRead(c, run, n);
    }
  }

  lemma NothingRead(c: Config, run: seq<State>, n: string)
    requires |run| > 0 && Init(c, run[0]) && n in c.nodes
    ensures CacheRead(c, run, 0, n, run[0].caches[n])
  {
  }

  /** Where the ranges come from, in every run and for every float reader: a range that a scrape of n
      can use is filed under the name of a pod that the shown topology has on n, it was read from
      the annotation which that pod had at some earlier point of the run, and it lies inside 0-100
      exactly when that annotation and the default are tame. */
  lemma ShownRanges(c: Config, run: seq<State>, acts: seq<Action>, k: nat, n: string, key: string)
    requires Run(c, run, acts) && k < |run| && n in run[k].caches && key in run[k].caches[n].world.ranges
    ensures var w := run[k].caches[n].world;
            exists j, a :: 0 <= j <= k && a in Entries(w.top, n) && Key(a) == key
              && PodKey(a.podNamespace, a.podName) in run[j].pods
              && w.ranges[key] == PodRange(c.pf, TextOf(run[j], a), c.defaultUtil)
              && (Bounded(w.ranges[key]) <==> Tame(c.pf, TextOf(run[j], a), c.defaultUtil))
  {
    hide Run, PodRange, Bounded, Tame;
    var w := run[k].caches[n].world;
    ReachableDomains(c, run, acts, k);
    ReachableReads(c, run, acts, k, n);
    assert ReadBefore(c, run, k, Entries(w.top, n), key, w.ranges[key]);
    var j :| 0 <= j <= k && ReadAt(c, run[j], Entries(w.top, n), key, w.ranges[key]);
    var a :| a in Entries(w.top, n) && Key(a) == key && PodKey(a.podNamespace, a.podName) in run[j].pods
             && w.ranges[key] == PodRange(c.pf, TextOf(run[j], a), c.defaultUtil);
    PodRangeBounded(c.pf, TextOf(run[j], a), c.defaultUtil);
  }

  lemma ReachableDomains(c: Config, run: seq<State>, acts: seq<Action>, k: nat)
    requires Run(c, run, acts) && k < |run|
    ensures DomainsOk(c, run[k])
  {
    Reachable(c, run, acts, k);
  }
}
