/** Convergence of the pipeline: once the cluster is quiet, one error-free tick of every
    annotator, then of the status-updater, then of a cache makes that node's rows exact, whatever
    else happens in between. */
module PipelineConvergence {
  import opened Text
  import opened Cluster
  import opened Topology
  import opened Annotator
  import opened StatusUpdater
  import opened Exporter
  import opened Simulate
  import opened Pipeline
  import opened PipelineSafety

  // ---------------------------------------------------------------- a quiet cluster

  /** No pod name ever served two nodes. */
  ghost predicate HomesUnique(s: State) {
    forall x, y | x in s.allocs && y in s.allocs && x.key == y.key :: x.node == y.node
  }

  /** The devices that a kubelet reports for a pod. */
  ghost predicate Wanted(c: Config, s: State, n: string, w: Work) {
    n in s.kubelet && w in Todo(s.kubelet[n], c.resource)
  }

  /** A kubelet lists a pod once, every pod it lists exists and is bound to its node, and no
      device is in the hands of two pods. */
  ghost predicate ReportsSane(c: Config, s: State) {
    && (forall n, v, w | Wanted(c, s, n, v) && Wanted(c, s, n, w) && v.key == w.key :: v == w)
    && (forall n, w | Wanted(c, s, n, w) :: w.key in s.pods && s.pods[w.key].node == n)
    && (forall n, g, k, l | Allocated(c, s, n, g, k) && Allocated(c, s, n, g, l) :: k == l)
  }

  /** Annotator m still holds work for a pod that another node n now wants to carry something else:
      a leftover from a time when a pod of that name ran on m. */
  ghost predicate CrossWork(c: Config, s: State, m: string, v: Work, n: string, w: Work) {
    && m != n && m in s.annotators && v in s.annotators[m].queue
    && Wanted(c, s, n, w) && v.key == w.key && v.value != w.value
  }

  ghost predicate NoCrossWork(c: Config, s: State) {
    forall m, v, n, w :: !CrossWork(c, s, m, v, n, w)
  }

  ghost predicate Quiet(c: Config, s: State) {
    Inv(c, s) && NoCrossWork(c, s) && ReportsSane(c, s)
  }

  /** If pod names stay on their node, no annotator can hold such work. */
  lemma HomesGiveNoCrossWork(c: Config, s: State)
    requires Inv(c, s) && HomesUnique(s)
    ensures NoCrossWork(c, s)
  {
    forall m, v, n, w ensures !CrossWork(c, s, m, v, n, w) {
      if CrossWork(c, s, m, v, n, w) { SameHome(c, s, m, v, n, w); }
    }
  }

  lemma SameHome(c: Config, s: State, m: string, v: Work, n: string, w: Work)
    requires Inv(c, s) && HomesUnique(s)
    requires m in s.annotators && v in s.annotators[m].queue && Wanted(c, s, n, w) && v.key == w.key
    ensures m == n
  {
    TodoJustified(c, s, n, w);
    assert WorkJustified(s, m, v);
  }

  /** Nor can it if every annotator has listed since the environment came to rest. */
  lemma FreshGivesNoCrossWork(c: Config, s: State)
    requires ReportsSane(c, s) && forall m | m in s.annotators :: QueueFresh(c, s, m)
    ensures NoCrossWork(c, s)
  {
    forall m, v, n, w ensures !CrossWork(c, s, m, v, n, w) {
      assert m in s.annotators ==> QueueFresh(c, s, m);
      assert m in s.annotators && v in s.annotators[m].queue ==> Wanted(c, s, m, v);
    }
  }

  lemma InvDomains(c: Config, s: State)
    requires Inv(c, s)
    ensures DomainsOk(c, s)
  {
  }

  lemma QuietDomains(c: Config, s: State)
    requires Quiet(c, s)
    ensures DomainsOk(c, s)
  {
  }

  /** Where a pod runs, its containers and the load it asks for. */
  predicate SamePod(p: Pod, q: Pod) {
    && q.node == p.node && q.containers == p.containers
    && Lookup(q.annotations, UTILIZATION) == Lookup(p.annotations, UTILIZATION)
  }

  /** What a step of the pipeline itself leaves alone. */
  ghost predicate SameWorld(s: State, s': State) {
    && s'.kubelet == s.kubelet && s'.allocs == s.allocs && s'.bound == s.bound
    && s'.pods.Keys == s.pods.Keys && forall k | k in s.pods :: SamePod(s.pods[k], s'.pods[k])
  }

  lemma OwnSteps(c: Config, s: State, a: Action, s': State)
    requires Next(c, s, a, s') && !Environment(a)
    ensures SameWorld(s, s')
    ensures !a.AnnotatorPatch? ==> s'.pods == s.pods
    ensures !a.UpdaterWrite? ==> s'.cm == s.cm && s'.log == s.log
  {
    if a.AnnotatorPatch? {
      PatchIs(c, s, a, s');
      LogUntouched(c, s, a, s');
      hide Next;
    } else {
      PodsUntouched(c, s, a, s');
      if !a.UpdaterWrite? { LogUntouched(c, s, a, s'); }
      hide Next;
    }
  }

  lemma PatchIs(c: Config, s: State, a: Action, s': State)
    requires Next(c, s, a, s') && a.AnnotatorPatch?
    ensures a.node in s.annotators && s.annotators[a.node].queue != [] && s' == AfterPatch(s, a.node, a.fault)
  {
    hide AfterPatch, Rebuilt, ListedIn, Todo, View, Conflict, Written, NeedsPatch, Holdings, FetchOne, PodGetOf;
  }

  lemma PodsUntouched(c: Config, s: State, a: Action, s': State)
    requires Next(c, s, a, s') && !Environment(a) && !a.AnnotatorPatch?
    ensures s'.kubelet == s.kubelet && s'.allocs == s.allocs && s'.bound == s.bound && s'.pods == s.pods
  {
    hide Rebuilt, ListedIn, Todo, View, Conflict, Written, NeedsPatch, Holdings, FetchOne, PodGetOf, Entries;
  }

  /** The step that the updater takes. */
  lemma UpdaterStepIs(c: Config, s: State, a: Action, s': State)
    requires Next(c, s, a, s') && !Environment(a) && !a.UpdaterList?
    ensures a.UpdaterGet? ==> s.updater.Have? && s' == AfterUpdaterGet(s, a.ok)
    ensures a.UpdaterWrite? ==> s.updater.Writing? && s' == AfterWrite(s, a.fault)
    ensures a.UpdaterRestart? ==> s' == s.(updater := Idle)
    ensures !a.UpdaterGet? && !a.UpdaterWrite? && !a.UpdaterRestart? ==>
              s'.updater == s.updater && s'.cm == s.cm && s'.log == s.log
  {
    hide AfterUpdaterGet, AfterWrite, Rebuilt, ListedIn, Todo, View, NeedsPatch, Holdings, FetchOne, PodGetOf, Entries;
  }

  lemma SaneStays(c: Config, s: State, s': State)
    requires ReportsSane(c, s) && SameWorld(s, s')
    ensures ReportsSane(c, s')
  {
    assert forall n, w :: Wanted(c, s', n, w) <==> Wanted(c, s, n, w);
    assert forall n, g, k :: Allocated(c, s', n, g, k) <==> Allocated(c, s, n, g, k);
  }

  lemma StepQuiet(c: Config, s: State, a: Action, s': State)
    requires Quiet(c, s) && Inv(c, s') && Next(c, s, a, s') && !Environment(a)
    ensures Quiet(c, s')
  {
    OwnSteps(c, s, a, s');
    SaneStays(c, s, s');
    forall m, v, n, w ensures !CrossWork(c, s', m, v, n, w) {
      if m in s'.annotators && v in s'.annotators[m].queue { QueueFrame(c, s, a, s', m, v); }
      assert Wanted(c, s', n, w) ==> Wanted(c, s, n, w);
      assert !CrossWork(c, s, m, v, n, w);
    }
  }

  // ---------------------------------------------------------------- annotators

  /** Everything in the annotator's queue is still wanted. */
  ghost predicate QueueFresh(c: Config, s: State, n: string) {
    n in s.annotators && forall w | w in s.annotators[n].queue :: Wanted(c, s, n, w)
  }

  ghost predicate Carries(s: State, w: Work) {
    w.key in s.pods && AnnotationOf(s.pods[w.key]) == w.value
  }

  /** During an error-free tick: what is wanted is in place or still in the queue. */
  ghost predicate AnnotatorOnTrack(c: Config, s: State, n: string) {
    QueueFresh(c, s, n) && forall w | Wanted(c, s, n, w) :: Carries(s, w) || w in s.annotators[n].queue
  }

  ghost predicate AnnotatorDone(c: Config, s: State, n: string) {
    QueueFresh(c, s, n) && forall w | Wanted(c, s, n, w) :: Carries(s, w)
  }

  predicate AnnotatorFails(a: Action, n: string) {
    a == AnnotatorGet(n, false) || a == AnnotatorPatch(n, Rejected) || a == AnnotatorRestart(n)
  }

  /** How a Patch changes who carries what. */
  lemma PatchCarries(c: Config, s: State, m: string, fault: Fault, n: string, w: Work)
    requires Quiet(c, s) && m in s.annotators && s.annotators[m].queue != [] && Wanted(c, s, n, w)
    requires QueueFresh(c, s, n)
    ensures var s', head := AfterPatch(s, m, fault), s.annotators[m].queue[0];
      && (Carries(s, w) ==> Carries(s', w))
      && (m == n && w == head && !fault.Rejected? ==> Carries(s', w))
  {
    var head := s.annotators[m].queue[0];
    if head.key == w.key {
      assert !CrossWork(c, s, m, head, n, w);
      assert m == n ==> Wanted(c, s, n, head);
    }
  }

  lemma QueueStaysFresh(c: Config, s: State, a: Action, s': State, n: string)
    requires Next(c, s, a, s') && !Environment(a) && QueueFresh(c, s, n) && n in s'.annotators
    ensures QueueFresh(c, s', n)
  {
    OwnSteps(c, s, a, s');
    forall w | w in s'.annotators[n].queue ensures Wanted(c, s', n, w) {
      QueueFrame(c, s, a, s', n, w);
    }
  }

  /** Work enters a queue only through a List. */
  lemma QueueFrame(c: Config, s: State, a: Action, s': State, n: string, w: Work)
    requires Next(c, s, a, s') && n in s.annotators && n in s'.annotators && w in s'.annotators[n].queue
    ensures w in s.annotators[n].queue || (a == AnnotatorList(n) && Wanted(c, s, n, w))
  {
    match a
    case AnnotatorList(_) =>
    case AnnotatorGet(_, _) =>
    case AnnotatorPatch(_, _) =>
    case AnnotatorRestart(_) =>
    case _ => assert s'.annotators == s.annotators;
  }

  lemma StepDone(c: Config, s: State, a: Action, s': State, n: string)
    requires Quiet(c, s) && Next(c, s, a, s') && !Environment(a) && n in s'.annotators
    requires AnnotatorDone(c, s, n)
    ensures AnnotatorDone(c, s', n)
  {
    OwnSteps(c, s, a, s');
    QueueStaysFresh(c, s, a, s', n);
    forall w | Wanted(c, s', n, w) ensures Carries(s', w) {
      assert Wanted(c, s, n, w);
      if a.AnnotatorPatch? { PatchCarries(c, s, a.node, a.fault, n, w); }
    }
  }

  lemma BeginTick(c: Config, s: State, n: string, s': State)
    requires Next(c, s, AnnotatorList(n), s')
    ensures AnnotatorOnTrack(c, s', n)
  {
    assert s' == s.(annotators := s.annotators[n := Annotating(Todo(s.kubelet[n], c.resource), false)]);
    assert n in s'.annotators && s'.annotators[n].queue == Todo(s'.kubelet[n], c.resource);
    forall w | w in s'.annotators[n].queue ensures Wanted(c, s', n, w) {}
    forall w | Wanted(c, s', n, w) ensures w in s'.annotators[n].queue {}
  }

  lemma StepOnTrack(c: Config, s: State, a: Action, s': State, n: string)
    requires Quiet(c, s) && Next(c, s, a, s') && !Environment(a) && n in s'.annotators
    requires AnnotatorOnTrack(c, s, n) && !AnnotatorFails(a, n)
    ensures AnnotatorOnTrack(c, s', n)
  {
    OwnSteps(c, s, a, s');
    QueueStaysFresh(c, s, a, s', n);
    forall w | Wanted(c, s', n, w) ensures Carries(s', w) || w in s'.annotators[n].queue {
      assert Wanted(c, s, n, w);
      if a.AnnotatorPatch? { PatchCarries(c, s, a.node, a.fault, n, w); }
      OnTrackMoves(c, s, a, s', n, w);
    }
  }

  lemma OnTrackMoves(c: Config, s: State, a: Action, s': State, n: string, w: Work)
    requires Next(c, s, a, s') && !Environment(a) && n in s.annotators && n in s'.annotators && !AnnotatorFails(a, n)
    requires ReportsSane(c, s) && QueueFresh(c, s, n) && Wanted(c, s, n, w)
    requires Carries(s, w) || w in s.annotators[n].queue
    requires a.AnnotatorPatch? && Carries(s, w) ==> Carries(s', w)
    requires a.AnnotatorPatch? && a.node == n && w == s.annotators[n].queue[0] && !a.fault.Rejected? ==> Carries(s', w)
    ensures Carries(s', w) || w in s'.annotators[n].queue
  {
    OwnSteps(c, s, a, s');
    if !a.AnnotatorList? && !a.AnnotatorGet? && !a.AnnotatorPatch? {
      assert s'.annotators[n] == s.annotators[n];
    }
  }

  // ---------------------------------------------------------------- the topology

  ghost predicate AnnotationsExact(c: Config, s: State) {
    forall n | n in c.nodes :: AnnotatorDone(c, s, n)
  }

  /** A bound pod whose annotation names a device. */
  ghost predicate Claims(p: Pod) {
    p.node != "" && AssignedIds(AnnotationOf(p)) != []
  }

  /** The kubelet of the pod's node still reports devices for it. */
  ghost predicate Reported(c: Config, s: State, k: PodKey)
    requires k in s.pods
  {
    exists w :: Wanted(c, s, s.pods[k].node, w) && w.key == k
  }

  ghost predicate Stale(c: Config, s: State, k: PodKey)
    requires k in s.pods
  {
    Claims(s.pods[k]) && !Reported(c, s, k)
  }

  /** No annotation outlives its allocation: the annotator never removes one, so this is a
      condition on the cluster. */
  ghost predicate AnnotatedStillReported(c: Config, s: State) {
    forall k | k in s.pods :: !Stale(c, s, k)
  }

  ghost predicate Settled(c: Config, s: State) {
    Quiet(c, s) && AnnotationsExact(c, s) && AnnotatedStillReported(c, s)
  }

  ghost predicate Shows(top: Topology, n: string, g: string, key: PodKey) {
    exists a :: a in Entries(top, n) && a.gpuId == g && PodKey(a.podNamespace, a.podName) == key
  }

  /** The topology lists exactly the kubelets' allocations, with the containers that hold them. */
  ghost predicate Exact(c: Config, s: State, top: Topology) {
    && (forall n, g, key :: Shows(top, n, g, key) <==> Allocated(c, s, n, g, key))
    && NamesContainers(s, top)
  }

  /** Every entry names the first GPU container of its pod. */
  ghost predicate NamesContainers(s: State, top: Topology) {
    forall n, a | a in Entries(top, n) :: NamesContainer(s, a)
  }

  ghost predicate NamesContainer(s: State, a: Assignment) {
    var key := PodKey(a.podNamespace, a.podName);
    key in s.pods && a.container == FirstGpuName(s.pods[key].containers)
  }

  lemma WantedMeansAllocated(c: Config, s: State, n: string, w: Work)
    requires KubeletsOk(c, s) && Wanted(c, s, n, w)
    ensures forall g | g in AssignedIds(w.value) :: Allocated(c, s, n, g, w.key)
  {
    TodoMembers(s.kubelet[n], c.resource, w);
    var p :| p in s.kubelet[n] && HeldIds(p, c.resource) != {} &&
      w == Work(p.key, Join(Canonical(HeldIds(p, c.resource)), ','));
    assert ReportOk(c, s, n, s.kubelet[n]);
    WantRoundTrip(HeldIds(p, c.resource));
    forall g | g in AssignedIds(w.value) ensures Allocated(c, s, n, g, w.key) {
      assert Holds(c, s.kubelet[n], g, w.key);
    }
  }

  lemma AllocatedMeansWanted(c: Config, s: State, n: string, g: string, key: PodKey) returns (w: Work)
    requires KubeletsOk(c, s) && Allocated(c, s, n, g, key)
    ensures Wanted(c, s, n, w) && w.key == key && g in AssignedIds(w.value)
  {
    var p :| p in s.kubelet[n] && p.key == key && g in HeldIds(p, c.resource);
    w := Work(p.key, Join(Canonical(HeldIds(p, c.resource)), ','));
    TodoMembers(s.kubelet[n], c.resource, w);
    assert ReportOk(c, s, n, s.kubelet[n]);
    WantRoundTrip(HeldIds(p, c.resource));
  }

  /** What a settled cluster's rebuilt topology shows is allocated ... */
  lemma ShownIsAllocated(c: Config, s: State, order: seq<PodKey>, n: string, a: Assignment)
    requires Settled(c, s) && forall k | k in order :: k in s.pods
    requires a in Entries(Rebuilt(ListedIn(s.pods, order)), n)
    ensures Allocated(c, s, n, a.gpuId, PodKey(a.podNamespace, a.podName))
  {
    RebuiltFrom(s.pods, order, n, a);
    var key := PodKey(a.podNamespace, a.podName);
    var w :| Wanted(c, s, n, w) && w.key == key;
    assert AnnotatorDone(c, s, n) && Carries(s, w);
    WantedMeansAllocated(c, s, n, w);
  }

  /** ... and the other way round. */
  lemma AllocatedIsShown(c: Config, s: State, order: seq<PodKey>, n: string, g: string, key: PodKey)
    requires Settled(c, s) && (forall k :: k in order <==> k in s.pods) && Allocated(c, s, n, g, key)
    ensures Shows(Rebuilt(ListedIn(s.pods, order)), n, g, key)
  {
    var w := AllocatedMeansWanted(c, s, n, g, key);
    assert AnnotatorDone(c, s, n) && Carries(s, w);
    ListedShows(c, s, order, n, g, key);
  }

  /** A rebuild in a settled cluster is exact, whatever order the pods are listed in. */
  lemma RebuiltExact(c: Config, s: State, order: seq<PodKey>)
    requires Settled(c, s) && forall k :: k in order <==> k in s.pods
    ensures Exact(c, s, Rebuilt(ListedIn(s.pods, order)))
  {
    hide Settled, Rebuilt;
    var top := Rebuilt(ListedIn(s.pods, order));
    forall n, a | a in Entries(top, n) ensures NamesContainer(s, a) { RebuiltFrom(s.pods, order, n, a); }
    forall n, g, key ensures Shows(top, n, g, key) <==> Allocated(c, s, n, g, key) {
      if Shows(top, n, g, key) {
        var a :| a in Entries(top, n) && a.gpuId == g && PodKey(a.podNamespace, a.podName) == key;
        ShownIsAllocated(c, s, order, n, a);
      }
      if Allocated(c, s, n, g, key) { AllocatedIsShown(c, s, order, n, g, key); }
    }
  }

  /** The condition on the cluster is necessary, too: a rebuild from exact annotations shows the
      kubelets' allocations exactly when no annotation has outlived its allocation. */
  lemma RebuiltExactIff(c: Config, s: State, order: seq<PodKey>)
    requires Quiet(c, s) && AnnotationsExact(c, s) && forall k :: k in order <==> k in s.pods
    ensures Exact(c, s, Rebuilt(ListedIn(s.pods, order))) <==> AnnotatedStillReported(c, s)
  {
    if AnnotatedStillReported(c, s) { RebuiltExact(c, s, order); }
    if Exact(c, s, Rebuilt(ListedIn(s.pods, order))) {
      forall k | k in s.pods ensures !Stale(c, s, k) {
        if Claims(s.pods[k]) { ExactMeansReported(c, s, order, k); }
      }
    }
  }

  lemma ExactMeansReported(c: Config, s: State, order: seq<PodKey>, k: PodKey)
    requires KubeletsOk(c, s) && (forall k :: k in order <==> k in s.pods)
    requires Exact(c, s, Rebuilt(ListedIn(s.pods, order))) && k in s.pods && Claims(s.pods[k])
    ensures Reported(c, s, k)
  {
    var n, g := s.pods[k].node, AssignedIds(AnnotationOf(s.pods[k]))[0];
    ListedShows(c, s, order, n, g, k);
    var w := AllocatedMeansWanted(c, s, n, g, k);
    assert Wanted(c, s, n, w);
  }

  lemma ListedShows(c: Config, s: State, order: seq<PodKey>, n: string, g: string, key: PodKey)
    requires (forall k :: k in order <==> k in s.pods) && key in s.pods
    requires n != "" && s.pods[key].node == n && g in AssignedIds(AnnotationOf(s.pods[key]))
    ensures Shows(Rebuilt(ListedIn(s.pods, order)), n, g, key)
  {
    var listed := ListedIn(s.pods, order);
    assert key in order;
    var i :| 0 <= i < |order| && order[i] == key;
    var p := Listed(key, s.pods[key]);
    assert listed[i] == p;
    var ids := AssignedIds(AnnotationOf(p.pod));
    var j :| 0 <= j < |ids| && ids[j] == g;
    var a := EntriesOf(p)[j];
    RebuiltEntries(listed, n);
    NodeEntriesMembership(listed, n, a);
  }

  lemma WantedDistinct(c: Config, s: State, n: string, w: Work)
    requires KubeletsOk(c, s) && Wanted(c, s, n, w)
    ensures NoDuplicates(AssignedIds(w.value))
  {
    TodoMembers(s.kubelet[n], c.resource, w);
    var p :| p in s.kubelet[n] && HeldIds(p, c.resource) != {} &&
      w == Work(p.key, Join(Canonical(HeldIds(p, c.resource)), ','));
    assert ReportOk(c, s, n, s.kubelet[n]);
    WantRoundTrip(HeldIds(p, c.resource));
    var ids := Canonical(HeldIds(p, c.resource));
    forall i, j | 0 <= i < j < |ids| ensures ids[i] != ids[j] { LessTotal(ids[i], ids[j]); }
  }

  lemma ClaimIsWanted(c: Config, s: State, k: PodKey)
    requires Settled(c, s) && k in s.pods && Claims(s.pods[k])
    ensures NoDuplicates(AssignedIds(AnnotationOf(s.pods[k])))
    ensures forall g | g in AssignedIds(AnnotationOf(s.pods[k])) :: Allocated(c, s, s.pods[k].node, g, k)
  {
    assert Reported(c, s, k);
    var n := s.pods[k].node;
    var w :| Wanted(c, s, n, w) && w.key == k;
    assert AnnotatorDone(c, s, n) && Carries(s, w);
    WantedDistinct(c, s, n, w);
    WantedMeansAllocated(c, s, n, w);
  }

  /** The annotations of a settled cluster are exclusive, so its topology has at most one entry per
      (node, GPU) and the list order is irrelevant. */
  lemma SettledIsExclusive(c: Config, s: State, order: seq<PodKey>)
    requires Settled(c, s) && NoDuplicates(order) && forall k | k in order :: k in s.pods
    ensures Exclusive(ListedIn(s.pods, order))
  {
    hide Settled;
    var listed := ListedIn(s.pods, order);
    forall i | 0 <= i < |listed| && listed[i].pod.node != "" ensures NoDuplicates(IdsOf(listed[i])) {
      if Claims(listed[i].pod) { ClaimIsWanted(c, s, order[i]); }
    }
    forall i, j, id | 0 <= i < j < |listed| && listed[i].pod.node == listed[j].pod.node != ""
                      && id in IdsOf(listed[i]) ensures id !in IdsOf(listed[j]) {
      DisjointClaims(c, s, order[i], order[j], id);
    }
  }

  lemma DisjointClaims(c: Config, s: State, k: PodKey, l: PodKey, id: string)
    requires Settled(c, s) && k in s.pods && l in s.pods && k != l && s.pods[k].node == s.pods[l].node != ""
    requires id in AssignedIds(AnnotationOf(s.pods[k]))
    ensures id !in AssignedIds(AnnotationOf(s.pods[l]))
  {
    ClaimIsWanted(c, s, k);
    if Claims(s.pods[l]) { ClaimIsWanted(c, s, l); }
  }

  lemma ExactStays(c: Config, s: State, s': State, top: Topology)
    requires SameWorld(s, s') && Exact(c, s, top)
    ensures Exact(c, s', top)
  {
    assert forall n, g, k :: Allocated(c, s', n, g, k) <==> Allocated(c, s, n, g, k);
    forall n, a | a in Entries(top, n) ensures NamesContainer(s', a) { assert NamesContainer(s, a); }
  }

  ghost predicate AllFresh(c: Config, s: State) {
    forall n | n in c.nodes :: QueueFresh(c, s, n)
  }

  lemma StepStale(c: Config, s: State, a: Action, s': State, k: PodKey)
    requires Quiet(c, s) && AllFresh(c, s) && Next(c, s, a, s') && !Environment(a)
    requires DomainsOk(c, s) && k in s.pods && k in s'.pods
    ensures Stale(c, s', k) <==> Stale(c, s, k)
    ensures Stale(c, s, k) ==> s'.pods[k] == s.pods[k]
  {
    hide Inv, ReportsSane, NoCrossWork;
    OwnSteps(c, s, a, s');
    var n := s.pods[k].node;
    assert forall w :: Wanted(c, s', n, w) <==> Wanted(c, s, n, w);
    assert Reported(c, s', k) <==> Reported(c, s, k);
    if s'.pods[k] != s.pods[k] { PatchedIsReported(c, s, a, s', k); }
  }

  lemma PatchedIsReported(c: Config, s: State, a: Action, s': State, k: PodKey)
    requires Quiet(c, s) && AllFresh(c, s) && Next(c, s, a, s') && a.AnnotatorPatch?
    requires DomainsOk(c, s) && k in s.pods && k in s'.pods && s'.pods[k] != s.pods[k]
    ensures Reported(c, s, k)
  {
    var head := s.annotators[a.node].queue[0];
    assert head.key == k;
    assert QueueFresh(c, s, a.node) && Wanted(c, s, a.node, head);
  }

  lemma ExactIsFresh(c: Config, s: State)
    requires AnnotationsExact(c, s)
    ensures AllFresh(c, s)
  {
    forall n | n in c.nodes ensures QueueFresh(c, s, n) { assert AnnotatorDone(c, s, n); }
  }

  lemma StepFresh(c: Config, s: State, a: Action, s': State)
    requires AllFresh(c, s) && DomainsOk(c, s') && Next(c, s, a, s') && !Environment(a)
    ensures AllFresh(c, s')
  {
    hide QueueFresh;
    forall n | n in c.nodes ensures QueueFresh(c, s', n) { QueueStaysFresh(c, s, a, s', n); }
  }

  lemma StepReported(c: Config, s: State, a: Action, s': State)
    requires Quiet(c, s) && AnnotationsExact(c, s) && Inv(c, s') && Next(c, s, a, s') && !Environment(a)
    ensures Quiet(c, s') && AnnotationsExact(c, s')
    ensures AnnotatedStillReported(c, s') <==> AnnotatedStillReported(c, s)
  {
    hide Inv, Stale, Quiet;
    QuietDomains(c, s);
    InvDomains(c, s');
    OwnSteps(c, s, a, s');
    StepQuiet(c, s, a, s');
    forall n | n in c.nodes ensures AnnotatorDone(c, s', n) {
      StepDone(c, s, a, s', n);
    }
    ExactIsFresh(c, s);
    forall k | k in s.pods ensures Stale(c, s', k) <==> Stale(c, s, k) {
      StepStale(c, s, a, s', k);
    }
  }

  lemma StepSettled(c: Config, s: State, a: Action, s': State)
    requires Settled(c, s) && Inv(c, s') && Next(c, s, a, s') && !Environment(a)
    ensures Settled(c, s')
  {
    StepReported(c, s, a, s');
  }

  // ---------------------------------------------------------------- the status-updater

  ghost predicate ConfigMapExact(c: Config, s: State) {
    View(s.cm).Loaded? && Exact(c, s, View(s.cm).top)
  }

  ghost predicate UpdateExact(c: Config, s: State) {
    s.updater != Idle ==> Exact(c, s, s.updater.top)
  }

  /** During an error-free tick: the write that is still to come meets the object it was
      prepared for, and after the tick the ConfigMap is exact. */
  ghost predicate UpdaterOnTrack(c: Config, s: State) {
    && UpdateExact(c, s)
    && (s.updater.Writing? ==> !Conflict(s))
    && (s.updater.Idle? ==> ConfigMapExact(c, s))
  }

  predicate UpdaterFails(a: Action) {
    a == UpdaterGet(false) || a == UpdaterWrite(Rejected) || a == UpdaterRestart
  }

  lemma StepUpdaterOnTrack(c: Config, s: State, a: Action, s': State)
    requires Settled(c, s) && Next(c, s, a, s') && !Environment(a)
    requires a.UpdaterList? || (UpdaterOnTrack(c, s) && !UpdaterFails(a))
    ensures UpdaterOnTrack(c, s')
  {
    OwnSteps(c, s, a, s');
    if a.UpdaterList? {
      RebuiltExact(c, s, a.order);
      ExactStays(c, s, s', s'.updater.top);
    } else {
      UpdaterMoves(c, s, a, s');
      if s'.updater != Idle { ExactStays(c, s, s', s'.updater.top); }
      if s'.updater.Idle? {
        ExactStays(c, s, s', View(s'.cm).top);
      }
    }
  }

  /** What an error-free step does to the updater and the ConfigMap. */
  lemma UpdaterMoves(c: Config, s: State, a: Action, s': State)
    requires UpdaterOnTrack(c, s) && Next(c, s, a, s') && !Environment(a) && !UpdaterFails(a) && !a.UpdaterList?
    ensures s'.updater != Idle ==> s.updater != Idle && s'.updater.top == s.updater.top
    ensures s'.updater.Writing? ==> !Conflict(s')
    ensures s'.updater.Idle? ==> View(s'.cm).Loaded? && Exact(c, s, View(s'.cm).top)
  {
    UpdaterStepIs(c, s, a, s');
    if a.UpdaterGet? || a.UpdaterWrite? {
      WrittenView(s.cm, s.updater.top);
    }
    hide Next, Exact, View, Stored, Written;
  }

  ghost predicate Published(c: Config, s: State) {
    Settled(c, s) && ConfigMapExact(c, s) && UpdateExact(c, s)
  }

  lemma StepPublished(c: Config, s: State, a: Action, s': State)
    requires Published(c, s) && Inv(c, s') && Next(c, s, a, s') && !Environment(a)
    ensures Published(c, s')
  {
    OwnSteps(c, s, a, s');
    StepSettled(c, s, a, s');
    if a.UpdaterList? {
      RebuiltExact(c, s, a.order);
      ExactStays(c, s, s', s'.updater.top);
      ExactStays(c, s, s', View(s.cm).top);
    } else {
      UpdaterKeeps(c, s, a, s');
      if s'.updater != Idle { ExactStays(c, s, s', s'.updater.top); }
      ExactStays(c, s, s', View(s'.cm).top);
    }
  }

  lemma UpdaterKeeps(c: Config, s: State, a: Action, s': State)
    requires ConfigMapExact(c, s) && UpdateExact(c, s) && Next(c, s, a, s') && !Environment(a) && !a.UpdaterList?
    ensures s'.updater != Idle ==> s.updater != Idle && s'.updater.top == s.updater.top
    ensures View(s'.cm).Loaded? && Exact(c, s, View(s'.cm).top)
  {
    UpdaterStepIs(c, s, a, s');
    if a.UpdaterGet? || a.UpdaterWrite? {
      WrittenView(s.cm, s.updater.top);
    }
    hide Next, Exact, View, Stored, Written;
  }

  // ---------------------------------------------------------------- a cache

  ghost predicate FetchExact(c: Config, s: State, n: string) {
    n in s.caches && (s.caches[n].refresh.Fetching? ==> Exact(c, s, s.caches[n].refresh.top))
  }

  ghost predicate WorldExact(c: Config, s: State, n: string) {
    FetchExact(c, s, n) && Exact(c, s, s.caches[n].world.top)
  }

  lemma StepFetch(c: Config, s: State, a: Action, s': State, n: string)
    requires Published(c, s) && Next(c, s, a, s') && !Environment(a) && n in s.caches && n in s'.caches
    requires a == CacheLoad(n) || FetchExact(c, s, n)
    ensures FetchExact(c, s', n)
    ensures a == CachePublish(n) || (WorldExact(c, s, n) && a != CacheRestart(n)) ==> WorldExact(c, s', n)
  {
    OwnSteps(c, s, a, s');
    var k' := s'.caches[n];
    FetchMoves(c, s, a, s', n);
    if k'.refresh.Fetching? { ExactStays(c, s, s', k'.refresh.top); }
    if a == CachePublish(n) || (WorldExact(c, s, n) && a != CacheRestart(n)) { ExactStays(c, s, s', k'.world.top); }
  }

  lemma FetchMoves(c: Config, s: State, a: Action, s': State, n: string)
    requires Next(c, s, a, s') && n in s.caches && n in s'.caches && View(s.cm).Loaded?
    ensures var k, k' := s.caches[n], s'.caches[n];
      && (k'.refresh.Fetching? ==> if a == CacheLoad(n) then k'.refresh.top == View(s.cm).top
                                   else k.refresh.Fetching? && k'.refresh.top == k.refresh.top)
      && (if a == CachePublish(n) then k.refresh.Fetching? && k'.world.top == k.refresh.top
          else a == CacheRestart(n) || k'.world == k.world)
  {
    match a
    case CacheLoad(_) =>
    case CacheGet(_, _) =>
    case CachePublish(_) =>
    case CacheRestart(_) =>
    case _ => assert s'.caches == s.caches;
  }

  // ---------------------------------------------------------------- runs

  /** A stretch of a run without outside changes. */
  ghost predicate Undisturbed(acts: seq<Action>, from: nat) {
    forall i | from <= i < |acts| :: !Environment(acts[i])
  }

  /** An annotator's tick that starts with a List at step a and meets no failure until it has
      emptied its queue at state b. */
  ghost predicate AnnotatorTick(run: seq<State>, acts: seq<Action>, n: string, a: nat, b: nat) {
    && a < b <= |acts| && b < |run|
    && acts[a] == AnnotatorList(n) && (forall i | a <= i < b :: !AnnotatorFails(acts[i], n))
    && n in run[b].annotators && run[b].annotators[n].queue == []
  }

  ghost predicate UpdaterTick(run: seq<State>, acts: seq<Action>, a: nat, b: nat) {
    && a < b <= |acts| && b < |run|
    && acts[a].UpdaterList? && (forall i | a <= i < b :: !UpdaterFails(acts[i]))
    && run[b].updater.Idle?
  }

  ghost predicate CacheTick(acts: seq<Action>, n: string, a: nat, b: nat) {
    && a < b <= |acts|
    && acts[a] == CacheLoad(n) && acts[b - 1] == CachePublish(n) && a < b - 1
  }

  lemma {:induction false} QuietLater(c: Config, run: seq<State>, acts: seq<Action>, i: nat, k: nat)
    requires Run(c, run, acts) && i <= k < |run| && Undisturbed(acts, i) && Quiet(c, run[i])
    ensures Quiet(c, run[k])
  {
    hide Quiet;
    if i < k {
      QuietLater(c, run, acts, i, k - 1);
      QuietNext(c, run, acts, k);
    }
  }

  /** Step k of a run, taken by the pipeline itself. */
  ghost predicate OwnStep(c: Config, run: seq<State>, acts: seq<Action>, k: nat) {
    Run(c, run, acts) && 0 < k < |run| && !Environment(acts[k - 1])
  }

  lemma QuietNext(c: Config, run: seq<State>, acts: seq<Action>, k: nat)
    requires OwnStep(c, run, acts, k) && Quiet(c, run[k - 1])
    ensures Quiet(c, run[k])
  {
    Reachable(c, run, acts, k);
    assert StepAt(c, run, acts, k - 1);
    StepQuiet(c, run[k - 1], acts[k - 1], run[k]);
  }

  lemma OnTrackNext(c: Config, run: seq<State>, acts: seq<Action>, n: string, k: nat)
    requires OwnStep(c, run, acts, k) && n in c.nodes
    requires acts[k - 1] == AnnotatorList(n)
          || (Quiet(c, run[k - 1]) && AnnotatorOnTrack(c, run[k - 1], n) && !AnnotatorFails(acts[k - 1], n))
    ensures AnnotatorOnTrack(c, run[k], n)
  {
    assert StepAt(c, run, acts, k - 1);
    if acts[k - 1] == AnnotatorList(n) {
      BeginTick(c, run[k - 1], n, run[k]);
    } else {
      ReachableDomains(c, run, acts, k);
      StepOnTrack(c, run[k - 1], acts[k - 1], run[k], n);
    }
  }

  lemma DoneNext(c: Config, run: seq<State>, acts: seq<Action>, n: string, k: nat)
    requires OwnStep(c, run, acts, k) && n in c.nodes && Quiet(c, run[k - 1]) && AnnotatorDone(c, run[k - 1], n)
    ensures AnnotatorDone(c, run[k], n)
  {
    assert StepAt(c, run, acts, k - 1);
    ReachableDomains(c, run, acts, k);
    StepDone(c, run[k - 1], acts[k - 1], run[k], n);
  }

  lemma SettledNext(c: Config, run: seq<State>, acts: seq<Action>, k: nat)
    requires OwnStep(c, run, acts, k) && Settled(c, run[k - 1])
    ensures Settled(c, run[k])
  {
    Reachable(c, run, acts, k);
    assert StepAt(c, run, acts, k - 1);
    StepSettled(c, run[k - 1], acts[k - 1], run[k]);
  }

  lemma PublishedNext(c: Config, run: seq<State>, acts: seq<Action>, k: nat)
    requires OwnStep(c, run, acts, k) && Published(c, run[k - 1])
    ensures Published(c, run[k])
  {
    Reachable(c, run, acts, k);
    assert StepAt(c, run, acts, k - 1);
    StepPublished(c, run[k - 1], acts[k - 1], run[k]);
  }

  lemma FetchNext(c: Config, run: seq<State>, acts: seq<Action>, h: string, k: nat)
    requires OwnStep(c, run, acts, k) && Published(c, run[k - 1]) && h in c.nodes
    requires acts[k - 1] == CacheLoad(h) || FetchExact(c, run[k - 1], h)
    ensures FetchExact(c, run[k], h)
    ensures acts[k - 1] == CachePublish(h) || (WorldExact(c, run[k - 1], h) && acts[k - 1] != CacheRestart(h))
         ==> WorldExact(c, run[k], h)
  {
    ReachableDomains(c, run, acts, k - 1);
    ReachableDomains(c, run, acts, k);
    assert StepAt(c, run, acts, k - 1);
    StepFetch(c, run[k - 1], acts[k - 1], run[k], h);
  }

  lemma {:induction false} OnTrackLater(c: Config, run: seq<State>, acts: seq<Action>, n: string, a: nat, k: nat)
    requires Run(c, run, acts) && a < k < |run| && Undisturbed(acts, a) && Quiet(c, run[a]) && n in c.nodes
    requires acts[a] == AnnotatorList(n) && forall i | a <= i < k :: !AnnotatorFails(acts[i], n)
    ensures AnnotatorOnTrack(c, run[k], n)
  {
    hide Quiet, AnnotatorOnTrack;
    if a + 1 < k {
      OnTrackLater(c, run, acts, n, a, k - 1);
      QuietLater(c, run, acts, a, k - 1);
    }
    OnTrackNext(c, run, acts, n, k);
  }

  lemma {:induction false} DoneLater(c: Config, run: seq<State>, acts: seq<Action>, n: string, b: nat, k: nat)
    requires Run(c, run, acts) && b <= k < |run| && Undisturbed(acts, b) && Quiet(c, run[b]) && n in c.nodes
    requires AnnotatorDone(c, run[b], n)
    ensures AnnotatorDone(c, run[k], n)
  {
    hide Quiet, AnnotatorDone;
    if b < k {
      DoneLater(c, run, acts, n, b, k - 1);
      QuietLater(c, run, acts, b, k - 1);
      DoneNext(c, run, acts, n, k);
    }
  }

  ghost predicate AllAnnotatorsTicked(c: Config, run: seq<State>, acts: seq<Action>, t0: nat, t1: nat) {
    forall n | n in c.nodes :: exists a: nat, b: nat :: t0 <= a && b <= t1 && AnnotatorTick(run, acts, n, a, b)
  }

  /** Stage one: when every annotator has ticked once, all annotations are exact. */
  lemma AnnotationsConverge(c: Config, run: seq<State>, acts: seq<Action>, t0: nat, t1: nat)
    requires Run(c, run, acts) && t0 <= t1 < |run| && Undisturbed(acts, t0) && Quiet(c, run[t0])
    requires AllAnnotatorsTicked(c, run, acts, t0, t1)
    ensures Quiet(c, run[t1]) && AnnotationsExact(c, run[t1])
  {
    QuietLater(c, run, acts, t0, t1);
    forall n | n in c.nodes ensures AnnotatorDone(c, run[t1], n) {
      var a: nat, b: nat :| t0 <= a && b <= t1 && AnnotatorTick(run, acts, n, a, b);
      OneAnnotatorConverges(c, run, acts, t0, n, a, b, t1);
    }
  }

  lemma OneAnnotatorConverges(c: Config, run: seq<State>, acts: seq<Action>, t0: nat, n: string, a: nat, b: nat,
                              t1: nat)
    requires Run(c, run, acts) && t0 <= a < b <= t1 < |run| && Undisturbed(acts, t0) && Quiet(c, run[t0])
    requires n in c.nodes && AnnotatorTick(run, acts, n, a, b)
    ensures AnnotatorDone(c, run[t1], n)
  {
    hide Quiet;
    QuietLater(c, run, acts, t0, a);
    QuietLater(c, run, acts, t0, b);
    OnTrackLater(c, run, acts, n, a, b);
    DoneLater(c, run, acts, n, b, t1);
  }

  ghost predicate AllListed(c: Config, acts: seq<Action>, t0: nat, t1: nat) {
    forall n | n in c.nodes :: exists a :: t0 <= a < t1 && a < |acts| && acts[a] == AnnotatorList(n)
  }

  /** Work that is left over from a pod of the same name on another node is gone when every
      annotator has listed once. */
  lemma ListsClearCrossWork(c: Config, run: seq<State>, acts: seq<Action>, t0: nat, t1: nat)
    requires Run(c, run, acts) && t0 <= t1 < |run| && Undisturbed(acts, t0) && ReportsSane(c, run[t0])
    requires AllListed(c, acts, t0, t1)
    ensures Quiet(c, run[t1])
  {
    hide ReportsSane;
    Reachable(c, run, acts, t1);
    InvDomains(c, run[t1]);
    SaneLater(c, run, acts, t0, t1);
    forall n | n in run[t1].annotators ensures QueueFresh(c, run[t1], n) {
      var a :| t0 <= a < t1 && a < |acts| && acts[a] == AnnotatorList(n);
      FreshLater(c, run, acts, n, a, t1);
    }
    FreshGivesNoCrossWork(c, run[t1]);
  }

  lemma {:induction false} SaneLater(c: Config, run: seq<State>, acts: seq<Action>, i: nat, k: nat)
    requires Run(c, run, acts) && i <= k < |run| && Undisturbed(acts, i) && ReportsSane(c, run[i])
    ensures ReportsSane(c, run[k])
  {
    hide ReportsSane;
    if i < k {
      SaneLater(c, run, acts, i, k - 1);
      assert StepAt(c, run, acts, k - 1);
      OwnSteps(c, run[k - 1], acts[k - 1], run[k]);
      SaneStays(c, run[k - 1], run[k]);
    }
  }

  lemma {:induction false} FreshLater(c: Config, run: seq<State>, acts: seq<Action>, n: string, a: nat, k: nat)
    requires Run(c, run, acts) && a < k < |run| && Undisturbed(acts, a) && n in c.nodes && acts[a] == AnnotatorList(n)
    ensures QueueFresh(c, run[k], n)
  {
    hide QueueFresh;
    assert StepAt(c, run, acts, k - 1);
    if a + 1 < k {
      FreshLater(c, run, acts, n, a, k - 1);
      ReachableDomains(c, run, acts, k);
      QueueStaysFresh(c, run[k - 1], acts[k - 1], run[k], n);
    } else {
      BeginTick(c, run[a], n, run[k]);
    }
  }

  lemma {:induction false} ReportedLater(c: Config, run: seq<State>, acts: seq<Action>, i: nat, k: nat)
    requires Run(c, run, acts) && i <= k < |run| && Undisturbed(acts, i)
    requires Quiet(c, run[i]) && AnnotationsExact(c, run[i])
    ensures Quiet(c, run[k]) && AnnotationsExact(c, run[k])
    ensures AnnotatedStillReported(c, run[k]) <==> AnnotatedStillReported(c, run[i])
  {
    hide Quiet, AnnotationsExact, AnnotatedStillReported;
    if i < k {
      ReportedLater(c, run, acts, i, k - 1);
      Reachable(c, run, acts, k);
      assert StepAt(c, run, acts, k - 1);
      StepReported(c, run[k - 1], acts[k - 1], run[k]);
    }
  }

  /** An annotation that has outlived its allocation stays for as long as only the pipeline acts. */
  lemma {:induction false} StaleLater(c: Config, run: seq<State>, acts: seq<Action>, i: nat, k: nat, p: PodKey)
    requires Run(c, run, acts) && i <= k < |run| && Undisturbed(acts, i)
    requires Quiet(c, run[i]) && AllFresh(c, run[i]) && p in run[i].pods && Stale(c, run[i], p)
    ensures Quiet(c, run[k]) && AllFresh(c, run[k])
    ensures p in run[k].pods && Stale(c, run[k], p) && run[k].pods[p] == run[i].pods[p]
  {
    hide Quiet, AllFresh, Stale;
    if i < k {
      StaleLater(c, run, acts, i, k - 1, p);
      StaleNext(c, run, acts, k, p);
    }
  }

  lemma StaleNext(c: Config, run: seq<State>, acts: seq<Action>, k: nat, p: PodKey)
    requires OwnStep(c, run, acts, k) && Quiet(c, run[k - 1]) && AllFresh(c, run[k - 1])
    requires p in run[k - 1].pods && Stale(c, run[k - 1], p)
    ensures Quiet(c, run[k]) && AllFresh(c, run[k])
    ensures p in run[k].pods && Stale(c, run[k], p) && run[k].pods[p] == run[k - 1].pods[p]
  {
    hide Quiet, AllFresh, Stale, Inv, DomainsOk;
    Reachable(c, run, acts, k);
    ReachableDomains(c, run, acts, k - 1);
    ReachableDomains(c, run, acts, k);
    assert StepAt(c, run, acts, k - 1);
    hide Run, Next;
    StaysStale(c, run[k - 1], acts[k - 1], run[k], p);
  }

  lemma StaysStale(c: Config, s: State, a: Action, s': State, p: PodKey)
    requires Quiet(c, s) && AllFresh(c, s) && DomainsOk(c, s) && DomainsOk(c, s') && Inv(c, s')
    requires Next(c, s, a, s') && !Environment(a) && p in s.pods && Stale(c, s, p)
    ensures Quiet(c, s') && AllFresh(c, s') && p in s'.pods && Stale(c, s', p) && s'.pods[p] == s.pods[p]
  {
    hide Next, Quiet, AllFresh, Stale, Inv, DomainsOk;
    OwnSteps(c, s, a, s');
    StepQuiet(c, s, a, s');
    StepFresh(c, s, a, s');
    StepStale(c, s, a, s', p);
  }

  /** The annotator never removes an annotation, so without outside help one that has outlived its
      allocation stays: once the annotators have done what they can, either every later rebuild
      is exact or none ever is, and a look at the cluster tells which. */
  lemma ExactOrNever(c: Config, run: seq<State>, acts: seq<Action>, t1: nat, k: nat, order: seq<PodKey>)
    requires Run(c, run, acts) && t1 <= k < |run| && Undisturbed(acts, t1)
    requires Quiet(c, run[t1]) && AnnotationsExact(c, run[t1])
    requires forall p :: p in order <==> p in run[k].pods
    ensures Exact(c, run[k], Rebuilt(ListedIn(run[k].pods, order))) <==> AnnotatedStillReported(c, run[t1])
  {
    ReportedLater(c, run, acts, t1, k);
    RebuiltExactIff(c, run[k], order);
  }

  lemma {:induction false} SettledLater(c: Config, run: seq<State>, acts: seq<Action>, i: nat, k: nat)
    requires Run(c, run, acts) && i <= k < |run| && Undisturbed(acts, i) && Settled(c, run[i])
    ensures Settled(c, run[k])
  {
    hide Settled;
    if i < k {
      SettledLater(c, run, acts, i, k - 1);
      SettledNext(c, run, acts, k);
    }
  }

  lemma {:induction false} UpdaterOnTrackLater(c: Config, run: seq<State>, acts: seq<Action>, a: nat, k: nat)
    requires Run(c, run, acts) && a < k < |run| && Undisturbed(acts, a) && Settled(c, run[a])
    requires acts[a].UpdaterList? && forall i | a <= i < k :: !UpdaterFails(acts[i])
    ensures UpdaterOnTrack(c, run[k])
  {
    hide Settled, UpdaterOnTrack;
    if a + 1 < k { UpdaterOnTrackLater(c, run, acts, a, k - 1); }
    SettledLater(c, run, acts, a, k - 1);
    assert StepAt(c, run, acts, k - 1);
    StepUpdaterOnTrack(c, run[k - 1], acts[k - 1], run[k]);
  }

  lemma {:induction false} PublishedLater(c: Config, run: seq<State>, acts: seq<Action>, i: nat, k: nat)
    requires Run(c, run, acts) && i <= k < |run| && Undisturbed(acts, i) && Published(c, run[i])
    ensures Published(c, run[k])
  {
    hide Published;
    if i < k {
      PublishedLater(c, run, acts, i, k - 1);
      PublishedNext(c, run, acts, k);
    }
  }

  /** Stage two: one tick of the status-updater then makes the ConfigMap exact. */
  lemma ConfigMapConverges(c: Config, run: seq<State>, acts: seq<Action>, t1: nat, t2: nat, a: nat, b: nat)
    requires Run(c, run, acts) && t1 <= a < b <= t2 < |run| && Undisturbed(acts, t1) && Settled(c, run[t1])
    requires UpdaterTick(run, acts, a, b)
    ensures Published(c, run[t2])
  {
    SettledLater(c, run, acts, t1, a);
    SettledLater(c, run, acts, t1, b);
    UpdaterOnTrackLater(c, run, acts, a, b);
    PublishedLater(c, run, acts, b, t2);
  }

  lemma {:induction false} FetchLater(c: Config, run: seq<State>, acts: seq<Action>, h: string, a: nat, k: nat)
    requires Run(c, run, acts) && a < k < |run| && Undisturbed(acts, a) && Published(c, run[a]) && h in c.nodes
    requires acts[a] == CacheLoad(h)
    ensures FetchExact(c, run[k], h)
    ensures acts[k - 1] == CachePublish(h) ==> WorldExact(c, run[k], h)
  {
    hide Published, FetchExact, WorldExact;
    if a + 1 < k { FetchLater(c, run, acts, h, a, k - 1); }
    PublishedLater(c, run, acts, a, k - 1);
    FetchNext(c, run, acts, h, k);
  }

  lemma {:induction false} WorldLater(c: Config, run: seq<State>, acts: seq<Action>, h: string, i: nat, k: nat)
    requires Run(c, run, acts) && i <= k < |run| && Undisturbed(acts, i) && Published(c, run[i]) && h in c.nodes
    requires WorldExact(c, run[i], h) && forall m | i <= m < k :: acts[m] != CacheRestart(h)
    ensures WorldExact(c, run[k], h)
  {
    hide Published;
    if i < k {
      WorldLater(c, run, acts, h, i, k - 1);
      PublishedLater(c, run, acts, i, k - 1);
      FetchNext(c, run, acts, h, k);
    }
  }

  /** The rows of a node are exact: a GPU shows a pod, and the container of it that asks for GPUs,
      exactly when the kubelet has it allocated to that pod, and is idle when it has it allocated to
      nobody. */
  ghost predicate RowExact(c: Config, s: State, h: string, g: GPU, d: Draws)
    requires h in s.caches
  {
    var row := Row(s.caches[h].world, g, h, d);
    var busy := Find(Entries(s.caches[h].world.top, h), g.id).Some?;
    && (busy <==> exists key :: Allocated(c, s, h, g.id, key))
    && row.gpu == g && row.hostname == h
    && (!busy ==> row == IdleRow(g, h) && ReadsIdle(g, row))
    && (forall key | Allocated(c, s, h, g.id, key) :: PodKey(row.namespace, row.pod) == key
          && key in s.pods && row.container == FirstGpuName(s.pods[key].containers))
  }

  lemma WorldExactRows(c: Config, s: State, h: string, g: GPU, d: Draws)
    requires Quiet(c, s) && WorldExact(c, s, h)
    ensures RowExact(c, s, h, g, d)
  {
    var top := s.caches[h].world.top;
    var found := Find(Entries(top, h), g.id);
    RowMeans(s.caches[h].world, g, h, d);
    hide Row, ReadsWithin, ReadsIdle;
    if found.Some? {
      assert NamesContainer(s, found.value);
      var key := PodKey(found.value.podNamespace, found.value.podName);
      assert Shows(top, h, g.id, key);
      assert Allocated(c, s, h, g.id, key);
    }
    forall key | Allocated(c, s, h, g.id, key) ensures found.Some? {
      assert Shows(top, h, g.id, key);
    }
  }

  ghost function AllocatedIds(c: Config, s: State, h: string): set<string>
    requires h in s.kubelet
  {
    set p, id | p in s.kubelet[h] && id in HeldIds(p, c.resource) :: id
  }

  /** Of the rows that the sampler returns, as many carry a pod as devices are allocated, provided
      that the exporter enumerates at least these devices, and each once. */
  lemma BusyRowsCount(c: Config, s: State, h: string, gpus: seq<GPU>, rng: nat -> Draws, rows: seq<Snapshot>)
    requires WorldExact(c, s, h) && h in s.kubelet && NamedHolders(c, s, h)
    requires Sampled(s.caches[h].world, h, gpus, rng, rows) && NoDuplicates(Ids(gpus))
    requires forall id | id in AllocatedIds(c, s, h) :: id in Ids(gpus)
    ensures Carrying(rows) == |AllocatedIds(c, s, h)|
  {
    var entries := Entries(s.caches[h].world.top, h);
    forall a | a in entries ensures a.podName != "" {
      var key := PodKey(a.podNamespace, a.podName);
      assert Shows(s.caches[h].world.top, h, a.gpuId, key);
      assert Allocated(c, s, h, a.gpuId, key);
    }
    CarryingIsBusy(s.caches[h].world, h, gpus, rng, rows);
    var busy := BusyIds(entries, Ids(gpus));
    BusyIdsMembers(entries, Ids(gpus));
    DistinctCount(busy);
    forall id ensures id in busy <==> id in AllocatedIds(c, s, h) {
      ListedIffAllocated(c, s, h, id);
    }
    assert (set x | x in busy) == AllocatedIds(c, s, h);
  }

  /** Pods have names, and namespaces have no slash. */
  ghost predicate NamedHolders(c: Config, s: State, h: string) {
    forall g, key | Allocated(c, s, h, g, key) :: key.name != "" && '/' !in key.namespace
  }

  lemma ListedIffAllocated(c: Config, s: State, h: string, id: string)
    requires WorldExact(c, s, h) && h in s.kubelet
    ensures id in EntryIds(Entries(s.caches[h].world.top, h)) <==> id in AllocatedIds(c, s, h)
  {
    var top := s.caches[h].world.top;
    var entries := Entries(top, h);
    if id in EntryIds(entries) {
      var i :| 0 <= i < |entries| && EntryIds(entries)[i] == id;
      var key := PodKey(entries[i].podNamespace, entries[i].podName);
      assert Shows(top, h, id, key);
      assert Allocated(c, s, h, id, key);
    }
    if id in AllocatedIds(c, s, h) {
      var p :| p in s.kubelet[h] && id in HeldIds(p, c.resource);
      assert Holds(c, s.kubelet[h], id, p.key);
      assert Allocated(c, s, h, id, p.key) && Shows(top, h, id, p.key);
      var a :| a in entries && a.gpuId == id;
      var i :| 0 <= i < |entries| && entries[i] == a;
      assert EntryIds(entries)[i] == id;
    }
  }

  /** Convergence. Take any run whose environment rests from t0 on, with sane kubelet reports and no
      contradicting work for another node's pod in an annotator's queue. If every annotator completes
      an error-free tick between t0 and t1, no annotation outlives its allocation, the
      status-updater completes one between t1 and t2, and the cache of h one after t2, then at t3 -
      and, t3 being arbitrary, from then on - every row of h is exact and as many of the sampled rows
      carry a pod as devices are allocated. All other steps, failures and restarts of the pipeline may
      interleave freely; only h's exporter must not lose its memory. */
  lemma Convergence(c: Config, run: seq<State>, acts: seq<Action>, t0: nat, t1: nat, t2: nat, t3: nat,
                    a: nat, b: nat, h: string, e: nat, f: nat, gpus: seq<GPU>, rng: nat -> Draws, rows: seq<Snapshot>)
    requires Run(c, run, acts) && t0 <= t1 <= t2 <= t3 < |run| && Undisturbed(acts, t0)
    requires ReportsSane(c, run[t0]) && NoCrossWork(c, run[t0])
    requires AllAnnotatorsTicked(c, run, acts, t0, t1) && AnnotatedStillReported(c, run[t1])
    requires t1 <= a && b <= t2 && UpdaterTick(run, acts, a, b)
    requires h in c.nodes && t2 <= e && f <= t3 && CacheTick(acts, h, e, f)
    requires forall m | f <= m < t3 :: acts[m] != CacheRestart(h)
    requires h in run[t3].caches && Sampled(run[t3].caches[h].world, h, gpus, rng, rows) && NoDuplicates(Ids(gpus))
    ensures h in run[t3].kubelet && forall g, d | g in gpus :: RowExact(c, run[t3], h, g, d)
    ensures NamedHolders(c, run[t3], h) && (forall id | id in AllocatedIds(c, run[t3], h) :: id in Ids(gpus)) ==>
      Carrying(rows) == |AllocatedIds(c, run[t3], h)|
  {
    hide ReportsSane, NoCrossWork, ConfigMapExact, UpdateExact, FetchExact, WorldExact, Inv, Sampled;
    Reachable(c, run, acts, t0);
    AnnotationsConverge(c, run, acts, t0, t1);
    assert Settled(c, run[t1]);
    ConfigMapConverges(c, run, acts, t1, t2, a, b);
    CacheConverges(c, run, acts, t2, t3, h, e, f);
    ReachableDomains(c, run, acts, t3);
    forall g, d | g in gpus ensures RowExact(c, run[t3], h, g, d) {
      WorldExactRows(c, run[t3], h, g, d);
    }
    if NamedHolders(c, run[t3], h) && forall id | id in AllocatedIds(c, run[t3], h) :: id in Ids(gpus) {
      BusyRowsCount(c, run[t3], h, gpus, rng, rows);
    }
  }

  /** Stage three: one tick of a cache then makes what it shows exact. */
  lemma CacheConverges(c: Config, run: seq<State>, acts: seq<Action>, t2: nat, t3: nat, h: string, e: nat, f: nat)
    requires Run(c, run, acts) && t2 <= t3 < |run| && Undisturbed(acts, t2) && Published(c, run[t2])
    requires h in c.nodes && t2 <= e && f <= t3 && CacheTick(acts, h, e, f)
    requires forall m | f <= m < t3 :: acts[m] != CacheRestart(h)
    ensures Quiet(c, run[t3]) && WorldExact(c, run[t3], h)
  {
    PublishedLater(c, run, acts, t2, e);
    PublishedLater(c, run, acts, t2, f);
    FetchLater(c, run, acts, h, e, f);
    WorldLater(c, run, acts, h, f, t3);
    PublishedLater(c, run, acts, t2, t3);
  }
}
