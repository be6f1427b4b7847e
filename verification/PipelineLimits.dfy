/** Where the pipeline's attributions go wrong, and exactly when. */
module PipelineLimits {
  import opened Text
  import opened Cluster
  import opened Topology
  import opened Annotator
  import opened StatusUpdater
  import opened Exporter
  import opened Simulate
  import opened Pipeline
  import opened PipelineSafety
  import opened PipelineConvergence
  import opened PipelineProgress

  // ---------------------------------------------------------------- left-over work

  /** Every annotator completes an error-free tick on the way from t to t'. */
  ghost predicate AllTicked(c: Config, t: Trace, t': Trace)
    requires Valid(c, t')
  {
    AllAnnotatorsTicked(c, t'.run, t'.acts, |t.acts|, |t'.acts|)
  }

  /** The annotations are exact at the end of every undisturbed continuation in which all annotators
      tick, whatever else happens on the way. */
  ghost predicate AlwaysConverges(c: Config, t: Trace) {
    forall t' | Rests(c, t, t') && AllTicked(c, t, t') :: AnnotationsExact(c, Last(t'))
  }

  /** Ticks of all annotators are enough exactly when no annotator holds contradicting work for
      another node's pod at the start. */
  lemma ConvergesExactlyWithoutCrossWork(c: Config, t: Trace)
    requires Valid(c, t) && ReportsSane(c, Last(t))
    ensures AlwaysConverges(c, t) <==> NoCrossWork(c, Last(t))
  {
    hide Run, ReportsSane, CrossWork, AllAnnotatorsTicked, AnnotationsExact;
    if NoCrossWork(c, Last(t)) {
      forall t' | Rests(c, t, t') && AllTicked(c, t, t') ensures AnnotationsExact(c, Last(t')) {
        TicksSuffice(c, t, t');
      }
    } else {
      var m, v, n, w :| CrossWork(c, Last(t), m, v, n, w);
      var t' := CrossWorkBreaks(c, t, m, v, n, w);
      assert Rests(c, t, t') && AllTicked(c, t, t') && !AnnotationsExact(c, Last(t'));
    }
  }

  lemma TicksSuffice(c: Config, t: Trace, t': Trace)
    requires Rests(c, t, t') && ReportsSane(c, Last(t)) && NoCrossWork(c, Last(t)) && AllTicked(c, t, t')
    ensures AnnotationsExact(c, Last(t'))
  {
    SaneIsQuiet(c, t);
    hide Run, ReportsSane, NoCrossWork, Quiet, AllAnnotatorsTicked, AnnotationsExact;
    assert t'.run[|t.acts|] == Last(t) && t'.run[|t'.acts|] == Last(t');
    AnnotationsConverge(c, t'.run, t'.acts, |t.acts|, |t'.acts|);
  }

  lemma SaneIsQuiet(c: Config, t: Trace)
    requires Valid(c, t) && ReportsSane(c, Last(t)) && NoCrossWork(c, Last(t))
    ensures Quiet(c, Last(t))
  {
    hide Run, ReportsSane, NoCrossWork, Inv;
    Reachable(c, t.run, t.acts, |t.acts|);
  }

  lemma HeadApplied(c: Config, t: Trace, m: string) returns (t': Trace)
    requires Valid(c, t) && m in c.nodes && m in Last(t).annotators && Last(t).annotators[m].queue != []
    requires Last(t).annotators[m].queue[0].key in Last(t).pods
    ensures Continues(c, t, t') && OthersKept(Last(t), Last(t'), {m})
    ensures var v := Last(t).annotators[m].queue[0];
            m in Last(t').annotators && v.key in Last(t').pods && AnnotationOf(Last(t').pods[v.key]) == v.value
    decreases Pending(Last(t).annotators[m])
  {
    hide Enabled, Step, Clean, Run, AnnotationOf;
    LogNonEmpty(c, t);
    AnnotatorAdvances(c, Last(t), m);
    t' := OneMore(c, t, NextOf(Last(t).annotators[m], m));
    if Last(t').annotators[m].queue == Last(t).annotators[m].queue {
      var u := t';
      t' := HeadApplied(c, u, m);
      ContinuesTransitive(c, t, u, t');
    }
  }

  /** An annotator can work on its queue until it has dealt with v. */
  lemma {:induction false} DrainThrough(c: Config, t: Trace, m: string, v: Work) returns (t': Trace)
    requires Valid(c, t) && m in c.nodes && m in Last(t).annotators && v in Last(t).annotators[m].queue &&
             v.key in Last(t).pods
    ensures Continues(c, t, t') && OthersKept(Last(t), Last(t'), {m})
    ensures m in Last(t').annotators && v.key in Last(t').pods && AnnotationOf(Last(t').pods[v.key]) == v.value
    decreases Pending(Last(t).annotators[m])
  {
    hide Enabled, Step, Clean, Run, AnnotationOf;
    if Last(t).annotators[m].queue[0] == v {
      t' := HeadApplied(c, t, m);
    } else {
      LogNonEmpty(c, t);
      AnnotatorAdvances(c, Last(t), m);
      var u := OneMore(c, t, NextOf(Last(t).annotators[m], m));
      t' := DrainThrough(c, u, m, v);
      ContinuesTransitive(c, t, u, t');
    }
  }

  lemma Restart(c: Config, t: Trace, m: string) returns (t': Trace)
    requires Valid(c, t) && m in Last(t).annotators
    ensures Rests(c, t, t') && OthersKept(Last(t), Last(t'), {m}) && Last(t').pods == Last(t).pods
    ensures m in Last(t').annotators && Last(t').annotators[m].queue == []
  {
    LogNonEmpty(c, t);
    RestartStep(c, Last(t), m);
    hide Enabled, Step, Run;
    t' := Append(c, t, AnnotatorRestart(m));
  }

  lemma RestartStep(c: Config, s: State, m: string)
    requires |s.log| > 0 && m in s.annotators
    ensures Enabled(c, s, AnnotatorRestart(m))
    ensures var s' := Step(c, s, AnnotatorRestart(m));
            OthersKept(s, s', {m}) && s'.pods == s.pods && s'.annotators[m].queue == []
  {
  }

  lemma SameWorldLater(c: Config, t: Trace, t': Trace)
    requires Rests(c, t, t')
    ensures SameWorld(Last(t), Last(t'))
  {
    assert t'.run[|t.acts|] == Last(t);
    SameWorldAt(c, t'.run, t'.acts, |t.acts|, |t'.acts|);
  }

  lemma {:induction false} SameWorldAt(c: Config, run: seq<State>, acts: seq<Action>, i: nat, k: nat)
    requires Run(c, run, acts) && i <= k < |run| && Undisturbed(acts, i)
    ensures SameWorld(run[i], run[k])
  {
    if i < k {
      SameWorldAt(c, run, acts, i, k - 1);
      assert StepAt(c, run, acts, k - 1);
      OwnSteps(c, run[k - 1], acts[k - 1], run[k]);
    }
  }

  /** From a state with contradicting left-over work: the annotator that wants the pod completes its
      tick, then the other one applies the left-over, restarts and completes its own tick. */
  lemma CrossWorkBreaks(c: Config, t: Trace, m: string, v: Work, n: string, w: Work) returns (t': Trace)
    requires Valid(c, t) && ReportsSane(c, Last(t)) && CrossWork(c, Last(t), m, v, n, w)
    ensures Rests(c, t, t') && AllTicked(c, t, t') && SameWorld(Last(t), Last(t'))
    ensures w.key in Last(t').pods && AnnotationOf(Last(t').pods[w.key]) == v.value
    ensures !AnnotationsExact(c, Last(t'))
  {
    hide Run, AnnotationOf, AllAnnotatorsTicked;
    LogNonEmpty(c, t);
    var others := c.nodes - {m};
    var u1 := DrainAll(c, t, others);
    var u2 := TickAll(c, u1, others);
    ContinuesTransitive(c, t, u1, u2);
    CleanIsOwn(c, t, u2);
    SameWorldLater(c, t, u2);
    LogNonEmpty(c, u2);
    assert w.key in Last(t).pods;
    t' := MisledTail(c, t, u2, m, v, n, w);
    forall k | k in c.nodes ensures Ticked(t', k, |t.acts|) {
      if k != m {
        assert Ticked(u2, k, |u1.acts|);
        TickedSooner(u2, k, |u1.acts|, |t.acts|);
        TickedLater(c, u2, t', k, |t.acts|);
      }
    }
    TickedMeans(c, t, t');
    NotExact(c, t, t', n, w);
  }

  lemma TickedSooner(t: Trace, n: string, from: nat, sooner: nat)
    requires Ticked(t, n, from) && sooner <= from
    ensures Ticked(t, n, sooner)
  {
    var a: nat, b: nat :| from <= a && b <= |t.acts| && AnnotatorTick(t.run, t.acts, n, a, b);
    assert sooner <= a;
  }

  lemma TickedMeans(c: Config, t: Trace, t': Trace)
    requires Valid(c, t') && forall n | n in c.nodes :: Ticked(t', n, |t.acts|)
    ensures AllTicked(c, t, t')
  {
    hide AnnotatorTick, Run;
    forall n | n in c.nodes
      ensures exists a: nat, b: nat :: |t.acts| <= a && b <= |t'.acts| && AnnotatorTick(t'.run, t'.acts, n, a, b)
    {
      assert Ticked(t', n, |t.acts|);
    }
  }

  lemma MisledTail(c: Config, t: Trace, u: Trace, m: string, v: Work, n: string, w: Work) returns (t': Trace)
    requires Rests(c, t, u) && SameWorld(Last(t), Last(u)) && ReportsSane(c, Last(t)) &&
             CrossWork(c, Last(t), m, v, n, w)
    requires m in c.nodes && m in Last(u).annotators && Last(u).annotators[m] == Last(t).annotators[m]
    ensures Rests(c, t, t') && Rests(c, u, t') && SameWorld(Last(t), Last(t')) && Ticked(t', m, |t.acts|)
    ensures w.key in Last(t').pods && AnnotationOf(Last(t').pods[w.key]) == v.value
  {
    hide Run, AnnotationOf, AnnotatorTick;
    var u1 := DrainThrough(c, u, m, v);
    CleanIsOwn(c, u, u1);
    var u2 := Restart(c, u1, m);
    RestsTransitive(c, u, u1, u2);
    RestsTransitive(c, t, u, u2);
    SameWorldLater(c, t, u2);
    NotWantedHere(c, Last(t), Last(u2), m, n, w);
    t' := Tick(c, u2, m);
    CleanIsOwn(c, u2, t');
    RestsTransitive(c, u, u2, t');
    RestsTransitive(c, t, u2, t');
    SameWorldLater(c, t, t');
  }

  lemma NotWantedHere(c: Config, s: State, s': State, m: string, n: string, w: Work)
    requires ReportsSane(c, s) && SameWorld(s, s') && Wanted(c, s, n, w) && m != n
    ensures forall x | Wanted(c, s', m, x) :: x.key != w.key
  {
    assert forall x :: Wanted(c, s', m, x) <==> Wanted(c, s, m, x);
  }

  lemma NotExact(c: Config, t: Trace, t': Trace, n: string, w: Work)
    requires Valid(c, t) && Valid(c, t') && SameWorld(Last(t), Last(t')) && Wanted(c, Last(t), n, w) && n in c.nodes
    requires !Carries(Last(t'), w)
    ensures !AnnotationsExact(c, Last(t'))
  {
    assert Wanted(c, Last(t'), n, w) && !AnnotatorDone(c, Last(t'), n);
  }

  // ---------------------------------------------------------------- from an annotation to a row

  /** What a scrape of h says about GPU g. */
  ghost predicate RowNames(s: State, h: string, g: GPU, key: PodKey) {
    h in s.caches && forall d :: var row := Row(s.caches[h].world, g, h, d); PodKey(row.namespace, row.pod) == key
  }

  lemma {:induction false} FirstEntries(pods: seq<Listed>, node: string)
    requires |pods| > 0 && pods[0].pod.node == node != ""
    ensures EntriesOf(pods[0]) <= NodeEntries(pods, node)
  {
    if |pods| > 1 {
      assert pods[..|pods| - 1][0] == pods[0];
      FirstEntries(pods[..|pods| - 1], node);
    }
  }

  lemma {:induction false} FindInPrefix(es: seq<Assignment>, more: seq<Assignment>, g: string)
    requires es <= more && exists a :: a in es && a.gpuId == g
    ensures Find(more, g).Some? && Find(more, g).value in es
  {
    if es[0].gpuId != g {
      assert es == [es[0]] + es[1..] && more[1..] == es[1..] + more[|es|..];
      FindInPrefix(es[1..], more[1..], g);
    }
  }

  /** The pod that is listed first gets its device. */
  lemma FirstListedWins(pods: seq<Listed>, node: string, g: string)
    requires |pods| > 0 && pods[0].pod.node == node != "" && g in IdsOf(pods[0])
    ensures var found := Find(Entries(Rebuilt(pods), node), g);
            found.Some? && PodKey(found.value.podNamespace, found.value.podName) == pods[0].key
  {
    RebuiltEntries(pods, node);
    FirstEntries(pods, node);
    var ids := IdsOf(pods[0]);
    var j :| 0 <= j < |ids| && ids[j] == g;
    assert EntriesOf(pods[0])[j].gpuId == g;
    FindInPrefix(EntriesOf(pods[0]), NodeEntries(pods, node), g);
    EntryFrom(pods[0], Find(NodeEntries(pods, node), g).value);
  }

  lemma WorldRow(s: State, h: string, g: GPU, key: PodKey)
    requires h in s.caches
    requires var found := Find(Entries(s.caches[h].world.top, h), g.id);
             found.Some? && PodKey(found.value.podNamespace, found.value.podName) == key
    ensures RowNames(s, h, g, key)
  {
  }

  lemma OrderFrom(keys: set<PodKey>, first: PodKey) returns (order: seq<PodKey>)
    requires first in keys
    ensures NoDuplicates(order) && (forall k :: k in order <==> k in keys) && |order| > 0 && order[0] == first
  {
    var rest := OrderOf(keys - {first});
    order := [first] + rest;
  }

  /** Whatever device an annotation of a bound pod names, right or wrong: a tick of the status-updater
      and one of the node's cache, both error-free, can make the node's row for it name that pod. */
  lemma AnnotationShown(c: Config, t: Trace, k: PodKey, g: GPU) returns (t': Trace, t2: nat, a: nat)
    requires Valid(c, t) && k in Last(t).pods && Last(t).pods[k].node in c.nodes
    requires g.id in AssignedIds(AnnotationOf(Last(t).pods[k]))
    ensures Continues(c, t, t') && ClusterKept(Last(t), Last(t')) && RowNames(Last(t'), Last(t).pods[k].node, g, k)
    ensures |t.acts| <= a && t2 < |t'.run| && UpdaterTick(t'.run, t'.acts, a, t2) &&
            Refreshed(t', Last(t).pods[k].node, t2)
  {
    var h := Last(t).pods[k].node;
    LogNonEmpty(c, t);
    assert h != "";
    hide Run, AssignedIds, AnnotationOf, Rebuilt, UpdaterTick, Refreshed, DomainsOk;
    var order := OrderFrom(Last(t).pods.Keys, k);
    var u, b := UpdateOnce(c, t, order);
    a, t2 := b, |u.acts|;
    FirstListedWins(ListedIn(Last(t).pods, order), h, g.id);
    t' := RefreshTo(c, u, h);
    ContinuesTransitive(c, t, u, t');
    WorldRow(Last(t'), h, g, k);
    TickStays(c, u, t', a, t2);
  }

  lemma TickStays(c: Config, u: Trace, t: Trace, a: nat, b: nat)
    requires Continues(c, u, t) && UpdaterTick(u.run, u.acts, a, b)
    ensures UpdaterTick(t.run, t.acts, a, b) && b < |t.run|
  {
  }

  // ---------------------------------------------------------------- two runs that go wrong

  const A := "node-a"
  const B := "node-b"
  const K := PodKey("default", "web-0")
  const L := PodKey("default", "web-1")

  function Report(c: Config, key: PodKey, id: string): seq<PodResources> {
    [PodResources(key, [[Device(c.resource, [id])]])]
  }

  /** What one reported pod with one device asks for. */
  lemma ReportWanted(c: Config, key: PodKey, id: string)
    ensures forall k, g :: Holds(c, Report(c, key, id), g, k) <==> k == key && g == id
    ensures Todo(Report(c, key, id), c.resource) == [Work(key, id)]
  {
    var p := PodResources(key, [[Device(c.resource, [id])]]);
    var d := Device(c.resource, [id]);
    assert [d] in p.containers && d in [d] && id in d.ids;
    assert HeldIds(p, c.resource) == {id};
    assert Enumerates([id], {id});
    EnumerationUnique([id], Canonical({id}), {id});
    assert Report(c, key, id)[0] == p && Report(c, key, id)[1..] == [];
    assert Todo([], c.resource) == [];
    assert p in Report(c, key, id);
  }

  ghost function Start(c: Config): State {
    State(map n | n in c.nodes :: [], map[], None, map n | n in c.nodes :: Annotating([], false), Updating.Idle,
          map n | n in c.nodes :: CacheState(EMPTY_WORLD, None, Resting), {}, {}, [Loaded(map[])])
  }

  lemma StartTrace(c: Config) returns (t: Trace)
    requires "" !in c.nodes
    ensures Valid(c, t) && t.acts == [] && Last(t) == Start(c)
  {
    t := Trace([Start(c)], []);
  }

  /** A trace whose last state has the given pods, reports and queues. */
  ghost predicate At(c: Config, t: Trace, pods: map<PodKey, Pod>, kubelet: map<string, seq<PodResources>>,
                     queues: map<string, Annotating>) {
    Valid(c, t) && Last(t).pods == pods && Last(t).kubelet == kubelet && Last(t).annotators == queues
  }

  lemma Put(c: Config, t: Trace, key: PodKey, node: string) returns (t': Trace)
    requires Valid(c, t) && key !in Last(t).pods
    ensures At(c, t', Last(t).pods[key := Pod(node, map[], [])], Last(t).kubelet, Last(t).annotators)
  {
    LogNonEmpty(c, t);
    t' := Append(c, t, PutPod(key, Pod(node, map[], [])));
  }

  lemma Remove(c: Config, t: Trace, key: PodKey) returns (t': Trace)
    requires Valid(c, t)
    ensures At(c, t', Last(t).pods - {key}, Last(t).kubelet, Last(t).annotators)
  {
    LogNonEmpty(c, t);
    t' := Append(c, t, RemovePod(key));
  }

  lemma Give(c: Config, t: Trace, node: string, report: seq<PodResources>) returns (t': Trace)
    requires Valid(c, t) && node in c.nodes
    requires report == [] || exists key, i: nat :: report == Report(c, key, DeviceId(i))
    ensures At(c, t', Last(t).pods, Last(t).kubelet[node := report], Last(t).annotators)
  {
    LogNonEmpty(c, t);
    forall p, id | p in report && id in HeldIds(p, c.resource) ensures Advertised(id) {
      var key, i: nat :| report == Report(c, key, DeviceId(i));
    }
    t' := Append(c, t, Allocate(node, report));
  }

  lemma BeginList(c: Config, t: Trace, node: string) returns (t': Trace)
    requires Valid(c, t) && node in c.nodes && node in Last(t).annotators && Last(t).annotators[node].queue == []
    ensures node in Last(t).kubelet
    ensures At(c, t', Last(t).pods, Last(t).kubelet,
               Last(t).annotators[node := Annotating(Todo(Last(t).kubelet[node], c.resource), false)])
  {
    LogNonEmpty(c, t);
    t' := Append(c, t, AnnotatorList(node));
  }

  lemma Process(c: Config, t: Trace, node: string, w: Work) returns (t': Trace)
    requires Valid(c, t) && node in Last(t).annotators && Last(t).annotators[node] == Annotating([w], false)
    requires NeedsPatch(Last(t).pods, w)
    ensures At(c, t', Last(t).pods[w.key := Annotated(Last(t).pods[w.key], w.value)], Last(t).kubelet,
               Last(t).annotators[node := Annotating([], false)])
  {
    LogNonEmpty(c, t);
    var u := Append(c, t, AnnotatorGet(node, true));
    assert Last(u) == AfterGet(Last(t), node, true);
    LogNonEmpty(c, u);
    t' := Append(c, u, AnnotatorPatch(node, NoFault));
    assert Last(t') == AfterPatch(Last(u), node, NoFault);
    assert [w][1..] == [];
    assert Last(t').annotators == Last(t).annotators[node := Annotating([], false)];
  }

  /** Only node n reports anything: one pod with one device. */
  ghost predicate OnlyReport(c: Config, s: State, n: string, key: PodKey, id: string) {
    n in s.kubelet && s.kubelet[n] == Report(c, key, id) && forall x | x in s.kubelet && x != n :: s.kubelet[x] == []
  }

  lemma OnlyReportMeans(c: Config, s: State, n: string, key: PodKey, id: string)
    requires OnlyReport(c, s, n, key, id)
    ensures forall x, w :: Wanted(c, s, x, w) <==> x == n && w == Work(key, id)
    ensures forall x, g, k :: Allocated(c, s, x, g, k) <==> x == n && g == id && k == key
    ensures key in s.pods && s.pods[key].node == n ==> ReportsSane(c, s)
  {
    ReportWanted(c, key, id);
    assert Todo([], c.resource) == [];
    forall x, w ensures Wanted(c, s, x, w) <==> x == n && w == Work(key, id) {}
    forall x, g, k ensures Allocated(c, s, x, g, k) <==> x == n && g == id && k == key {}
  }

  lemma DeviceInAnnotation(i: nat)
    ensures AssignedIds(DeviceId(i)) == [DeviceId(i)]
  {
    AdvertisedClean(DeviceId(i));
    AnnotationRoundTrip([DeviceId(i)]);
    assert Join([DeviceId(i)], ',') == DeviceId(i);
  }

  /** A stateful pod moves from A to B while A's annotator still has to patch it. This state is
      reached from the start, and everything else about it is in order. */
  lemma CrossWorkHappens(c: Config) returns (t: Trace)
    requires {A, B} <= c.nodes && "" !in c.nodes
    ensures Valid(c, t) && ReportsSane(c, Last(t)) && OnlyReport(c, Last(t), B, K, DeviceId(1))
    ensures CrossWork(c, Last(t), A, Work(K, DeviceId(0)), B, Work(K, DeviceId(1)))
    ensures Last(t).pods.Keys == {K} && Last(t).pods[K].node == B
  {
    hide Run, Report, DeviceId;
    t := StartTrace(c);
    t := Put(c, t, K, A);
    t := Give(c, t, A, Report(c, K, DeviceId(0)));
    t := BeginList(c, t, A);
    ReportWanted(c, K, DeviceId(0));
    t := Remove(c, t, K);
    t := Put(c, t, K, B);
    t := Give(c, t, A, []);
    t := Give(c, t, B, Report(c, K, DeviceId(1)));
    OnlyReportMeans(c, Last(t), B, K, DeviceId(1));
    FirstTwoDiffer();
    assert A != B;
  }

  lemma FirstTwoDiffer()
    ensures DeviceId(0) != DeviceId(1)
  {
    if DeviceId(0) == DeviceId(1) { DeviceIdInjective(0, 1); }
  }

  /** That all annotators, the status-updater and the cache complete error-free ticks is then not
      enough: on B a row names the pod for a device that B's kubelet has never allocated. */
  lemma CrossWorkMisleads(c: Config, g: GPU) returns (t: Trace, u: Trace, t': Trace, t2: nat, a: nat)
    requires {A, B} <= c.nodes && "" !in c.nodes && g.id == DeviceId(0)
    ensures Rests(c, t, u) && ReportsSane(c, Last(t)) && AllTicked(c, t, u) && AnnotatedStillReported(c, Last(u))
    ensures Continues(c, u, t') && |u.acts| <= a && t2 < |t'.run| && UpdaterTick(t'.run, t'.acts, a, t2) &&
            Refreshed(t', B, t2)
    ensures RowNames(Last(t'), B, g, K) && forall k :: !Allocated(c, Last(t'), B, g.id, k)
  {
    hide Run, AllAnnotatorsTicked, UpdaterTick, Refreshed, RowNames, Report, DeviceId, AssignedIds, AnnotationOf;
    t := CrossWorkHappens(c);
    u := CrossWorkBreaks(c, t, A, Work(K, DeviceId(0)), B, Work(K, DeviceId(1)));
    DeviceInAnnotation(0);
    OnlyReportMeans(c, Last(u), B, K, DeviceId(1));
    assert Wanted(c, Last(u), B, Work(K, DeviceId(1)));
    t', t2, a := AnnotationShown(c, u, K, g);
    OnlyReportMeans(c, Last(t'), B, K, DeviceId(1));
    FirstTwoDiffer();
  }

  /** A pod loses its device, which goes to another pod. When all annotators have ticked, nothing is
      left to be done, and still ... */
  lemma StaleHappens(c: Config) returns (t: Trace)
    requires A in c.nodes && "" !in c.nodes
    ensures Valid(c, t) && Quiet(c, Last(t)) && AnnotationsExact(c, Last(t)) &&
            OnlyReport(c, Last(t), A, L, DeviceId(0))
    ensures K in Last(t).pods && Stale(c, Last(t), K) && Last(t).pods[K].node == A
    ensures AnnotationOf(Last(t).pods[K]) == DeviceId(0) && !AnnotatedStillReported(c, Last(t))
  {
    hide Run, Quiet, AnnotationsExact, AllAnnotatorsTicked, Report, DeviceId, AssignedIds;
    var u := StaleStart(c);
    t := TickAll(c, u, c.nodes);
    TickedMeans(c, u, t);
    CleanIsOwn(c, u, t);
    SameWorldLater(c, u, t);
    assert t.run[|u.acts|] == Last(u) && t.run[|t.acts|] == Last(t);
    AnnotationsConverge(c, t.run, t.acts, |u.acts|, |t.acts|);
    StaleLater(c, t.run, t.acts, |u.acts|, |t.acts|, K);
  }

  lemma StaleStart(c: Config) returns (t: Trace)
    requires A in c.nodes && "" !in c.nodes
    ensures Valid(c, t) && Quiet(c, Last(t)) && AllFresh(c, Last(t)) && QueuesEmpty(Last(t), c.nodes)
    ensures OnlyReport(c, Last(t), A, L, DeviceId(0))
    ensures K in Last(t).pods && Stale(c, Last(t), K) && Last(t).pods[K].node == A
    ensures AnnotationOf(Last(t).pods[K]) == DeviceId(0)
  {
    hide Run, Report, DeviceId, Quiet, ReportsSane;
    t := Reallocated(c);
    OnlyReportMeans(c, Last(t), A, L, DeviceId(0));
    EmptyIsQuiet(c, t);
    DeviceInAnnotation(0);
  }

  lemma Reallocated(c: Config) returns (t: Trace)
    requires A in c.nodes && "" !in c.nodes
    ensures Valid(c, t) && QueuesEmpty(Last(t), c.nodes) && OnlyReport(c, Last(t), A, L, DeviceId(0))
    ensures K in Last(t).pods && Last(t).pods[K].node == A && AnnotationOf(Last(t).pods[K]) == DeviceId(0)
    ensures L in Last(t).pods && Last(t).pods[L].node == A
  {
    hide Run, Report, DeviceId, AssignedIds;
    t := StartTrace(c);
    t := Put(c, t, K, A);
    t := Give(c, t, A, Report(c, K, DeviceId(0)));
    t := BeginList(c, t, A);
    ReportWanted(c, K, DeviceId(0));
    NonEmptyId(0);
    t := Process(c, t, A, Work(K, DeviceId(0)));
    t := Put(c, t, L, A);
    t := Give(c, t, A, Report(c, L, DeviceId(0)));
  }

  lemma NonEmptyId(i: nat)
    ensures DeviceId(i) != ""
  {
  }

  /** ... the row of that device can name the pod that lost it. */
  lemma StaleMisleads(c: Config, g: GPU) returns (t: Trace, t': Trace)
    requires A in c.nodes && "" !in c.nodes && g.id == DeviceId(0)
    ensures Continues(c, t, t') && Quiet(c, Last(t)) && AnnotationsExact(c, Last(t)) &&
            !AnnotatedStillReported(c, Last(t))
    ensures RowNames(Last(t'), A, g, K) && Allocated(c, Last(t'), A, g.id, L) && !Allocated(c, Last(t'), A, g.id, K)
  {
    hide Run, Quiet, AnnotationsExact, Refreshed, RowNames, Report, DeviceId, AssignedIds, AnnotationOf;
    t := StaleHappens(c);
    DeviceInAnnotation(0);
    var t2, a;
    t', t2, a := AnnotationShown(c, t, K, g);
    OnlyReportMeans(c, Last(t'), A, L, DeviceId(0));
  }
}
