/** The pipeline never paints itself into a corner: from every reachable state it can finish what is
    in flight and complete the ticks that PipelineConvergence.dfy asks for. */
module PipelineProgress {
  import opened Text
  import opened Cluster
  import opened Topology
  import opened Annotator
  import opened StatusUpdater
  import opened Exporter
  import opened Pipeline
  import opened PipelineSafety
  import opened PipelineConvergence

  datatype Trace = Trace(run: seq<State>, acts: seq<Action>)

  /** An error-free step of the pipeline itself. */
  predicate Clean(a: Action) {
    match a
    case AnnotatorList(_) => true
    case AnnotatorGet(_, ok) => ok
    case AnnotatorPatch(_, fault) => fault.NoFault?
    case UpdaterList(_) => true
    case UpdaterGet(ok) => ok
    case UpdaterWrite(fault) => fault.NoFault?
    case CacheLoad(_) => true
    case CacheGet(_, ok) => ok
    case CachePublish(_) => true
    case _ => false
  }

  ghost predicate Valid(c: Config, t: Trace) {
    |t.run| == |t.acts| + 1 && Run(c, t.run, t.acts)
  }

  ghost function Last(t: Trace): State
    requires |t.run| > 0
  {
    t.run[|t.run| - 1]
  }

  /** t' goes on from t with error-free steps only. */
  ghost predicate Continues(c: Config, t: Trace, t': Trace) {
    && Valid(c, t) && Valid(c, t') && t.run <= t'.run && t.acts <= t'.acts
    && forall i | |t.acts| <= i < |t'.acts| :: Clean(t'.acts[i])
  }

  /** t' goes on from t while the environment rests. */
  ghost predicate Rests(c: Config, t: Trace, t': Trace) {
    && Valid(c, t) && Valid(c, t') && t.run <= t'.run && t.acts <= t'.acts
    && Undisturbed(t'.acts, |t.acts|)
  }

  lemma ContinuesTransitive(c: Config, t: Trace, u: Trace, v: Trace)
    requires Continues(c, t, u) && Continues(c, u, v)
    ensures Continues(c, t, v)
  {
    forall i | |t.acts| <= i < |v.acts| ensures Clean(v.acts[i]) {
      if i < |u.acts| { assert v.acts[i] == u.acts[i]; }
    }
  }

  lemma RestsTransitive(c: Config, t: Trace, u: Trace, v: Trace)
    requires Rests(c, t, u) && Rests(c, u, v)
    ensures Rests(c, t, v)
  {
    forall i | |t.acts| <= i < |v.acts| ensures !Environment(v.acts[i]) {
      if i < |u.acts| { assert v.acts[i] == u.acts[i]; }
    }
  }

  lemma CleanIsOwn(c: Config, t: Trace, t': Trace)
    requires Continues(c, t, t')
    ensures Rests(c, t, t')
    ensures forall i, n | |t.acts| <= i < |t'.acts| :: t'.acts[i] != CacheRestart(n)
  {
    forall i | |t.acts| <= i < |t'.acts|
      ensures !Environment(t'.acts[i]) && forall n :: t'.acts[i] != CacheRestart(n)
    {
      assert Clean(t'.acts[i]);
    }
  }

  /** A trace grows by any enabled step. */
  lemma Append(c: Config, t: Trace, a: Action) returns (t': Trace)
    requires Valid(c, t) && |Last(t).log| > 0 && Enabled(c, Last(t), a)
    ensures Valid(c, t') && t.run <= t'.run && t'.acts == t.acts + [a]
    ensures Next(c, Last(t), a, Last(t')) && Last(t') == Step(c, Last(t), a)
  {
    hide Enabled, Step, Init;
    t' := Trace(t.run + [Step(c, Last(t), a)], t.acts + [a]);
    forall i | 0 <= i < |t'.acts| ensures StepAt(c, t'.run, t'.acts, i) {
      if i < |t.acts| { assert StepAt(c, t.run, t.acts, i); }
    }
  }

  lemma OneMore(c: Config, t: Trace, a: Action) returns (t': Trace)
    requires Valid(c, t) && Clean(a) && |Last(t).log| > 0 && Enabled(c, Last(t), a)
    ensures Continues(c, t, t') && |t'.acts| == |t.acts| + 1 && t'.acts[|t.acts|] == a
    ensures Next(c, Last(t), a, Last(t')) && Last(t') == Step(c, Last(t), a)
  {
    hide Enabled, Step, Run;
    t' := Append(c, t, a);
  }

  lemma LogNonEmpty(c: Config, t: Trace)
    requires Valid(c, t)
    ensures |Last(t).log| > 0 && DomainsOk(c, Last(t))
  {
    Reachable(c, t.run, t.acts, |t.acts|);
  }

  // ---------------------------------------------------------------- annotators

  function Pending(k: Annotating): nat {
    2 * |k.queue| + if k.queue != [] && !k.gotten then 1 else 0
  }

  ghost predicate OthersKept(s: State, s': State, nodes: set<string>) {
    && s'.annotators.Keys == s.annotators.Keys
    && forall m | m in s.annotators && m !in nodes :: s'.annotators[m] == s.annotators[m]
  }

  /** Only pods that the queue names differ. */
  ghost predicate PodsKept(s: State, s': State, queue: seq<Work>) {
    && s'.pods.Keys == s.pods.Keys
    && forall k | k in s.pods && (forall x | x in queue :: x.key != k) :: s'.pods[k] == s.pods[k]
  }

  /** The next step of an annotator with a non-empty queue. */
  function NextOf(k: Annotating, n: string): Action {
    if k.gotten then AnnotatorPatch(n, NoFault) else AnnotatorGet(n, true)
  }

  lemma AnnotatorAdvances(c: Config, s: State, n: string)
    requires |s.log| > 0 && n in s.annotators && s.annotators[n].queue != []
    ensures var a := NextOf(s.annotators[n], n);
      && Clean(a) && Enabled(c, s, a)
      && var s' := Step(c, s, a); var q, q' := s.annotators[n].queue, s'.annotators[n].queue;
      && OthersKept(s, s', {n}) && Pending(s'.annotators[n]) < Pending(s.annotators[n]) && s'.kubelet == s.kubelet
      && (q' == q || q' == q[1..]) && PodsKept(s, s', [q[0]])
      && (q' == q[1..] && q[0].key in s.pods ==> AnnotationOf(s'.pods[q[0].key]) == q[0].value)
  {
  }

  lemma PodsKeptOn(s: State, s': State, s'': State, q: seq<Work>, q': seq<Work>)
    requires q != [] && (q' == q || q' == q[1..]) && PodsKept(s, s', [q[0]]) && PodsKept(s', s'', q')
    ensures PodsKept(s, s'', q)
  {
    assert forall x | x in q' :: x in q;
    assert q[0] in q;
  }

  /** An annotator can empty its queue. */
  lemma {:induction false} Drain(c: Config, t: Trace, n: string) returns (t': Trace)
    requires Valid(c, t) && n in c.nodes && n in Last(t).annotators
    ensures Continues(c, t, t') && OthersKept(Last(t), Last(t'), {n}) &&
            PodsKept(Last(t), Last(t'), Last(t).annotators[n].queue)
    ensures n in Last(t').annotators && Last(t').annotators[n].queue == []
    decreases Pending(Last(t).annotators[n])
  {
    if Last(t).annotators[n].queue == [] { return t; }
    hide Enabled, Step, Clean, Run, AnnotationOf, PodsKept;
    LogNonEmpty(c, t);
    AnnotatorAdvances(c, Last(t), n);
    var u := OneMore(c, t, NextOf(Last(t).annotators[n], n));
    t' := Drain(c, u, n);
    ContinuesTransitive(c, t, u, t');
    PodsKeptOn(Last(t), Last(u), Last(t'), Last(t).annotators[n].queue, Last(u).annotators[n].queue);
  }

  ghost predicate QueuesEmpty(s: State, nodes: set<string>) {
    forall n | n in nodes :: n in s.annotators && s.annotators[n].queue == []
  }

  lemma {:induction false} DrainAll(c: Config, t: Trace, nodes: set<string>) returns (t': Trace)
    requires Valid(c, t) && nodes <= c.nodes
    ensures Continues(c, t, t') && QueuesEmpty(Last(t'), nodes) && OthersKept(Last(t), Last(t'), nodes)
  {
    if nodes == {} { return t; }
    hide Run, PodsKept;
    var n :| n in nodes;
    var u := DrainAll(c, t, nodes - {n});
    LogNonEmpty(c, u);
    t' := Drain(c, u, n);
    ContinuesTransitive(c, t, u, t');
  }

  lemma ListStep(c: Config, s: State, n: string)
    requires |s.log| > 0 && DomainsOk(c, s) && n in c.nodes && s.annotators[n].queue == []
    ensures Enabled(c, s, AnnotatorList(n)) && Clean(AnnotatorList(n))
    ensures var s' := Step(c, s, AnnotatorList(n));
            OthersKept(s, s', {n}) && s'.pods == s.pods && s'.kubelet == s.kubelet && QueueFresh(c, s', n)
  {
  }

  /** One whole tick of one annotator. It touches only pods that the node wants annotated. */
  lemma Tick(c: Config, t: Trace, n: string) returns (t': Trace)
    requires Valid(c, t) && n in c.nodes && n in Last(t).annotators && Last(t).annotators[n].queue == []
    ensures Continues(c, t, t') && OthersKept(Last(t), Last(t'), {n})
    ensures |t.acts| < |t'.acts| && AnnotatorTick(t'.run, t'.acts, n, |t.acts|, |t'.acts|)
    ensures forall k | k in Last(t).pods && (forall w | Wanted(c, Last(t), n, w) :: w.key != k) ::
              k in Last(t').pods && Last(t').pods[k] == Last(t).pods[k]
  {
    LogNonEmpty(c, t);
    ListStep(c, Last(t), n);
    var u := OneMore(c, t, AnnotatorList(n));
    hide Enabled, Step, Run;
    LogNonEmpty(c, u);
    t' := Drain(c, u, n);
    ContinuesTransitive(c, t, u, t');
    assert t'.acts[|t.acts|] == u.acts[|t.acts|];
    assert t'.run[|t'.acts|] == Last(t');
    forall k | k in Last(t).pods && (forall w | Wanted(c, Last(t), n, w) :: w.key != k)
      ensures k in Last(t').pods && Last(t').pods[k] == Last(t).pods[k]
    {
      forall x | x in Last(u).annotators[n].queue ensures x.key != k {
        assert Wanted(c, Last(u), n, x) && Wanted(c, Last(t), n, x);
      }
    }
  }

  ghost predicate Ticked(t: Trace, n: string, from: nat) {
    exists a: nat, b: nat :: from <= a && b <= |t.acts| && AnnotatorTick(t.run, t.acts, n, a, b)
  }

  lemma TickedLater(c: Config, t: Trace, t': Trace, n: string, from: nat)
    requires Rests(c, t, t') && Ticked(t, n, from)
    ensures Ticked(t', n, from)
  {
    var a: nat, b: nat :| from <= a && b <= |t.acts| && AnnotatorTick(t.run, t.acts, n, a, b);
    assert AnnotatorTick(t'.run, t'.acts, n, a, b);
  }

  lemma {:induction false} TickAll(c: Config, t: Trace, nodes: set<string>) returns (t': Trace)
    requires Valid(c, t) && nodes <= c.nodes && QueuesEmpty(Last(t), nodes)
    ensures Continues(c, t, t') && OthersKept(Last(t), Last(t'), nodes)
    ensures forall n | n in nodes :: Ticked(t', n, |t.acts|)
  {
    if nodes == {} { return t; }
    hide Run, AnnotatorTick;
    var n :| n in nodes;
    var u := TickAll(c, t, nodes - {n});
    t' := Tick(c, u, n);
    ContinuesTransitive(c, t, u, t');
    CleanIsOwn(c, u, t');
    assert Ticked(t', n, |t.acts|);
    forall m | m in nodes && m != n ensures Ticked(t', m, |t.acts|) { TickedLater(c, u, t', m, |t.acts|); }
  }

  // ---------------------------------------------------------------- the status-updater

  ghost predicate ClusterKept(s: State, s': State) {
    s'.pods == s.pods && s'.kubelet == s.kubelet
  }

  /** The status-updater can finish its tick, and what it had rebuilt is then in the ConfigMap. */
  lemma FinishUpdate(c: Config, t: Trace) returns (t': Trace)
    requires Valid(c, t)
    ensures Continues(c, t, t') && Last(t').updater.Idle? && ClusterKept(Last(t), Last(t'))
    ensures Last(t).updater.Have? ==> View(Last(t').cm) == Loaded(Last(t).updater.top)
  {
    LogNonEmpty(c, t);
    if Last(t).updater.Idle? {
      t' := t;
    } else if Last(t).updater.Writing? {
      WriteStep(c, Last(t));
      t' := OneMore(c, t, UpdaterWrite(NoFault));
    } else {
      hide Run, Enabled, Step;
      UpdaterGetStep(c, Last(t));
      StepsAreSave(Last(t), true, Untouched, NoFault);
      SavedEffect(Last(t).cm, Last(t).updater.top, false, Untouched, NoFault);
      hide AfterWrite, AfterUpdaterGet;
      t' := OneMore(c, t, UpdaterGet(true));
      if !Last(t').updater.Idle? {
        LogNonEmpty(c, t');
        WriteStep(c, Last(t'));
        var u := OneMore(c, t', UpdaterWrite(NoFault));
        ContinuesTransitive(c, t, t', u);
        t' := u;
      }
    }
  }

  lemma WriteStep(c: Config, s: State)
    requires |s.log| > 0 && s.updater.Writing?
    ensures Enabled(c, s, UpdaterWrite(NoFault)) && Clean(UpdaterWrite(NoFault))
    ensures Step(c, s, UpdaterWrite(NoFault)) == AfterWrite(s, NoFault)
    ensures AfterWrite(s, NoFault).updater.Idle? && ClusterKept(s, AfterWrite(s, NoFault))
  {
    hide Conflict, Written;
  }

  lemma UpdaterGetStep(c: Config, s: State)
    requires |s.log| > 0 && s.updater.Have?
    ensures Enabled(c, s, UpdaterGet(true)) && Clean(UpdaterGet(true))
    ensures Step(c, s, UpdaterGet(true)) == AfterUpdaterGet(s, true)
    ensures ClusterKept(s, AfterUpdaterGet(s, true)) && !AfterUpdaterGet(s, true).updater.Have?
  {
    hide Stored;
  }

  lemma {:induction false} OrderOf(keys: set<PodKey>) returns (order: seq<PodKey>)
    ensures NoDuplicates(order) && forall k :: k in order <==> k in keys
  {
    if keys == {} { return []; }
    var k :| k in keys;
    var rest := OrderOf(keys - {k});
    order := rest + [k];
  }

  lemma UpdaterListStep(c: Config, s: State, order: seq<PodKey>)
    requires |s.log| > 0 && s.updater.Idle? && NoDuplicates(order) && forall k :: k in order <==> k in s.pods
    ensures Enabled(c, s, UpdaterList(order)) && Clean(UpdaterList(order))
    ensures var s' := Step(c, s, UpdaterList(order));
            ClusterKept(s, s') && s'.updater == Have(Rebuilt(ListedIn(s.pods, order)))
  {
  }

  /** One whole tick of the status-updater, for a given order of the pod list. */
  lemma UpdateOnce(c: Config, t: Trace, order: seq<PodKey>) returns (t': Trace, a: nat)
    requires Valid(c, t) && NoDuplicates(order) && forall k :: k in order <==> k in Last(t).pods
    ensures Continues(c, t, t') && |t.acts| <= a && UpdaterTick(t'.run, t'.acts, a, |t'.acts|)
    ensures ClusterKept(Last(t), Last(t')) && View(Last(t').cm) == Loaded(Rebuilt(ListedIn(Last(t).pods, order)))
  {
    hide Enabled, Step, Run, Rebuilt, ListedIn;
    var u := FinishUpdate(c, t);
    LogNonEmpty(c, u);
    UpdaterListStep(c, Last(u), order);
    var v := OneMore(c, u, UpdaterList(order));
    t' := FinishUpdate(c, v);
    a := |u.acts|;
    ContinuesTransitive(c, u, v, t');
    ContinuesTransitive(c, t, u, t');
    assert t'.acts[a] == v.acts[a];
    assert t'.run[|t'.acts|] == Last(t');
  }

  // ---------------------------------------------------------------- caches

  function Unfetched(k: CacheState, n: string): nat
    requires k.refresh.Fetching? && k.refresh.next <= |Entries(k.refresh.top, n)|
  {
    |Entries(k.refresh.top, n)| - k.refresh.next
  }

  ghost predicate FetchesOk(s: State, n: string) {
    && n in s.caches
    && (s.caches[n].refresh.Fetching? ==> s.caches[n].refresh.next <= |Entries(s.caches[n].refresh.top, n)|)
  }

  lemma CacheCanGet(c: Config, s: State, n: string)
    requires |s.log| > 0 && FetchesOk(s, n) && s.caches[n].refresh.Fetching? && Unfetched(s.caches[n], n) > 0
    ensures Enabled(c, s, CacheGet(n, true)) && Clean(CacheGet(n, true))
    ensures var s' := Step(c, s, CacheGet(n, true));
      && FetchesOk(s', n) && s'.caches[n].refresh.Fetching? && Unfetched(s'.caches[n], n) < Unfetched(s.caches[n], n)
      && s'.caches[n].refresh.top == s.caches[n].refresh.top && ClusterKept(s, s') && s'.cm == s.cm
  {
    hide FetchOne, PodGetOf;
  }

  lemma CacheCanPublish(c: Config, s: State, n: string)
    requires |s.log| > 0 && FetchesOk(s, n) && s.caches[n].refresh.Fetching? && Unfetched(s.caches[n], n) == 0
    ensures Enabled(c, s, CachePublish(n)) && Clean(CachePublish(n))
    ensures var s' := Step(c, s, CachePublish(n));
      && FetchesOk(s', n) && s'.caches[n].refresh.Resting?
      && s'.caches[n].world.top == s.caches[n].refresh.top && ClusterKept(s, s') && s'.cm == s.cm
  {
  }

  /** A refresh in flight can be completed. */
  lemma {:induction false} FinishRefresh(c: Config, t: Trace, n: string) returns (t': Trace)
    requires Valid(c, t) && FetchesOk(Last(t), n) && Last(t).caches[n].refresh.Fetching?
    ensures Continues(c, t, t') && FetchesOk(Last(t'), n) && Last(t').caches[n].refresh.Resting?
    ensures |t.acts| < |t'.acts| && t'.acts[|t'.acts| - 1] == CachePublish(n)
    ensures Last(t').caches[n].world.top == Last(t).caches[n].refresh.top
    ensures ClusterKept(Last(t), Last(t')) && Last(t').cm == Last(t).cm
    decreases Unfetched(Last(t).caches[n], n)
  {
    LogNonEmpty(c, t);
    if Unfetched(Last(t).caches[n], n) == 0 {
      CacheCanPublish(c, Last(t), n);
      hide Enabled, Step, Clean, Run;
      t' := OneMore(c, t, CachePublish(n));
    } else {
      CacheCanGet(c, Last(t), n);
      hide Enabled, Step, Clean, Run;
      var u := OneMore(c, t, CacheGet(n, true));
      t' := FinishRefresh(c, u, n);
      ContinuesTransitive(c, t, u, t');
    }
  }

  lemma ReachableFetches(c: Config, t: Trace, n: string)
    requires Valid(c, t) && n in c.nodes
    ensures FetchesOk(Last(t), n)
  {
    ReachableRanges(c, t.run, t.acts, |t.acts|);
    LogNonEmpty(c, t);
    assert CacheFetched(c, n, Last(t).caches[n]);
  }

  lemma CacheCanLoad(c: Config, s: State, n: string)
    requires |s.log| > 0 && n in s.caches && s.caches[n].refresh.Resting? && View(s.cm).Loaded?
    ensures Enabled(c, s, CacheLoad(n)) && Clean(CacheLoad(n))
    ensures var s' := Step(c, s, CacheLoad(n));
      && FetchesOk(s', n) && s'.caches[n].refresh.Fetching? && s'.caches[n].refresh.top == View(s.cm).top
      && ClusterKept(s, s') && s'.cm == s.cm
  {
  }

  /** One whole refresh of one cache. */
  lemma RefreshTo(c: Config, t: Trace, n: string) returns (t': Trace)
    requires Valid(c, t) && n in c.nodes && View(Last(t).cm).Loaded?
    ensures Continues(c, t, t') && Refreshed(t', n, |t.acts|) && ClusterKept(Last(t), Last(t'))
    ensures n in Last(t').caches && Last(t').caches[n].world.top == View(Last(t).cm).top
  {
    hide Enabled, Step, Run;
    ReachableFetches(c, t, n);
    var u := t;
    if Last(t).caches[n].refresh.Fetching? { u := FinishRefresh(c, t, n); }
    LogNonEmpty(c, u);
    CacheCanLoad(c, Last(u), n);
    var v := OneMore(c, u, CacheLoad(n));
    t' := FinishRefresh(c, v, n);
    ContinuesTransitive(c, u, v, t');
    ContinuesTransitive(c, t, u, t');
    assert t'.acts[|u.acts|] == v.acts[|u.acts|];
    assert CacheTick(t'.acts, n, |u.acts|, |t'.acts|);
  }

  ghost predicate Refreshed(t: Trace, n: string, from: nat) {
    exists e: nat, f: nat :: from <= e && f <= |t.acts| && CacheTick(t.acts, n, e, f)
  }

  lemma RefreshOnce(c: Config, t: Trace, n: string) returns (t': Trace)
    requires Valid(c, t) && n in c.nodes && Published(c, Last(t))
    ensures Continues(c, t, t') && Published(c, Last(t')) && Refreshed(t', n, |t.acts|)
  {
    hide Run, Settled, UpdateExact;
    t' := RefreshTo(c, t, n);
    StaysPublished(c, t, t');
  }

  lemma StaysPublished(c: Config, t: Trace, t': Trace)
    requires Continues(c, t, t') && Published(c, Last(t))
    ensures Published(c, Last(t'))
  {
    assert t'.run[|t.acts|] == Last(t);
    CleanIsOwn(c, t, t');
    PublishedLater(c, t'.run, t'.acts, |t.acts|, |t'.acts|);
  }

  lemma RefreshedLater(c: Config, t: Trace, t': Trace, n: string, from: nat)
    requires Continues(c, t, t') && Refreshed(t, n, from)
    ensures Refreshed(t', n, from)
  {
    var e: nat, f: nat :| from <= e && f <= |t.acts| && CacheTick(t.acts, n, e, f);
    assert CacheTick(t'.acts, n, e, f);
  }

  lemma {:induction false} RefreshAll(c: Config, t: Trace, nodes: set<string>) returns (t': Trace)
    requires Valid(c, t) && nodes <= c.nodes && Published(c, Last(t))
    ensures Continues(c, t, t') && Published(c, Last(t'))
    ensures forall n | n in nodes :: Refreshed(t', n, |t.acts|)
  {
    hide Published, Refreshed, Run, Clean;
    if nodes == {} { return t; }
    hide Valid, Continues;
    var n :| n in nodes;
    var u := RefreshAll(c, t, nodes - {n});
    t' := RefreshOneMore(c, t, u, n);
    forall m | m in nodes && m != n ensures Refreshed(t', m, |t.acts|) { RefreshedLater(c, u, t', m, |t.acts|); }
  }

  lemma RefreshOneMore(c: Config, t: Trace, u: Trace, n: string) returns (t': Trace)
    requires Continues(c, t, u) && Published(c, Last(u)) && n in c.nodes
    ensures Continues(c, t, t') && Continues(c, u, t') && Valid(c, t') && Published(c, Last(t')) &&
            Refreshed(t', n, |t.acts|)
  {
    hide Published, CacheTick;
    t' := RefreshOnce(c, u, n);
    ContinuesTransitive(c, t, u, t');
  }

  // ---------------------------------------------------------------- all together

  ghost predicate NodeRowsExact(c: Config, s: State, h: string) {
    h in s.caches && forall g, d :: RowExact(c, s, h, g, d)
  }

  ghost predicate AllRowsExact(c: Config, s: State) {
    forall h | h in c.nodes :: NodeRowsExact(c, s, h)
  }

  /** The first two stages can be completed from every reachable state with sane reports, whatever
      is in flight. */
  lemma Stages(c: Config, t: Trace) returns (t': Trace)
    requires Valid(c, t) && ReportsSane(c, Last(t))
    ensures Continues(c, t, t') && Quiet(c, Last(t')) && AnnotationsExact(c, Last(t'))
  {
    hide Run, ReportsSane, AnnotationsExact;
    var u := DrainAll(c, t, c.nodes);
    SaneAtEnd(c, t, u);
    EmptyIsQuiet(c, u);
    t' := TickAll(c, u, c.nodes);
    ContinuesTransitive(c, t, u, t');
    CleanIsOwn(c, u, t');
    assert t'.run[|u.acts|] == Last(u);
    forall n | n in c.nodes
      ensures exists a: nat, b: nat :: |u.acts| <= a && b <= |t'.acts| && AnnotatorTick(t'.run, t'.acts, n, a, b)
    {
      assert Ticked(t', n, |u.acts|);
    }
    AnnotationsConverge(c, t'.run, t'.acts, |u.acts|, |t'.acts|);
  }

  lemma SaneAtEnd(c: Config, t: Trace, u: Trace)
    requires Continues(c, t, u) && ReportsSane(c, Last(t))
    ensures ReportsSane(c, Last(u))
  {
    CleanIsOwn(c, t, u);
    assert u.run[|t.acts|] == Last(t);
    SaneLater(c, u.run, u.acts, |t.acts|, |u.acts|);
  }

  lemma EmptyIsQuiet(c: Config, t: Trace)
    requires Valid(c, t) && ReportsSane(c, Last(t)) && QueuesEmpty(Last(t), c.nodes)
    ensures Quiet(c, Last(t))
  {
    hide Run, ReportsSane;
    Reachable(c, t.run, t.acts, |t.acts|);
    InvDomains(c, Last(t));
    hide Inv;
  }

  /** Progress. From every reachable state whose kubelet reports are sane, whatever is in flight and
      whatever failed before, the pipeline can by error-free steps of its own reach a state in
      which, unless some annotation has outlived its allocation, all rows of all nodes are exact. */
  lemma Progress(c: Config, t: Trace) returns (t': Trace)
    requires Valid(c, t) && ReportsSane(c, Last(t))
    ensures Continues(c, t, t')
    ensures AnnotatedStillReported(c, Last(t')) ==> AllRowsExact(c, Last(t'))
  {
    hide Run, ReportsSane, AnnotationsExact, Quiet, AnnotatedStillReported, AllRowsExact;
    var u := Stages(c, t);
    if !AnnotatedStillReported(c, Last(u)) { return u; }
    t' := LastStages(c, u);
    ContinuesTransitive(c, t, u, t');
  }

  lemma LastStages(c: Config, t: Trace) returns (t': Trace)
    requires Valid(c, t) && Settled(c, Last(t))
    ensures Continues(c, t, t') && AllRowsExact(c, Last(t'))
  {
    hide Run, Settled, ConfigMapExact, UpdateExact, UpdaterTick, NodeRowsExact;
    var order := OrderOf(Last(t).pods.Keys);
    var u, a := UpdateOnce(c, t, order);
    CleanIsOwn(c, t, u);
    assert u.run[|t.acts|] == Last(t) && u.run[|u.acts|] == Last(u);
    UpdaterTickSpans(u, a);
    ConfigMapConverges(c, u.run, u.acts, |t.acts|, |u.acts|, a, |u.acts|);
    t' := RefreshAll(c, u, c.nodes);
    ContinuesTransitive(c, t, u, t');
    forall h | h in c.nodes ensures NodeRowsExact(c, Last(t'), h) {
      NodeExact(c, u, t', h);
    }
  }

  lemma UpdaterTickSpans(t: Trace, a: nat)
    requires UpdaterTick(t.run, t.acts, a, |t.acts|)
    ensures a < |t.acts|
  {
  }

  lemma NodeExact(c: Config, u: Trace, t: Trace, h: string)
    requires Continues(c, u, t) && Published(c, Last(u)) && h in c.nodes && Refreshed(t, h, |u.acts|)
    ensures NodeRowsExact(c, Last(t), h)
  {
    hide Run, Published, Quiet, RowExact;
    CleanIsOwn(c, u, t);
    assert t.run[|u.acts|] == Last(u) && t.run[|t.acts|] == Last(t);
    var e: nat, f: nat :| |u.acts| <= e && f <= |t.acts| && CacheTick(t.acts, h, e, f);
    CacheConverges(c, t.run, t.acts, |u.acts|, |t.acts|, h, e, f);
    forall g, d ensures RowExact(c, Last(t), h, g, d) { WorldExactRows(c, Last(t), h, g, d); }
  }
}
