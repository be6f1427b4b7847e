/** What the rows of the pipeline read: the load that a pod's annotation asks for. */
module PipelineReadings {
  import opened Cluster
  import opened Topology
  import opened Annotator
  import opened StatusUpdater
  import opened Exporter
  import opened Utilization
  import opened Simulate
  import opened Pipeline
  import opened PipelineSafety
  import opened PipelineConvergence

  // ---------------------------------------------------------------- in every run

  /** The row reads inside the range of the annotation that a pod of this name had in state s. */
  ghost predicate ReadsAnnotation(c: Config, s: State, entries: seq<Assignment>, g: GPU, row: Snapshot) {
    exists a :: a in entries && Key(a) == row.namespace + "/" + row.pod && PodKey(a.podNamespace, a.podName) in s.pods
                && ReadsWithin(g, row, PodRange(c.pf, TextOf(s, a), c.defaultUtil))
  }

  /** In every run, whatever failed, a row that names a pod reads inside the range of the annotation
      which a listed pod of that name had at some earlier point, or zero if none could be fetched. */
  lemma ReadingsHaveASource(c: Config, run: seq<State>, acts: seq<Action>, k: nat, h: string, g: GPU, d: Draws)
    requires Run(c, run, acts) && k < |run| && h in run[k].caches
    requires Find(Entries(run[k].caches[h].world.top, h), g.id).Some?
    ensures var w := run[k].caches[h].world;
            var row := Row(w, g, h, d);
      || ReadsWithin(g, row, Range(Finite(0.0), Finite(0.0)))
      || exists j :: 0 <= j <= k && ReadsAnnotation(c, run[j], Entries(w.top, h), g, row)
  {
    var w := run[k].caches[h].world;
    var row := Row(w, g, h, d);
    RowMeans(w, g, h, d);
    hide Run, Row, ReadsWithin, PodRange, ReadsIdle;
    var key := row.namespace + "/" + row.pod;
    if key in w.ranges {
      ShownRanges(c, run, acts, k, h, key);
      var j, a :| 0 <= j <= k && a in Entries(w.top, h) && Key(a) == key
                  && PodKey(a.podNamespace, a.podName) in run[j].pods
                  && w.ranges[key] == PodRange(c.pf, TextOf(run[j], a), c.defaultUtil);
      assert ReadsAnnotation(c, run[j], Entries(w.top, h), g, row);
    }
  }

  /** An exporter that has just started, or restarted, shows every GPU idle until its first refresh
      is complete. */
  lemma {:induction false} IdleUntilRefreshed(c: Config, run: seq<State>, acts: seq<Action>, h: string, i: nat, k: nat)
    requires Run(c, run, acts) && i <= k < |run| && h in c.nodes
    requires i == 0 || acts[i - 1] == CacheRestart(h)
    requires forall m | i <= m < k :: acts[m] != CachePublish(h)
    ensures h in run[k].caches && run[k].caches[h].world == EMPTY_WORLD
    ensures forall g, d :: ReadsIdle(g, Row(run[k].caches[h].world, g, h, d))
  {
    hide Row, ReadsIdle, Next, Init;
    ReachableDomains(c, run, acts, k);
    if i < k {
      IdleUntilRefreshed(c, run, acts, h, i, k - 1);
      assert StepAt(c, run, acts, k - 1);
      WorldMoves(c, run[k - 1], acts[k - 1], run[k], h);
    } else if i > 0 {
      ReachableDomains(c, run, acts, k - 1);
      assert StepAt(c, run, acts, k - 1);
      WorldMoves(c, run[k - 1], acts[k - 1], run[k], h);
    } else {
      StartsEmpty(c, run[0], h);
    }
    hide Run;
    forall g, d ensures ReadsIdle(g, Row(run[k].caches[h].world, g, h, d)) {
      RowMeans(run[k].caches[h].world, g, h, d);
    }
  }

  lemma StartsEmpty(c: Config, s: State, h: string)
    requires Init(c, s) && h in c.nodes
    ensures s.caches[h].world == EMPTY_WORLD
  {
  }

  lemma WorldMoves(c: Config, s: State, a: Action, s': State, n: string)
    requires Next(c, s, a, s') && n in s.caches && n in s'.caches && a != CachePublish(n)
    ensures s'.caches[n].world == if a == CacheRestart(n) then EMPTY_WORLD else s.caches[n].world
  {
    hide FetchOne, PodGetOf, Entries, Rebuilt, ListedIn, Todo, Conflict, Written, NeedsPatch, Holdings;
  }

  // ---------------------------------------------------------------- after convergence

  /** The range stored for the pod of entry a is the one that its annotation now asks for. */
  ghost predicate Current(c: Config, s: State, a: Assignment, ranges: map<string, Range>) {
    && PodKey(a.podNamespace, a.podName) in s.pods && Key(a) in ranges
    && ranges[Key(a)] == PodRange(c.pf, TextOf(s, a), c.defaultUtil)
  }

  ghost predicate AllCurrent(c: Config, s: State, entries: seq<Assignment>, ranges: map<string, Range>) {
    forall a | a in entries :: Current(c, s, a, ranges)
  }

  ghost predicate KeysFrom(entries: seq<Assignment>, ranges: map<string, Range>) {
    forall k | k in ranges :: exists a :: a in entries && Key(a) == k
  }

  ghost predicate FetchCurrent(c: Config, s: State, n: string) {
    n in s.caches && (s.caches[n].refresh.Fetching? ==>
      var f := s.caches[n].refresh;
      && f.next <= |Entries(f.top, n)|
      && AllCurrent(c, s, Entries(f.top, n)[..f.next], f.ranges) && KeysFrom(Entries(f.top, n)[..f.next], f.ranges))
  }

  ghost predicate WorldCurrent(c: Config, s: State, n: string) {
    n in s.caches && AllCurrent(c, s, Entries(s.caches[n].world.top, n), s.caches[n].world.ranges)
  }

  lemma CurrentStays(c: Config, s: State, s': State, entries: seq<Assignment>, ranges: map<string, Range>)
    requires SameWorld(s, s') && AllCurrent(c, s, entries, ranges)
    ensures AllCurrent(c, s', entries, ranges)
  {
    forall a | a in entries ensures Current(c, s', a, ranges) {
      assert Current(c, s, a, ranges);
      assert SamePod(s.pods[PodKey(a.podNamespace, a.podName)], s'.pods[PodKey(a.podNamespace, a.podName)]);
    }
  }

  /** A successful Get adds the range of the next entry's pod. */
  lemma OneMoreCurrent(c: Config, s: State, entries: seq<Assignment>, m: nat, ranges: map<string, Range>)
    requires m < |entries| && AllCurrent(c, s, entries[..m], ranges) && KeysFrom(entries[..m], ranges)
    requires PodKey(entries[m].podNamespace, entries[m].podName) in s.pods
    requires forall a | a in entries :: '/' !in a.podNamespace
    ensures var more := FetchOne(ranges, entries[m], PodGetOf(s, entries[m], true), c.pf, c.defaultUtil);
            AllCurrent(c, s, entries[..m + 1], more) && KeysFrom(entries[..m + 1], more)
  {
    hide PodRange;
    var e := entries[m];
    var more := FetchOne(ranges, e, PodGetOf(s, e, true), c.pf, c.defaultUtil);
    assert entries[..m + 1] == entries[..m] + [e];
    forall a | a in entries[..m + 1] ensures Current(c, s, a, more) {
      if a in entries[..m] {
        assert Current(c, s, a, ranges);
      } else if Key(e) in ranges {
        var b :| b in entries[..m] && Key(b) == Key(e);
        KeyInjective(b, e);
        assert Current(c, s, b, ranges);
      }
    }
    forall k | k in more ensures exists a :: a in entries[..m + 1] && Key(a) == k {
      if k in ranges {
        var a :| a in entries[..m] && Key(a) == k;
        assert a in entries[..m + 1];
      } else {
        assert e in entries[..m + 1] && Key(e) == k;
      }
    }
  }

  lemma ExactEntries(c: Config, s: State, top: Topology, n: string)
    requires Exact(c, s, top) && NamedHolders(c, s, n)
    ensures forall a | a in Entries(top, n) :: PodKey(a.podNamespace, a.podName) in s.pods && '/' !in a.podNamespace
  {
    forall a | a in Entries(top, n) ensures PodKey(a.podNamespace, a.podName) in s.pods && '/' !in a.podNamespace {
      var key := PodKey(a.podNamespace, a.podName);
      assert NamesContainer(s, a) && Shows(top, n, a.gpuId, key);
      assert Allocated(c, s, n, a.gpuId, key);
    }
  }

  /** What a step does to the cache of n. */
  lemma RangeMoves(c: Config, s: State, a: Action, s': State, n: string)
    requires Next(c, s, a, s') && n in s.caches && n in s'.caches && a != CacheRestart(n) && a != CacheLoad(n)
    ensures var k, k' := s.caches[n], s'.caches[n];
      if a.CacheGet? && a.node == n then
        && k.refresh.Fetching? && k.refresh.next < |Entries(k.refresh.top, n)| && k'.world == k.world
        && var e := Entries(k.refresh.top, n)[k.refresh.next];
           k'.refresh == k.refresh.(next := k.refresh.next + 1,
             ranges := FetchOne(k.refresh.ranges, e, PodGetOf(s, e, a.ok), c.pf, c.defaultUtil))
      else if a == CachePublish(n) then
        && k.refresh.Fetching? && k.refresh.next == |Entries(k.refresh.top, n)|
        && k'.refresh.Resting? && k'.world == WorldState(k.refresh.top, k.refresh.ranges)
      else k' == k
  {
    hide FetchOne, PodGetOf, Entries, View, Rebuilt, ListedIn, Todo, Conflict, Written, NeedsPatch, Holdings;
  }

  lemma LoadMoves(c: Config, s: State, s': State, n: string)
    requires Next(c, s, CacheLoad(n), s') && n in s.caches && n in s'.caches
    ensures s'.caches[n].world == s.caches[n].world
    ensures s'.caches[n].refresh.Fetching? ==> s'.caches[n].refresh.next == 0 && s'.caches[n].refresh.ranges == map[]
  {
  }

  lemma StepCurrent(c: Config, s: State, a: Action, s': State, n: string)
    requires Next(c, s, a, s') && !Environment(a) && n in s.caches && n in s'.caches && NamedHolders(c, s, n)
    requires a != CacheGet(n, false) && a != CacheRestart(n)
    requires a == CacheLoad(n) || (FetchExact(c, s, n) && FetchCurrent(c, s, n))
    ensures FetchCurrent(c, s', n)
    ensures a == CachePublish(n) ==> WorldCurrent(c, s', n)
  {
    OwnSteps(c, s, a, s');
    var k, k' := s.caches[n], s'.caches[n];
    if a == CacheLoad(n) {
      LoadMoves(c, s, s', n);
    } else if k.refresh.Fetching? {
      RangeMoves(c, s, a, s', n);
      var entries, f := Entries(k.refresh.top, n), k.refresh;
      ExactEntries(c, s, f.top, n);
      hide Next, Exact, Entries;
      if a.CacheGet? && a.node == n {
        OneMoreCurrent(c, s, entries, f.next, f.ranges);
        CurrentStays(c, s, s', entries[..k'.refresh.next], k'.refresh.ranges);
      } else {
        CurrentStays(c, s, s', entries[..f.next], f.ranges);
        if a == CachePublish(n) { assert entries[..f.next] == entries; }
      }
    } else {
      RangeMoves(c, s, a, s', n);
    }
  }

  lemma StepWorldCurrent(c: Config, s: State, a: Action, s': State, n: string)
    requires Next(c, s, a, s') && !Environment(a) && n in s.caches && n in s'.caches
    requires a != CacheRestart(n) && a != CachePublish(n) && WorldCurrent(c, s, n)
    ensures WorldCurrent(c, s', n)
  {
    OwnSteps(c, s, a, s');
    if a == CacheLoad(n) { LoadMoves(c, s, s', n); } else { RangeMoves(c, s, a, s', n); }
    CurrentStays(c, s, s', Entries(s.caches[n].world.top, n), s.caches[n].world.ranges);
  }

  lemma NamedStays(c: Config, s: State, s': State, n: string)
    requires SameWorld(s, s') && NamedHolders(c, s, n)
    ensures NamedHolders(c, s', n)
  {
    assert forall g, k :: Allocated(c, s', n, g, k) <==> Allocated(c, s, n, g, k);
  }

  lemma {:induction false} NamedLater(c: Config, run: seq<State>, acts: seq<Action>, n: string, i: nat, k: nat)
    requires Run(c, run, acts) && i <= k < |run| && Undisturbed(acts, i) && NamedHolders(c, run[i], n)
    ensures NamedHolders(c, run[k], n)
  {
    hide NamedHolders;
    if i < k {
      NamedLater(c, run, acts, n, i, k - 1);
      assert StepAt(c, run, acts, k - 1);
      OwnSteps(c, run[k - 1], acts[k - 1], run[k]);
      NamedStays(c, run[k - 1], run[k], n);
    }
  }

  /** Neither a failing Get nor a restart of h's exporter between the two points. */
  ghost predicate Smooth(acts: seq<Action>, h: string, i: nat, k: nat) {
    forall m | i <= m < k && m < |acts| :: acts[m] != CacheGet(h, false) && acts[m] != CacheRestart(h)
  }

  lemma {:induction false} FetchCurrentLater(c: Config, run: seq<State>, acts: seq<Action>, h: string, a: nat, k: nat)
    requires Run(c, run, acts) && a < k < |run| && Undisturbed(acts, a) && Published(c, run[a]) && h in c.nodes
    requires acts[a] == CacheLoad(h) && Smooth(acts, h, a, k) && NamedHolders(c, run[a], h)
    ensures FetchCurrent(c, run[k], h)
    ensures acts[k - 1] == CachePublish(h) ==> WorldCurrent(c, run[k], h)
  {
    hide Published, FetchExact, FetchCurrent, WorldExact, WorldCurrent, NamedHolders;
    if a + 1 < k {
      FetchCurrentLater(c, run, acts, h, a, k - 1);
      FetchLater(c, run, acts, h, a, k - 1);
    }
    NamedLater(c, run, acts, h, a, k - 1);
    ReachableDomains(c, run, acts, k - 1);
    ReachableDomains(c, run, acts, k);
    assert StepAt(c, run, acts, k - 1);
    hide Next, Run;
    StepCurrent(c, run[k - 1], acts[k - 1], run[k], h);
  }

  /** Once current, a cache stays so: a later refresh that reaches its end without a failing Get
      finds the same annotations. */
  lemma {:induction false} WorldCurrentLater(c: Config, run: seq<State>, acts: seq<Action>, h: string,
                                             a: nat, i: nat, k: nat)
    requires Run(c, run, acts) && a < i <= k < |run| && Undisturbed(acts, a) && Published(c, run[a]) && h in c.nodes
    requires acts[a] == CacheLoad(h) && Smooth(acts, h, a, k) && NamedHolders(c, run[a], h)
    requires WorldCurrent(c, run[i], h)
    ensures WorldCurrent(c, run[k], h)
  {
    hide Published, WorldCurrent, NamedHolders, FetchCurrent;
    if i < k {
      WorldCurrentLater(c, run, acts, h, a, i, k - 1);
      if acts[k - 1] == CachePublish(h) {
        FetchCurrentLater(c, run, acts, h, a, k);
      } else {
        ReachableDomains(c, run, acts, k - 1);
        ReachableDomains(c, run, acts, k);
        assert StepAt(c, run, acts, k - 1);
        hide Next, Run;
        StepWorldCurrent(c, run[k - 1], acts[k - 1], run[k], h);
      }
    }
  }

  /** A refresh in which no Get fails makes the ranges current, and they stay so. */
  lemma RangesConverge(c: Config, run: seq<State>, acts: seq<Action>, t2: nat, t3: nat, h: string, e: nat, f: nat)
    requires Run(c, run, acts) && t2 <= t3 < |run| && Undisturbed(acts, t2) && Published(c, run[t2])
    requires h in c.nodes && t2 <= e && f <= t3 && CacheTick(acts, h, e, f)
    requires Smooth(acts, h, e, t3) && NamedHolders(c, run[t2], h)
    ensures WorldCurrent(c, run[t3], h)
  {
    hide Published, NamedHolders, WorldCurrent;
    PublishedLater(c, run, acts, t2, e);
    NamedLater(c, run, acts, h, t2, e);
    FetchCurrentLater(c, run, acts, h, e, f);
    WorldCurrentLater(c, run, acts, h, e, f, t3);
  }

  /** The row of GPU g names its holder and reads inside the range that the holder's annotation, or
      the default, asks for. */
  ghost predicate HolderReads(c: Config, s: State, h: string, g: GPU, d: Draws, key: PodKey)
    requires h in s.caches
  {
    var row := Row(s.caches[h].world, g, h, d);
    && PodKey(row.namespace, row.pod) == key && key in s.pods
    && row.container == FirstGpuName(s.pods[key].containers)
    && ReadsWithin(g, row, PodRange(c.pf, Lookup(s.pods[key].annotations, UTILIZATION), c.defaultUtil))
  }

  lemma ExactAndCurrent(c: Config, s: State, h: string, g: GPU, d: Draws, key: PodKey)
    requires Quiet(c, s) && WorldExact(c, s, h) && WorldCurrent(c, s, h) && Allocated(c, s, h, g.id, key)
    ensures HolderReads(c, s, h, g, d, key)
  {
    WorldExactRows(c, s, h, g, d);
    RowMeans(s.caches[h].world, g, h, d);
    hide Quiet, WorldExact, Row, PodRange, ReadsWithin, ReadsIdle;
    var a := Find(Entries(s.caches[h].world.top, h), g.id).value;
    assert Current(c, s, a, s.caches[h].world.ranges);
  }

  /** Convergence of the readings. Under the conditions of Convergence, and if no Get of h's cache
      fails from its tick on, every device that the kubelet of h has allocated is shown with its
      holder, the holder's first GPU container, and a load inside the range that the holder's
      annotation asks for. */
  lemma ReadingsConverge(c: Config, run: seq<State>, acts: seq<Action>, t0: nat, t1: nat, t2: nat, t3: nat,
                         a: nat, b: nat, h: string, e: nat, f: nat)
    requires Run(c, run, acts) && t0 <= t1 <= t2 <= t3 < |run| && Undisturbed(acts, t0)
    requires ReportsSane(c, run[t0]) && NoCrossWork(c, run[t0]) && NamedHolders(c, run[t0], h)
    requires AllAnnotatorsTicked(c, run, acts, t0, t1) && AnnotatedStillReported(c, run[t1])
    requires t1 <= a && b <= t2 && UpdaterTick(run, acts, a, b)
    requires h in c.nodes && t2 <= e && f <= t3 && CacheTick(acts, h, e, f) && Smooth(acts, h, e, t3)
    ensures h in run[t3].caches
    ensures forall g: GPU, d, key | Allocated(c, run[t3], h, g.id, key) :: HolderReads(c, run[t3], h, g, d, key)
  {
    hide ReportsSane, NoCrossWork, ConfigMapExact, UpdateExact, FetchExact, WorldExact, Inv, NamedHolders;
    hide WorldCurrent, HolderReads;
    Reachable(c, run, acts, t0);
    AnnotationsConverge(c, run, acts, t0, t1);
    ConfigMapConverges(c, run, acts, t1, t2, a, b);
    CacheConverges(c, run, acts, t2, t3, h, e, f);
    NamedLater(c, run, acts, h, t0, t2);
    RangesConverge(c, run, acts, t2, t3, h, e, f);
    ReachableDomains(c, run, acts, t3);
    forall g: GPU, d, key | Allocated(c, run[t3], h, g.id, key) ensures HolderReads(c, run[t3], h, g, d, key) {
      ExactAndCurrent(c, run[t3], h, g, d, key);
    }
  }
}
