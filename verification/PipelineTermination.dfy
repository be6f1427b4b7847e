/** Every tick that has begun comes to an end: under every schedule, whatever fails and whatever the
    environment does, a component has only so many steps left until it is at rest again. */
module PipelineTermination {
  import opened Cluster
  import opened Topology
  import opened Annotator
  import opened StatusUpdater
  import opened Exporter
  import opened Pipeline
  import opened PipelineSafety
  import opened PipelineProgress

  datatype Component = AnnotatorOf(node: string) | TheUpdater | CacheOf(node: string)

  /** The first step of a tick. */
  predicate Starts(x: Component, a: Action) {
    match x
    case AnnotatorOf(n) => a == AnnotatorList(n)
    case TheUpdater => a.UpdaterList?
    case CacheOf(n) => a == CacheLoad(n)
  }

  /** A later step of a tick, successful or not. */
  predicate Moves(x: Component, a: Action) {
    match x
    case AnnotatorOf(n) => (a.AnnotatorGet? || a.AnnotatorPatch?) && a.node == n
    case TheUpdater => a.UpdaterGet? || a.UpdaterWrite?
    case CacheOf(n) => (a.CacheGet? || a.CachePublish?) && a.node == n
  }

  ghost predicate Exists(s: State, x: Component) {
    match x
    case AnnotatorOf(n) => n in s.annotators
    case TheUpdater => true
    case CacheOf(n) => FetchesOk(s, n)
  }

  /** How many steps the tick of x can still take. */
  ghost function Left(s: State, x: Component): nat
    requires Exists(s, x)
  {
    match x
    case AnnotatorOf(n) => Pending(s.annotators[n])
    case TheUpdater => if s.updater.Have? then 2 else if s.updater.Writing? then 1 else 0
    case CacheOf(n) => if s.caches[n].refresh.Fetching? then Unfetched(s.caches[n], n) + 1 else 0
  }

  /** A component that has steps left can take one without a failure, and only a component without
      any can begin a new tick. */
  lemma CanMove(c: Config, s: State, x: Component)
    requires |s.log| > 0 && DomainsOk(c, s) && Exists(s, x) && (x.AnnotatorOf? || x.CacheOf? ==> x.node in c.nodes)
    ensures Left(s, x) > 0 <==> exists a :: Moves(x, a) && Clean(a) && Enabled(c, s, a)
    ensures Left(s, x) > 0 ==> forall a | Starts(x, a) :: !Enabled(c, s, a)
  {
    if Left(s, x) > 0 {
      var a := match x
        case AnnotatorOf(n) => NextOf(s.annotators[n], n)
        case TheUpdater => if s.updater.Have? then UpdaterGet(true) else UpdaterWrite(NoFault)
        case CacheOf(n) => if Unfetched(s.caches[n], n) > 0 then CacheGet(n, true) else CachePublish(n);
      assert Moves(x, a) && Clean(a) && Enabled(c, s, a);
    }
  }

  lemma AnnotatorWears(c: Config, s: State, a: Action, s': State, n: string)
    requires Next(c, s, a, s') && n in s.annotators && n in s'.annotators && a != AnnotatorList(n)
    ensures var before, after := Pending(s.annotators[n]), Pending(s'.annotators[n]);
            if Moves(AnnotatorOf(n), a) then after < before else after <= before
  {
    hide Rebuilt, ListedIn, Todo, View, Conflict, Written, NeedsPatch, Holdings, FetchOne, PodGetOf, Entries;
  }

  lemma UpdaterWears(c: Config, s: State, a: Action, s': State)
    requires Next(c, s, a, s') && !a.UpdaterList?
    ensures var before, after := Left(s, TheUpdater), Left(s', TheUpdater);
            if Moves(TheUpdater, a) then after < before else after <= before
  {
    hide Rebuilt, ListedIn, Todo, View, Conflict, Written, NeedsPatch, Holdings, FetchOne, PodGetOf, Entries;
  }

  lemma CacheWears(c: Config, s: State, a: Action, s': State, n: string)
    requires Next(c, s, a, s') && FetchesOk(s, n) && n in s'.caches && a != CacheLoad(n)
    ensures FetchesOk(s', n)
    ensures var before, after := Left(s, CacheOf(n)), Left(s', CacheOf(n));
            if Moves(CacheOf(n), a) then after < before else after <= before
  {
    hide Rebuilt, ListedIn, Todo, View, Conflict, Written, NeedsPatch, Holdings, FetchOne, PodGetOf;
  }

  function Taken(acts: seq<Action>, x: Component, i: nat, k: nat): nat
    requires i <= k <= |acts|
    decreases k
  {
    if i == k then 0 else Taken(acts, x, i, k - 1) + if Moves(x, acts[k - 1]) then 1 else 0
  }

  lemma ReachableExists(c: Config, run: seq<State>, acts: seq<Action>, x: Component, k: nat)
    requires Run(c, run, acts) && k < |run| && (x.AnnotatorOf? || x.CacheOf? ==> x.node in c.nodes)
    ensures Exists(run[k], x) && DomainsOk(c, run[k]) && |run[k].log| > 0
  {
    Reachable(c, run, acts, k);
    if x.CacheOf? {
      ReachableRanges(c, run, acts, k);
      assert CacheFetched(c, x.node, run[k].caches[x.node]);
    }
  }

  /** Ticks end. Between the first step of a tick and the next one, and in any run, a component takes
      at most as many steps as it had left, however the scheduler picks, whatever fails and whatever
      the environment does. As long as it has steps left it can take one that does not fail; when
      it has none, its tick is over. */
  lemma {:induction false} TickEnds(c: Config, run: seq<State>, acts: seq<Action>, x: Component, i: nat, k: nat)
    requires Run(c, run, acts) && i <= k < |run| && (x.AnnotatorOf? || x.CacheOf? ==> x.node in c.nodes)
    requires forall m | i <= m < k :: !Starts(x, acts[m])
    ensures Exists(run[i], x) && Exists(run[k], x)
    ensures Taken(acts, x, i, k) + Left(run[k], x) <= Left(run[i], x)
    ensures Left(run[k], x) > 0 <==> exists a :: Moves(x, a) && Clean(a) && Enabled(c, run[k], a)
  {
    hide Next, Enabled, Left, Moves, Starts, Exists, Init;
    ReachableExists(c, run, acts, x, i);
    ReachableExists(c, run, acts, x, k);
    CanMove(c, run[k], x);
    if i < k {
      TickEnds(c, run, acts, x, i, k - 1);
      assert StepAt(c, run, acts, k - 1);
      StepWears(c, run[k - 1], acts[k - 1], run[k], x);
    }
  }

  lemma StepWears(c: Config, s: State, a: Action, s': State, x: Component)
    requires Next(c, s, a, s') && Exists(s, x) && Exists(s', x) && !Starts(x, a)
    ensures if Moves(x, a) then Left(s', x) < Left(s, x) else Left(s', x) <= Left(s, x)
  {
    hide Next;
    match x
    case AnnotatorOf(n) => AnnotatorWears(c, s, a, s', n);
    case TheUpdater => UpdaterWears(c, s, a, s');
    case CacheOf(n) => CacheWears(c, s, a, s', n);
  }
}
