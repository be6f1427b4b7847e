/** What the DeviceConfig reconciler guarantees over runs: convergence under failure, ownership,
    and a device plugin and an exporter that enumerate the same devices. */
module Reconciliation {
  import opened Text
  import opened DeviceConfig
  import Simulate
  import Exporter

  // ---------------------------------------------------------------- one task

  predicate SpecMatches(x: ChildSpec, want: ChildSpec) {
    if want.Endpoint? then x.Endpoint? && x.app == want.app else x == want
  }

  predicate Matches(x: Object, want: Want, me: Owner) {
    x.labels == want.labels && x.controller == Some(me) && SpecMatches(x.spec, want.spec)
  }

  predicate Done(objs: Store, t: Task, me: Owner) {
    match t
    case Ensure(id, want) => id in objs && Matches(objs[id], want, me)
    case Remove(id) => id !in objs
  }

  /** A child that the task cannot take over. */
  predicate Blocked(objs: Store, t: Task, me: Owner) {
    t.Ensure? && Foreign(objs, t.id, me)
  }

  predicate SameAt(a: Store, b: Store, id: ObjectId) {
    (id in a <==> id in b) && (id in a ==> a[id] == b[id])
  }

  /** A service that survives keeps its ClusterIP, and a controller reference stays. */
  predicate KeepsIdentity(x: Object, y: Object) {
    && (x.controller.Some? ==> y.controller.Some? && SameOwner(x.controller.value, y.controller.value))
    && (x.spec.Endpoint? && y.spec.Endpoint? ==> y.spec.clusterIP == x.spec.clusterIP)
  }

  /** Everything one task can do, with and without failures. */
  lemma TaskEffect(objs: Store, t: Task, me: Owner, o: Oracle, i: nat)
    ensures var r := RunTask(objs, t, me, o, i);
      && (forall id | id != t.id :: SameAt(objs, r.objs, id))
      && (r.ok ==> Done(r.objs, t, me))
      && (Blocked(objs, t, me) ==> r == Outcome(objs, false, 0))
      && (t.id in objs && t.id in r.objs ==> KeepsIdentity(objs[t.id], r.objs[t.id]))
      && (t.id in r.objs && t.id !in objs ==> r.objs[t.id].controller == Some(me))
      && (t.id in r.objs && t.id !in objs && r.objs[t.id].spec.Endpoint? ==> r.objs[t.id].spec.clusterIP == o.ip(i))
      && (!o.getFails(i) && o.write(i).NoFault? ==> (r.ok <==> !Blocked(objs, t, me)))
      && (!o.getFails(i) && o.write(i).NoFault? && Done(objs, t, me) ==> r == Outcome(objs, true, 0))
  {
  }

  /** What failures do to a task, compared with the same task without any. A failed Get is an error
      and changes nothing; so is a rejected write, if there is one to make; a write whose reply is
      lost takes place and is an error. Whatever changes is counted as a write. */
  lemma TaskFaults(objs: Store, t: Task, me: Owner, o: Oracle, clean: Oracle, i: nat)
    requires !clean.getFails(i) && clean.write(i).NoFault? && clean.ip(i) == o.ip(i)
    ensures var r, r0 := RunTask(objs, t, me, o, i), RunTask(objs, t, me, clean, i);
      && (t.Ensure? && o.getFails(i) ==> r == Outcome(objs, false, 0))
      && (t.Ensure? && !o.getFails(i) && r0.writes == 0 ==> r == r0)
      && (o.write(i).Rejected? ==> r.objs == objs && (t.Remove? || r0.writes > 0 ==> !r.ok))
      && (o.write(i).Lost? && (t.Remove? || (!o.getFails(i) && r0.writes > 0)) ==> r.objs == r0.objs && !r.ok)
      && (r.objs != objs ==> r.writes == 1) && r.writes <= 1
  {
  }

  ghost predicate DistinctIds(ts: seq<Task>) {
    forall i, j | 0 <= i < j < |ts| :: ts[i].id != ts[j].id
  }

  // ---------------------------------------------------------------- one Reconcile

  lemma {:induction false} TasksFrame(objs: Store, ts: seq<Task>, n: nat, me: Owner, o: Oracle, id: ObjectId)
    requires n <= |ts| && forall j | 0 <= j < n :: ts[j].id != id
    ensures SameAt(objs, RunTasks(objs, ts, n, me, o).objs, id)
  {
    if n > 0 {
      TasksFrame(objs, ts, n - 1, me, o, id);
      TaskEffect(RunTasks(objs, ts, n - 1, me, o).objs, ts[n - 1], me, o, n - 1);
    }
  }

  lemma {:induction false} TasksDone(objs: Store, ts: seq<Task>, n: nat, me: Owner, o: Oracle)
    requires n <= |ts| && DistinctIds(ts) && RunTasks(objs, ts, n, me, o).ok
    ensures forall j | 0 <= j < n :: Done(RunTasks(objs, ts, n, me, o).objs, ts[j], me)
  {
    if n > 0 {
      var prev, r := RunTasks(objs, ts, n - 1, me, o), RunTasks(objs, ts, n, me, o);
      TasksDone(objs, ts, n - 1, me, o);
      TaskEffect(prev.objs, ts[n - 1], me, o, n - 1);
      forall j | 0 <= j < n ensures Done(r.objs, ts[j], me) {
        if j < n - 1 { assert SameAt(prev.objs, r.objs, ts[j].id); }
      }
    }
  }

  ghost predicate FaultFree(o: Oracle, n: nat) {
    forall i | 0 <= i < n :: !o.getFails(i) && o.write(i).NoFault?
  }

  /** Without failures the tasks succeed exactly when none of them meets a foreign child. */
  lemma {:induction false} TasksSucceed(objs: Store, ts: seq<Task>, n: nat, me: Owner, o: Oracle)
    requires n <= |ts| && DistinctIds(ts) && FaultFree(o, n)
    ensures RunTasks(objs, ts, n, me, o).ok <==> forall j | 0 <= j < n :: !Blocked(objs, ts[j], me)
  {
    if n > 0 {
      var prev := RunTasks(objs, ts, n - 1, me, o);
      TasksSucceed(objs, ts, n - 1, me, o);
      TasksFrame(objs, ts, n - 1, me, o, ts[n - 1].id);
      TaskEffect(prev.objs, ts[n - 1], me, o, n - 1);
      assert Blocked(prev.objs, ts[n - 1], me) <==> Blocked(objs, ts[n - 1], me);
    }
  }

  lemma {:induction false} TasksIdle(objs: Store, ts: seq<Task>, n: nat, me: Owner, o: Oracle)
    requires n <= |ts| && FaultFree(o, n) && forall j | 0 <= j < n :: Done(objs, ts[j], me)
    ensures RunTasks(objs, ts, n, me, o) == Outcome(objs, true, 0)
  {
    if n > 0 {
      TasksIdle(objs, ts, n - 1, me, o);
      TaskEffect(objs, ts[n - 1], me, o, n - 1);
    }
  }

  /** The children are what the spec asks for: present with the desired labels, spec and owner, or
      absent. */
  ghost predicate Configured(cfg: Config, me: Owner, spec: Spec, objs: Store) {
    forall i | 0 <= i < 5 :: Done(objs, Tasks(cfg, spec)[i], me)
  }

  /** No child that the spec wants belongs to somebody else. */
  ghost predicate Unblocked(cfg: Config, me: Owner, spec: Spec, objs: Store) {
    forall i | 0 <= i < 5 :: !Blocked(objs, Tasks(cfg, spec)[i], me)
  }

  /** One error-free Reconcile, from any store: it succeeds exactly when no wanted child is
      foreign-owned; it then leaves the children as the spec asks, everything else untouched, and
      nothing to do for the next one. */
  lemma CleanReconcile(cfg: Config, w: World, name: string, o: Oracle, o': Oracle)
    requires Clean(o) && Clean(o') && name in w.crs
    ensures var spec, me, r := w.crs[name].spec, OwnerOf(name, w.crs[name]), Reconciled(cfg, w, name, o);
      && (r.ok <==> Unblocked(cfg, me, spec, w.objs))
      && (r.ok ==> Configured(cfg, me, spec, r.world.objs))
      && (forall id | id !in Managed(cfg) :: SameAt(w.objs, r.world.objs, id))
      && (r.ok ==> var again := Reconciled(cfg, r.world, name, o');
                   again.ok && again.writes == 0 && again.world.objs == r.world.objs)
  {
    var cr := w.crs[name];
    var ts, me := Tasks(cfg, cr.spec), OwnerOf(name, cr);
    var r := RunTasks(w.objs, ts, 5, me, o);
    TasksSucceed(w.objs, ts, 5, me, o);
    forall id | id !in Managed(cfg) ensures SameAt(w.objs, r.objs, id) {
      TasksFrame(w.objs, ts, 5, me, o, id);
    }
    if r.ok {
      TasksDone(w.objs, ts, 5, me, o);
      TasksIdle(r.objs, ts, 5, me, o');
    }
  }

  /** Two children that differ at most in readiness and in the IP the API server gave them. */
  predicate SameChild(x: Object, y: Object) {
    && x.labels == y.labels && x.controller == y.controller
    && (x.spec == y.spec || (x.spec.Endpoint? && y.spec.Endpoint? && x.spec.app == y.spec.app))
  }

  /** Being configured pins the children down, so they cannot depend on the history. */
  lemma ConfiguredDetermines(cfg: Config, me: Owner, spec: Spec, a: Store, b: Store, id: ObjectId)
    requires Configured(cfg, me, spec, a) && Configured(cfg, me, spec, b) && id in Managed(cfg)
    ensures (id in a <==> id in b) && (id in a ==> SameChild(a[id], b[id]))
  {
    var ts := Tasks(cfg, spec);
    var i := TaskFor(cfg, spec, id);
    hide Tasks;
    assert Done(a, ts[i], me) && Done(b, ts[i], me);
  }

  lemma TaskFor(cfg: Config, spec: Spec, id: ObjectId) returns (i: nat)
    requires id in Managed(cfg)
    ensures i < 5 && Tasks(cfg, spec)[i].id == id
  {
    var ts := Tasks(cfg, spec);
    i := if id == ts[0].id then 0 else if id == ts[1].id then 1 else if id == ts[2].id then 2
         else if id == ts[3].id then 3 else 4;
  }

  // ---------------------------------------------------------------- runs

  datatype Event =
    | EditCr(name: string, cr: Option<DeviceConfig>)
    | Reconcile(name: string, o: Oracle)
    // One task of a Reconcile that others interleave with, or that is cut short, or that works for a
    // DeviceConfig as it once was.
    | TaskStep(name: string, uid: string, spec: Spec, i: nat, o: Oracle)
    | Observe(id: ObjectId, numberReady: nat, desired: nat)   // the workload controllers report readiness

  function After(cfg: Config, w: World, e: Event): World {
    match e
    case EditCr(name, cr) => w.(crs := if cr.Some? then w.crs[name := cr.value] else w.crs - {name})
    case Reconcile(name, o) => Reconciled(cfg, w, name, o).world
    case TaskStep(name, uid, spec, i, o) =>
      if i < 5 then w.(objs := RunTask(w.objs, Tasks(cfg, spec)[i], Owner("DeviceConfig", name, uid), o, i).objs) else w
    case Observe(id, r, d) =>
      if id in w.objs then w.(objs := w.objs[id := w.objs[id].(numberReady := r, desiredScheduled := d)]) else w
  }

  function AfterAll(cfg: Config, w: World, es: seq<Event>): World {
    if |es| == 0 then w else After(cfg, AfterAll(cfg, w, es[..|es| - 1]), es[|es| - 1])
  }

  lemma {:induction false} TasksKeepIdentity(objs: Store, ts: seq<Task>, n: nat, me: Owner, o: Oracle, id: ObjectId)
    requires n <= |ts| && DistinctIds(ts) && id in objs && id in RunTasks(objs, ts, n, me, o).objs
    ensures KeepsIdentity(objs[id], RunTasks(objs, ts, n, me, o).objs[id])
  {
    if n > 0 {
      var prev := RunTasks(objs, ts, n - 1, me, o);
      if ts[n - 1].id == id {
        TasksFrame(objs, ts, n - 1, me, o, id);
      } else {
        TaskEffect(prev.objs, ts[n - 1], me, o, n - 1);
        assert prev.ok ==> SameAt(prev.objs, RunTask(prev.objs, ts[n - 1], me, o, n - 1).objs, id);
        TasksKeepIdentity(objs, ts, n - 1, me, o, id);
      }
      TaskEffect(prev.objs, ts[n - 1], me, o, n - 1);
    }
  }

  /** The first n tasks of a Reconcile as events of their own. */
  function StepsOf(name: string, cr: DeviceConfig, o: Oracle, n: nat): seq<Event> {
    seq(n, i requires i >= 0 => TaskStep(name, cr.uid, cr.spec, i, o))
  }

  /** A Reconcile is the sequence of its tasks, up to the first one that fails. What holds of runs with
      single tasks therefore holds of Reconciles that are interleaved with anything at all. */
  lemma {:induction false} ReconcileIsSteps(cfg: Config, w: World, name: string, o: Oracle, n: nat)
    requires name in w.crs && !o.crFails && n <= 5
    requires n < 5 ==> !RunTasks(w.objs, Tasks(cfg, w.crs[name].spec), n, OwnerOf(name, w.crs[name]), o).ok
    requires n > 0 ==> RunTasks(w.objs, Tasks(cfg, w.crs[name].spec), n - 1, OwnerOf(name, w.crs[name]), o).ok
    ensures AfterAll(cfg, w, StepsOf(name, w.crs[name], o, n)).objs == Reconciled(cfg, w, name, o).world.objs
  {
    var cr := w.crs[name];
    var ts, me := Tasks(cfg, cr.spec), OwnerOf(name, cr);
    hide Tasks;
    StepsRun(cfg, w, name, o, n);
    if n < 5 { StopsAt(w.objs, ts, n, me, o); }
  }

  lemma {:induction false} StepsRun(cfg: Config, w: World, name: string, o: Oracle, n: nat)
    requires name in w.crs && n <= 5
    requires n > 0 ==> RunTasks(w.objs, Tasks(cfg, w.crs[name].spec), n - 1, OwnerOf(name, w.crs[name]), o).ok
    ensures var cr := w.crs[name];
            AfterAll(cfg, w, StepsOf(name, cr, o, n)).objs
              == RunTasks(w.objs, Tasks(cfg, cr.spec), n, OwnerOf(name, cr), o).objs
  {
    var cr := w.crs[name];
    var ts, me := Tasks(cfg, cr.spec), OwnerOf(name, cr);
    hide Tasks, RunTask;
    if n > 0 {
      assert n > 1 ==> RunTasks(w.objs, ts, n - 2, me, o).ok;
      StepsRun(cfg, w, name, o, n - 1);
      assert StepsOf(name, cr, o, n)[..n - 1] == StepsOf(name, cr, o, n - 1);
    }
  }

  /** Whichever DeviceConfig an event reconciles and wherever that fails, a child that is still there
      has its old controller and, if it is a service, its old ClusterIP. */
  lemma EventSafety(cfg: Config, w: World, e: Event, id: ObjectId)
    requires id in w.objs && id in After(cfg, w, e).objs
    ensures KeepsIdentity(w.objs[id], After(cfg, w, e).objs[id])
  {
    hide Tasks, RunTask;
    if e.Reconcile? && !e.o.crFails && e.name in w.crs {
      var cr := w.crs[e.name];
      TasksKeepIdentity(w.objs, Tasks(cfg, cr.spec), 5, OwnerOf(e.name, cr), e.o, id);
    }
    if e.TaskStep? && e.i < 5 {
      TaskEffect(w.objs, Tasks(cfg, e.spec)[e.i], Owner("DeviceConfig", e.name, e.uid), e.o, e.i);
      assert id != Tasks(cfg, e.spec)[e.i].id ==> SameAt(w.objs, After(cfg, w, e).objs, id);
    }
  }

  /** No event creates, changes or deletes an object outside the managed names, except that the
      workload controllers report readiness. */
  lemma EventFrame(cfg: Config, w: World, e: Event, id: ObjectId)
    requires id !in Managed(cfg)
    ensures !(e.Observe? && e.id == id) ==> SameAt(w.objs, After(cfg, w, e).objs, id)
    ensures SameButReadiness(w.objs, After(cfg, w, e).objs, id)
  {
    if e.Reconcile? && !e.o.crFails && e.name in w.crs {
      var cr := w.crs[e.name];
      TasksFrame(w.objs, Tasks(cfg, cr.spec), 5, OwnerOf(e.name, cr), e.o, id);
    }
    if e.TaskStep? && e.i < 5 {
      TaskEffect(w.objs, Tasks(cfg, e.spec)[e.i], Owner("DeviceConfig", e.name, e.uid), e.o, e.i);
    }
  }

  predicate SameButReadiness(a: Store, b: Store, id: ObjectId) {
    && (id in a <==> id in b)
    && (id in a ==> b[id] == a[id].(numberReady := b[id].numberReady, desiredScheduled := b[id].desiredScheduled))
  }

  ghost predicate Observed(es: seq<Event>, id: ObjectId) {
    exists e :: e in es && e.Observe? && e.id == id
  }

  /** The same over whole runs, with any number of DeviceConfigs and any failures. */
  lemma {:induction false} RunFrame(cfg: Config, w: World, es: seq<Event>, id: ObjectId)
    requires id !in Managed(cfg)
    ensures SameButReadiness(w.objs, AfterAll(cfg, w, es).objs, id)
    ensures !Observed(es, id) ==> SameAt(w.objs, AfterAll(cfg, w, es).objs, id)
  {
    if |es| > 0 {
      var init, e := es[..|es| - 1], es[|es| - 1];
      assert e in es && forall x | x in init :: x in es;
      RunFrame(cfg, w, init, id);
      EventFrame(cfg, AfterAll(cfg, w, init), e, id);
      hide After;
    }
  }

  /** Only services have an endpoint spec. */
  ghost predicate WellTyped(objs: Store) {
    forall id | id in objs :: objs[id].spec.Endpoint? <==> id.kind.Service?
  }

  predicate TypedTask(t: Task) {
    t.Ensure? ==> (t.want.spec.Endpoint? <==> t.id.kind.Service?)
  }

  lemma TypedStep(objs: Store, t: Task, me: Owner, o: Oracle, i: nat)
    requires WellTyped(objs) && TypedTask(t)
    ensures WellTyped(RunTask(objs, t, me, o, i).objs)
  {
  }

  lemma {:induction false} TasksTyped(objs: Store, ts: seq<Task>, n: nat, me: Owner, o: Oracle)
    requires n <= |ts| && WellTyped(objs) && forall j | 0 <= j < |ts| :: TypedTask(ts[j])
    ensures WellTyped(RunTasks(objs, ts, n, me, o).objs)
  {
    hide WellTyped, RunTask;
    if n > 0 {
      TasksTyped(objs, ts, n - 1, me, o);
      TypedStep(RunTasks(objs, ts, n - 1, me, o).objs, ts[n - 1], me, o, n - 1);
    }
  }

  lemma TasksAreTyped(cfg: Config, spec: Spec)
    ensures forall i | 0 <= i < 5 :: TypedTask(Tasks(cfg, spec)[i])
  {
  }

  lemma EventTyped(cfg: Config, w: World, e: Event)
    requires WellTyped(w.objs)
    ensures WellTyped(After(cfg, w, e).objs)
  {
    hide Tasks, RunTask, TypedTask;
    if e.Reconcile? && !e.o.crFails && e.name in w.crs {
      TasksAreTyped(cfg, w.crs[e.name].spec);
      TasksTyped(w.objs, Tasks(cfg, w.crs[e.name].spec), 5, OwnerOf(e.name, w.crs[e.name]), e.o);
    }
    if e.TaskStep? && e.i < 5 {
      TasksAreTyped(cfg, e.spec);
      TypedStep(w.objs, Tasks(cfg, e.spec)[e.i], Owner("DeviceConfig", e.name, e.uid), e.o, e.i);
    }
  }

  /** The object exists after every prefix of the run. */
  ghost predicate Lives(cfg: Config, w: World, es: seq<Event>, id: ObjectId) {
    forall n | 0 <= n <= |es| :: id in AfterAll(cfg, w, es[..n]).objs
  }

  /** Ownership over runs with any number of DeviceConfigs: while a child lives, its controller and
      a service's ClusterIP never change. */
  lemma {:induction false} Ownership(cfg: Config, w: World, es: seq<Event>, id: ObjectId)
    requires WellTyped(w.objs) && Lives(cfg, w, es, id)
    ensures WellTyped(AfterAll(cfg, w, es).objs)
    ensures id in w.objs && id in AfterAll(cfg, w, es).objs
    ensures KeepsIdentity(w.objs[id], AfterAll(cfg, w, es).objs[id])
  {
    assert es[..|es|] == es && AfterAll(cfg, w, es[..0]) == w;
    if |es| > 0 {
      var init := es[..|es| - 1];
      forall n | 0 <= n <= |init| ensures init[..n] == es[..n] {}
      Ownership(cfg, w, init, id);
      var v, e := AfterAll(cfg, w, init), es[|es| - 1];
      EventSafety(cfg, v, e, id);
      EventTyped(cfg, v, e);
      hide After;
    }
  }

  // ---------------------------------------------------------------- removal

  /** Exactly when a Reconcile removes a child that is there: its task is a removal, the tasks before
      it succeeded, and the delete is not rejected. Who owns the child plays no part. */
  lemma RemovedExactlyWhen(cfg: Config, w: World, name: string, o: Oracle, i: nat)
    requires i < 5 && !o.crFails && name in w.crs && Tasks(cfg, w.crs[name].spec)[i].id in w.objs
    ensures var ts, me := Tasks(cfg, w.crs[name].spec), OwnerOf(name, w.crs[name]);
            var after := Reconciled(cfg, w, name, o).world.objs;
      ts[i].id !in after <==> ts[i].Remove? && RunTasks(w.objs, ts, i, me, o).ok && !o.write(i).Rejected?
  {
    var ts, me := Tasks(cfg, w.crs[name].spec), OwnerOf(name, w.crs[name]);
    hide Tasks;
    TaskReached(w.objs, ts, i, me, o);
  }

  /** What becomes of the child of task i is decided by that task alone, if it is reached. */
  lemma TaskReached(objs: Store, ts: seq<Task>, i: nat, me: Owner, o: Oracle)
    requires i < |ts| == 5 && DistinctIds(ts)
    ensures var prev := RunTasks(objs, ts, i, me, o);
            var here := if prev.ok then RunTask(prev.objs, ts[i], me, o, i).objs else objs;
            SameAt(here, RunTasks(objs, ts, 5, me, o).objs, ts[i].id) && SameAt(objs, prev.objs, ts[i].id)
  {
    var prev := RunTasks(objs, ts, i, me, o);
    TasksFrame(objs, ts, i, me, o, ts[i].id);
    if prev.ok {
      assert RunTasks(objs, ts, i + 1, me, o).objs == RunTask(prev.objs, ts[i], me, o, i).objs;
      LaterTasks(objs, ts, i + 1, 5, me, o, ts[i].id);
    } else {
      StopsAt(objs, ts, i, me, o);
    }
  }

  /** The fate of a child that somebody else controls, in any Reconcile: it is either removed, under
      the conditions above, or left exactly as it was. It is never taken over. */
  lemma ForeignChildFate(cfg: Config, w: World, name: string, o: Oracle, i: nat)
    requires i < 5 && !o.crFails && name in w.crs
    requires Foreign(w.objs, Tasks(cfg, w.crs[name].spec)[i].id, OwnerOf(name, w.crs[name]))
    ensures var ts, me := Tasks(cfg, w.crs[name].spec), OwnerOf(name, w.crs[name]);
            var after := Reconciled(cfg, w, name, o).world.objs;
      if ts[i].Remove? && RunTasks(w.objs, ts, i, me, o).ok && !o.write(i).Rejected? then ts[i].id !in after
      else SameAt(w.objs, after, ts[i].id)
  {
    var ts, me := Tasks(cfg, w.crs[name].spec), OwnerOf(name, w.crs[name]);
    hide Tasks;
    TaskReached(w.objs, ts, i, me, o);
    var prev := RunTasks(w.objs, ts, i, me, o);
    TaskEffect(prev.objs, ts[i], me, o, i);
  }

  /** Deletion does not look at ownership: an error-free Reconcile removes a child that another
      DeviceConfig controls exactly when the workload is switched off and no child that comes before
      it is foreign-owned and wanted. */
  lemma ForeignChildDeleted(cfg: Config, w: World, name: string, o: Oracle, i: nat)
    requires i < 5 && Clean(o) && name in w.crs
    requires Foreign(w.objs, Tasks(cfg, w.crs[name].spec)[i].id, OwnerOf(name, w.crs[name]))
    ensures var ts, me := Tasks(cfg, w.crs[name].spec), OwnerOf(name, w.crs[name]);
            var after := Reconciled(cfg, w, name, o).world.objs;
      ts[i].id !in after <==> ts[i].Remove? && forall j | 0 <= j < i :: !Blocked(w.objs, ts[j], me)
  {
    var ts, me := Tasks(cfg, w.crs[name].spec), OwnerOf(name, w.crs[name]);
    hide Tasks;
    RemovedExactlyWhen(cfg, w, name, o, i);
    TasksSucceed(w.objs, ts, i, me, o);
  }

  lemma {:induction false} LaterTasks(objs: Store, ts: seq<Task>, m: nat, n: nat, me: Owner, o: Oracle, id: ObjectId)
    requires m <= n <= |ts| && forall j | m <= j < n :: ts[j].id != id
    ensures SameAt(RunTasks(objs, ts, m, me, o).objs, RunTasks(objs, ts, n, me, o).objs, id)
  {
    if m < n {
      LaterTasks(objs, ts, m, n - 1, me, o, id);
      TaskEffect(RunTasks(objs, ts, n - 1, me, o).objs, ts[n - 1], me, o, n - 1);
    }
  }

  // ---------------------------------------------------------------- convergence under failure

  predicate About(name: string, e: Event) {
    e.Reconcile? || e.TaskStep? ==> e.name == name
  }

  /** The run reconciles one DeviceConfig only. It may be edited, deleted and recreated under a new
      UID. */
  ghost predicate Only(name: string, es: seq<Event>) {
    forall e | e in es :: About(name, e)
  }

  ghost predicate OwnChildren(cfg: Config, objs: Store, me: Owner) {
    forall id | id in Managed(cfg) :: !Foreign(objs, id, me)
  }

  lemma {:induction false} TasksOwn(objs: Store, ts: seq<Task>, n: nat, me: Owner, o: Oracle, id: ObjectId)
    requires n <= |ts| && !Foreign(objs, id, me)
    ensures !Foreign(RunTasks(objs, ts, n, me, o).objs, id, me)
  {
    if n > 0 {
      TasksOwn(objs, ts, n - 1, me, o, id);
      var prev := RunTasks(objs, ts, n - 1, me, o);
      OwnTask(prev.objs, ts[n - 1], me, o, n - 1, id);
    }
  }

  lemma OwnTask(objs: Store, t: Task, me: Owner, o: Oracle, i: nat, id: ObjectId)
    requires !Foreign(objs, id, me)
    ensures !Foreign(RunTask(objs, t, me, o, i).objs, id, me)
  {
  }

  /** Being foreign is a matter of the owner's name, not of its UID. */
  lemma OwnUnderAnyUid(cfg: Config, objs: Store, a: Owner, b: Owner)
    requires OwnChildren(cfg, objs, a) && SameOwner(a, b)
    ensures OwnChildren(cfg, objs, b)
  {
    forall id | id in Managed(cfg) ensures !Foreign(objs, id, b) {
      assert !Foreign(objs, id, a);
    }
  }

  lemma {:induction false} RunOwn(cfg: Config, w: World, name: string, me: Owner, es: seq<Event>)
    requires Only(name, es) && OwnChildren(cfg, w.objs, me) && me.kind == "DeviceConfig" && me.name == name
    ensures OwnChildren(cfg, AfterAll(cfg, w, es).objs, me)
  {
    if |es| > 0 {
      var e, init := es[|es| - 1], es[..|es| - 1];
      assert e in es && forall x | x in init :: x in es;
      RunOwn(cfg, w, name, me, init);
      EventOwn(cfg, AfterAll(cfg, w, init), name, me, e);
    }
  }

  lemma StepOwn(cfg: Config, objs: Store, me: Owner, now: Owner, t: Task, o: Oracle, i: nat)
    requires OwnChildren(cfg, objs, me) && SameOwner(me, now)
    ensures OwnChildren(cfg, RunTask(objs, t, now, o, i).objs, me)
  {
    OwnUnderAnyUid(cfg, objs, me, now);
    var after := RunTask(objs, t, now, o, i).objs;
    forall id | id in Managed(cfg) ensures !Foreign(after, id, now) { OwnTask(objs, t, now, o, i, id); }
    OwnUnderAnyUid(cfg, after, now, me);
  }

  lemma EventOwn(cfg: Config, w: World, name: string, me: Owner, e: Event)
    requires About(name, e) && me.kind == "DeviceConfig" && me.name == name
    requires OwnChildren(cfg, w.objs, me)
    ensures OwnChildren(cfg, After(cfg, w, e).objs, me)
  {
    if e.Reconcile? && name in w.crs && !e.o.crFails {
      var now := OwnerOf(name, w.crs[name]);
      OwnUnderAnyUid(cfg, w.objs, me, now);
      var ts := Tasks(cfg, w.crs[name].spec);
      hide Tasks;
      forall id | id in Managed(cfg) ensures !Foreign(After(cfg, w, e).objs, id, now) {
        TasksOwn(w.objs, ts, 5, now, e.o, id);
      }
      OwnUnderAnyUid(cfg, After(cfg, w, e).objs, now, me);
    }
    if e.TaskStep? && e.i < 5 {
      StepOwn(cfg, w.objs, me, Owner("DeviceConfig", name, e.uid), Tasks(cfg, e.spec)[e.i], e.o, e.i);
    }
  }

  /** Convergence under failure: whatever store the run starts from, whatever edits it contains and
      wherever its Reconciles failed, one error-free Reconcile afterwards succeeds and makes the
      children what the current spec asks for, provided no stranger owned a child at the start. */
  lemma ConvergesUnderFailure(cfg: Config, w: World, name: string, uid: string, es: seq<Event>, o: Oracle)
    requires Only(name, es) && OwnChildren(cfg, w.objs, Owner("DeviceConfig", name, uid))
    requires name in AfterAll(cfg, w, es).crs && Clean(o)
    ensures var v := AfterAll(cfg, w, es);
            var r := Reconciled(cfg, v, name, o);
            r.ok && Configured(cfg, OwnerOf(name, v.crs[name]), v.crs[name].spec, r.world.objs)
  {
    RunOwn(cfg, w, name, Owner("DeviceConfig", name, uid), es);
    var v := AfterAll(cfg, w, es);
    var me, spec := OwnerOf(name, v.crs[name]), v.crs[name].spec;
    OwnUnderAnyUid(cfg, v.objs, Owner("DeviceConfig", name, uid), me);
    CleanReconcile(cfg, v, name, o, o);
    forall i | 0 <= i < 5 ensures !Blocked(v.objs, Tasks(cfg, spec)[i], me) {
      assert Tasks(cfg, spec)[i].id in Managed(cfg);
    }
  }

  /** Two runs that end with the same DeviceConfig end with the same children. */
  lemma HistoryForgotten(cfg: Config, w: World, w': World, name: string, es: seq<Event>, es': seq<Event>,
                         o: Oracle, o': Oracle, id: ObjectId)
    requires Clean(o) && Clean(o') && id in Managed(cfg)
    requires var v, v' := AfterAll(cfg, w, es), AfterAll(cfg, w', es');
             && name in v.crs && name in v'.crs
             && v.crs[name].spec == v'.crs[name].spec && v.crs[name].uid == v'.crs[name].uid
             && Unblocked(cfg, OwnerOf(name, v.crs[name]), v.crs[name].spec, v.objs)
             && Unblocked(cfg, OwnerOf(name, v'.crs[name]), v'.crs[name].spec, v'.objs)
    ensures var a := Reconciled(cfg, AfterAll(cfg, w, es), name, o).world.objs;
            var b := Reconciled(cfg, AfterAll(cfg, w', es'), name, o').world.objs;
            (id in a <==> id in b) && (id in a ==> SameChild(a[id], b[id]))
  {
    var v, v' := AfterAll(cfg, w, es), AfterAll(cfg, w', es');
    CleanReconcile(cfg, v, name, o, o);
    CleanReconcile(cfg, v', name, o', o');
    ConfiguredDetermines(cfg, OwnerOf(name, v.crs[name]), v.crs[name].spec, Reconciled(cfg, v, name, o).world.objs,
                         Reconciled(cfg, v', name, o').world.objs, id);
  }

  // ---------------------------------------------------------------- device lists

  predicate HasPrefix(s: string, p: string) {
    |p| <= |s| && s[..|p|] == p
  }

  /** The value of a --name=value flag; the last occurrence wins. */
  function FlagValue(args: seq<string>, name: string): Option<string> {
    if |args| == 0 then None
    else
      var last, p := args[|args| - 1], Flag(name, "");
      if HasPrefix(last, p) then Some(last[|p|..]) else FlagValue(args[..|args| - 1], name)
  }

  function IntFlag(args: seq<string>, name: string): Option<int> {
    var v := FlagValue(args, name);
    if v.None? then None else Atoi(v.value)
  }

  /** The IDs that a device plugin started with these arguments advertises; None if it refuses to
      start. */
  function PluginDevices(args: seq<string>): Option<seq<string>> {
    var n := IntFlag(args, "gpus-per-node");
    if n.None? || n.value < 0 then None else Some(Simulate.DeviceIds(n.value))
  }

  /** The IDs of the rows of an exporter started with these arguments. */
  function ExporterDevices(args: seq<string>, hostname: string): Option<seq<string>> {
    var n, count := IntFlag(args, "gpus-per-node"), IntFlag(args, "partition-count");
    var mode := FlagValue(args, "partition-mode");
    if n.None? || count.None? || mode.None? || n.value < 0 then None
    else Some(Exporter.Ids(Simulate.NodeGpus(hostname, "", 0, n.value, mode.value, count.value)))
  }

  lemma {:induction false} FlagAt(args: seq<string>, name: string, value: string, k: nat)
    requires k < |args| && args[k] == Flag(name, value)
    requires forall j | k < j < |args| :: !HasPrefix(args[j], Flag(name, ""))
    ensures FlagValue(args, name) == Some(value)
  {
    var p := Flag(name, "");
    if k == |args| - 1 {
      assert args[k] == p + value && args[k][..|p|] == p && args[k][|p|..] == value;
    } else {
      FlagAt(args[..|args| - 1], name, value, k);
    }
  }

  lemma NoPrefix(s: string, p: string, i: nat)
    requires i < |s| && i < |p| && s[i] != p[i]
    ensures !HasPrefix(s, p)
  {
    assert |p| <= |s| ==> s[..|p|][i] == s[i];
  }

  lemma SocketFlags(flag: string)
    requires |flag| > 2 && flag[2] == 'g'
    ensures !HasPrefix(SOCKET_DIR, flag) && !HasPrefix(POD_RESOURCES, flag)
  {
    assert SOCKET_DIR[2] == 'k' && POD_RESOURCES[2] == 'p';
    NoPrefix(SOCKET_DIR, flag, 2);
    NoPrefix(POD_RESOURCES, flag, 2);
  }

  lemma PluginFlag(cfg: Config, p: Partition)
    ensures var n := Wrap32(cfg.gpusPerNode * NormalizePartition(p).1);
            IntFlag(DevicePluginArgs(cfg, p), "gpus-per-node") == Some(n)
  {
    var args, flag := DevicePluginArgs(cfg, p), Flag("gpus-per-node", "");
    var n := Wrap32(cfg.gpusPerNode * NormalizePartition(p).1);
    assert args[2] == Flag("resource-name", cfg.resourceName);
    NoPrefix(args[2], flag, 2);
    SocketFlags(flag);
    assert args[3] == SOCKET_DIR && args[4] == POD_RESOURCES;
    FlagAt(args, "gpus-per-node", Itoa(n), 1);
    AtoiItoa(n);
  }

  lemma ExporterFlags(cfg: Config, p: Partition)
    ensures var args := ExporterArgs(cfg, p);
      && IntFlag(args, "gpus-per-node") == Some(cfg.gpusPerNode)
      && FlagValue(args, "partition-mode") == Some(NormalizePartition(p).0)
      && IntFlag(args, "partition-count") == Some(NormalizePartition(p).1)
  {
    var args := ExporterArgs(cfg, p);
    ExporterGpus(cfg, p);
    assert !HasPrefix(args[7], Flag("partition-mode", "")) by { NoPrefix(args[7], Flag("partition-mode", ""), 12); }
    assert !HasPrefix(args[8], Flag("partition-mode", "")) by { NoPrefix(args[8], Flag("partition-mode", ""), 2); }
    FlagAt(args, "partition-mode", NormalizePartition(p).0, 6);
    assert !HasPrefix(args[8], Flag("partition-count", "")) by { NoPrefix(args[8], Flag("partition-count", ""), 2); }
    FlagAt(args, "partition-count", Itoa(NormalizePartition(p).1), 7);
    AtoiItoa(NormalizePartition(p).1);
  }

  lemma ExporterGpus(cfg: Config, p: Partition)
    ensures IntFlag(ExporterArgs(cfg, p), "gpus-per-node") == Some(cfg.gpusPerNode)
  {
    var args, flag := ExporterArgs(cfg, p), Flag("gpus-per-node", "");
    forall j | 2 < j < 9 ensures !HasPrefix(args[j], flag) { NoPrefix(args[j], flag, 2); }
    FlagAt(args, "gpus-per-node", Itoa(cfg.gpusPerNode), 2);
    AtoiItoa(cfg.gpusPerNode);
  }

  predicate FitsInt32(n: int) { -0x8000_0000 <= n < 0x8000_0000 }

  /** The device plugin and the exporter of a configured cluster enumerate the same devices in the
      same order, exactly when GPUs per node times partitions does not overflow the int32 that the
      reconciler computes it in. With a negative count both refuse to start, unless the product
      overflows back into the non-negative numbers. */
  lemma DeviceListsAgree(cfg: Config, me: Owner, spec: Spec, objs: Store, hostname: string)
    requires Configured(cfg, me, spec, objs) && Enabled(spec.devicePlugin) && Enabled(spec.metricsExporter)
    ensures PluginId(cfg) in objs && objs[PluginId(cfg)].spec.Workload?
    ensures ExporterId(cfg) in objs && objs[ExporterId(cfg)].spec.Workload?
    ensures var advertised := PluginDevices(objs[PluginId(cfg)].spec.args);
            var rows := ExporterDevices(objs[ExporterId(cfg)].spec.args, hostname);
            var product := cfg.gpusPerNode * NormalizePartition(spec.partition).1;
      && (cfg.gpusPerNode >= 0 ==> rows.Some? && (advertised == rows <==> FitsInt32(product)))
      && (cfg.gpusPerNode < 0 ==> rows.None? && (advertised == rows <==> Wrap32(product) < 0))
  {
    var p := spec.partition;
    ConfiguredArgs(cfg, me, spec, objs);
    PluginFlag(cfg, p);
    ExporterFlags(cfg, p);
    hide Configured, DevicePluginArgs, ExporterArgs, IntFlag, FlagValue, PluginId, ExporterId;
    if cfg.gpusPerNode >= 0 { ListsAgree(hostname, cfg.gpusPerNode, NormalizePartition(p).0, NormalizePartition(p).1); }
  }

  lemma ConfiguredArgs(cfg: Config, me: Owner, spec: Spec, objs: Store)
    requires Configured(cfg, me, spec, objs) && Enabled(spec.devicePlugin) && Enabled(spec.metricsExporter)
    ensures var id := PluginId(cfg);
            id in objs && objs[id].spec.Workload? && objs[id].spec.args == DevicePluginArgs(cfg, spec.partition)
    ensures var id := ExporterId(cfg);
            id in objs && objs[id].spec.Workload? && objs[id].spec.args == ExporterArgs(cfg, spec.partition)
  {
    hide DevicePluginArgs, ExporterArgs;
    var ts := Tasks(cfg, spec);
    assert Done(objs, ts[0], me) && Done(objs, ts[1], me);
  }

  lemma ListsAgree(hostname: string, gpus: Int32, mode: string, count: Int32)
    requires gpus >= 0 && count >= 1 && (mode == "cpx" || (mode == "spx" && count == 1))
    ensures var advertised := if Wrap32(gpus * count) < 0 then None else Some(Simulate.DeviceIds(Wrap32(gpus * count)));
            var rows := Some(Exporter.Ids(Simulate.NodeGpus(hostname, "", 0, gpus, mode, count)));
            advertised == rows <==> FitsInt32(gpus * count)
  {
    assert Simulate.EffectiveCount(mode, count) == count;
    var rows := Exporter.Ids(Simulate.NodeGpus(hostname, "", 0, gpus, mode, count));
    assert |rows| == gpus * count;
    assert rows == Simulate.DeviceIds(gpus * count);
  }

  /** Within the CRD's bound of 8 partitions, up to 2^28 - 1 GPUs per node are safe; the next
      number is not. */
  lemma AgreementBound(p: Partition)
    requires p.count <= 8
    ensures forall gpus: Int32 | 0 <= gpus < 0x1000_0000 :: FitsInt32(gpus * NormalizePartition(p).1)
    ensures p == Partition("cpx", 8) ==> !FitsInt32(0x1000_0000 * NormalizePartition(p).1)
  {
    forall gpus: Int32 | 0 <= gpus < 0x1000_0000 ensures FitsInt32(gpus * NormalizePartition(p).1) {
      var c := NormalizePartition(p).1;
      assert gpus * c <= gpus * 8 by { assert gpus * (8 - c) >= 0; }
    }
  }
}
