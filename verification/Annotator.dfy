/** pkg/deviceplugin/annotate.go: from the kubelet's device allocation to pod annotations. */
module Annotator {
  import opened Text
  import opened Cluster

  /** One entry of the kubelet's PodResources answer. */
  datatype Device = Device(resource: string, ids: seq<string>)
  datatype PodResources = PodResources(key: PodKey, containers: seq<seq<Device>>)

  // ---------------------------------------------------------------- canonical form

  /** The IDs that p holds for a resource, whatever containers and entries they sit in. */
  ghost function HeldIds(p: PodResources, resource: string): set<string> {
    set c, d, id | c in p.containers && d in c && d.resource == resource && id in d.ids :: id
  }

  ghost predicate StrictlySorted(s: seq<string>) {
    forall i, j | 0 <= i < j < |s| :: Less(s[i], s[j])
  }

  ghost predicate Enumerates(s: seq<string>, ids: set<string>) {
    StrictlySorted(s) && forall x :: x in s <==> x in ids
  }

  /** A strictly sorted list is determined by its set of elements, so the annotation cannot
      depend on container layout, duplicates or map iteration order. */
  lemma {:induction false} EnumerationUnique(s: seq<string>, t: seq<string>, ids: set<string>)
    requires Enumerates(s, ids) && Enumerates(t, ids)
    ensures s == t
  {
    EmptyEnumeration(s, ids);
    EmptyEnumeration(t, ids);
    if ids != {} {
      HeadsAgree(s, t, ids);
      TailEnumerates(s, ids);
      TailEnumerates(t, ids);
      EnumerationUnique(s[1..], t[1..], ids - {s[0]});
    }
  }

  lemma EmptyEnumeration(s: seq<string>, ids: set<string>)
    requires Enumerates(s, ids)
    ensures |s| == 0 <==> ids == {}
  {
    if |s| > 0 { assert s[0] in ids; }
  }

  lemma HeadsAgree(s: seq<string>, t: seq<string>, ids: set<string>)
    requires Enumerates(s, ids) && Enumerates(t, ids) && |s| > 0 && |t| > 0
    ensures s[0] == t[0]
  {
    assert s[0] in t && t[0] in s;
    var i :| 0 <= i < |t| && t[i] == s[0];
    var j :| 0 <= j < |s| && s[j] == t[0];
    LessTotal(s[0], t[0]);
  }

  lemma TailEnumerates(s: seq<string>, ids: set<string>)
    requires Enumerates(s, ids) && |s| > 0
    ensures Enumerates(s[1..], ids - {s[0]})
  {
    forall x ensures x in s[1..] <==> x in ids - {s[0]} {
      if x in s[1..] { LessTotal(s[0], x); }
      if x in ids - {s[0]} { assert x in s; }
    }
  }

  /** sort.Strings: insertion into a sorted list stands for the library's algorithm. */
  function SortStrings(s: seq<string>): seq<string> {
    if |s| == 0 then [] else Insert(s[0], SortStrings(s[1..]))
  }

  function Insert(x: string, s: seq<string>): seq<string> {
    if |s| == 0 || Less(x, s[0]) then [x] + s else [s[0]] + Insert(x, s[1..])
  }

  lemma {:induction false} InsertEnumerates(x: string, s: seq<string>, ids: set<string>)
    requires Enumerates(s, ids) && x !in ids
    ensures Enumerates(Insert(x, s), ids + {x})
  {
    if |s| > 0 {
      assert s[0] in s;
      if Less(x, s[0]) {
        forall j | 0 <= j < |s| ensures Less(x, s[j]) {
          if j > 0 { LessTransitive(x, s[0], s[j]); }
        }
      } else {
        LessTotal(x, s[0]);
        TailEnumerates(s, ids);
        var rest := ids - {s[0]};
        InsertEnumerates(x, s[1..], rest);
        var t := Insert(x, s[1..]);
        forall j | 0 <= j < |t| ensures Less(s[0], t[j]) {
          assert t[j] in rest + {x};
          if t[j] != x { assert t[j] in s[1..]; }
        }
      }
    }
  }

  lemma {:induction false} SortEnumerates(s: seq<string>, ids: set<string>)
    requires NoDuplicates(s) && forall x :: x in s <==> x in ids
    ensures Enumerates(SortStrings(s), ids)
  {
    if |s| > 0 {
      assert s[0] in s;
      forall x ensures x in s[1..] <==> x in ids - {s[0]} {
        if x in ids - {s[0]} { assert x in s; }
      }
      SortEnumerates(s[1..], ids - {s[0]});
      InsertEnumerates(s[0], SortStrings(s[1..]), ids - {s[0]});
      assert ids - {s[0]} + {s[0]} == ids;
    }
  }

  /** The sorted, deduplicated list of a set of IDs. */
  ghost function Canonical(ids: set<string>): (s: seq<string>)
    ensures Enumerates(s, ids)
  {
    EnumerationExists(ids);
    var s :| Enumerates(s, ids);
    s
  }

  lemma {:induction false} EnumerationExists(ids: set<string>)
    ensures exists s :: Enumerates(s, ids)
  {
    if ids == {} {
      assert Enumerates([], ids);
    } else {
      var x :| x in ids;
      EnumerationExists(ids - {x});
      var s :| Enumerates(s, ids - {x});
      InsertEnumerates(x, s, ids - {x});
      assert ids - {x} + {x} == ids;
    }
  }

  /** collectDevicesForResource. The `seen` set is emptied in an arbitrary order, as Go's map
      iteration does, and the result is nevertheless a function of the set of held IDs. */
  method CollectDevices(p: PodResources, resource: string) returns (out: seq<string>)
    ensures out == Canonical(HeldIds(p, resource))
    ensures forall id :: id in out <==>
              exists c, d :: c in p.containers && d in c && d.resource == resource && id in d.ids
    ensures forall i, j | 0 <= i < j < |out| :: Less(out[i], out[j])
  {
    var seen: set<string> := {};
    for i := 0 to |p.containers|
      invariant seen == set c, d, id | c in p.containers[..i] && d in c && d.resource == resource && id in d.ids :: id
    {
      var c := p.containers[i];
      ghost var before := seen;
      for j := 0 to |c|
        invariant seen == before + set d, id | d in c[..j] && d.resource == resource && id in d.ids :: id
      {
        var d := c[j];
        assert c[..j + 1] == c[..j] + [d];
        if d.resource == resource {
          seen := seen + (set id | id in d.ids);
        }
      }
      assert c[..|c|] == c;
      assert p.containers[..i + 1] == p.containers[..i] + [c];
    }
    assert p.containers[..|p.containers|] == p.containers;
    out := [];
    var rest := seen;
    while rest != {}
      invariant rest <= seen && NoDuplicates(out)
      invariant forall x :: x in out <==> x in seen - rest
      decreases rest
    {
      var id :| id in rest;
      assert id !in out;
      out := out + [id];
      rest := rest - {id};
    }
    SortEnumerates(out, seen);
    out := SortStrings(out);
    EnumerationUnique(out, Canonical(seen), seen);
  }

  // ---------------------------------------------------------------- one reconcile tick

  /** One pod that the tick has to annotate, with the value it should carry. */
  datatype Work = Work(key: PodKey, value: string)

  /** What one List answer asks for: an entry for every pod that holds a device. */
  ghost function Todo(report: seq<PodResources>, resource: string): seq<Work> {
    if |report| == 0 then []
    else
      var devs := Canonical(HeldIds(report[0], resource));
      (if |devs| == 0 then [] else [Work(report[0].key, Join(devs, ','))]) + Todo(report[1..], resource)
  }

  /** Whether the Get of one loop iteration succeeds, and what becomes of its Patch. */
  datatype Luck = Luck(get: bool, patch: Fault)

  /** The patch of annotatePod, as its effect on the stored pod (MergePatch.dfy shows that
      the JSON merge patch has this effect). */
  function Annotated(pod: Pod, value: string): Pod {
    pod.(annotations := pod.annotations[ASSIGNED_GPUS := value])
  }

  function AnnotationOf(pod: Pod): string {
    Lookup(pod.annotations, ASSIGNED_GPUS)
  }

  function NeedsPatch(pods: map<PodKey, Pod>, w: Work): bool {
    w.key in pods && AnnotationOf(pods[w.key]) != w.value
  }

  function AnnotateOne(pods: map<PodKey, Pod>, w: Work, luck: Luck): map<PodKey, Pod> {
    if luck.get && !luck.patch.Rejected? && NeedsPatch(pods, w)
    then pods[w.key := Annotated(pods[w.key], w.value)]
    else pods
  }

  function AnnotateAll(pods: map<PodKey, Pod>, todo: seq<Work>, luck: nat -> Luck): map<PodKey, Pod> {
    if |todo| == 0 then pods
    else
      var n := |todo| - 1;
      AnnotateOne(AnnotateAll(pods, todo[..n], luck), todo[n], luck(n))
  }

  /** Entries for one live pod agree on the value; a kubelet that lists each pod once always
      satisfies this. */
  ghost predicate Consistent(pods: map<PodKey, Pod>, todo: seq<Work>) {
    forall v, w | v in todo && w in todo && v.key == w.key && v.key in pods :: v.value == w.value
  }

  /** An error-free tick leaves nothing for the next one to patch, exactly when the report does
      not contradict itself. */
  lemma QuietAfterCleanTick(pods: map<PodKey, Pod>, todo: seq<Work>, luck: nat -> Luck)
    requires forall i | 0 <= i < |todo| :: luck(i) == Luck(true, NoFault)
    ensures (forall w | w in todo :: !NeedsPatch(AnnotateAll(pods, todo, luck), w)) <==> Consistent(pods, todo)
  {
    var after := AnnotateAll(pods, todo, luck);
    AnnotateAllEffect(pods, todo, luck);
    if forall w | w in todo :: !NeedsPatch(after, w) {
      forall v, w | v in todo && w in todo && v.key == w.key && v.key in pods ensures v.value == w.value {
        assert !NeedsPatch(after, v) && !NeedsPatch(after, w);
      }
    }
  }

  /** What an error-free tick does to the store: no pod appears or disappears, a pod outside the
      report is untouched, and a pod in the report carries one of the values asked for it. */
  lemma {:induction false} AnnotateAllEffect(pods: map<PodKey, Pod>, todo: seq<Work>, luck: nat -> Luck)
    requires forall i | 0 <= i < |todo| :: luck(i) == Luck(true, NoFault)
    ensures var after := AnnotateAll(pods, todo, luck);
      && after.Keys == pods.Keys
      && (forall k | k in pods :: after[k] == pods[k].(annotations := after[k].annotations))
      && (forall k, a | k in pods && a != ASSIGNED_GPUS ::
            Lookup(after[k].annotations, a) == Lookup(pods[k].annotations, a))
      && (forall k | k in pods && (forall w | w in todo :: w.key != k) :: after[k] == pods[k])
      && (forall w | w in todo && w.key in pods ::
            exists v :: v in todo && v.key == w.key && AnnotationOf(after[w.key]) == v.value)
  {
    if |todo| > 0 {
      var n := |todo| - 1;
      AnnotateAllEffect(pods, todo[..n], luck);
      assert todo == todo[..n] + [todo[n]];
      var mid, after := AnnotateAll(pods, todo[..n], luck), AnnotateAll(pods, todo, luck);
      forall w | w in todo && w.key in pods
        ensures exists v :: v in todo && v.key == w.key && AnnotationOf(after[w.key]) == v.value
      {
        if w.key == todo[n].key {
          assert AnnotationOf(after[w.key]) == todo[n].value;
        } else {
          assert w in todo[..n];
          var v :| v in todo[..n] && v.key == w.key && AnnotationOf(mid[w.key]) == v.value;
          assert v in todo && after[w.key] == mid[w.key];
        }
      }
    }
  }

  lemma NothingToPatch(pods: map<PodKey, Pod>, w: Work, luck: Luck)
    ensures !NeedsPatch(pods, w) ==> AnnotateOne(pods, w, luck) == pods
  {
  }

  class PodResourcesAnnotator {
    var pods: map<PodKey, Pod>   // the API server's pods
    var patches: nat             // Patch requests issued so far
    const resource: string

    constructor (resource: string, pods: map<PodKey, Pod>)
      ensures this.resource == resource && this.pods == pods && patches == 0
    {
      this.resource := resource;
      this.pods := pods;
      this.patches := 0;
    }

    /** annotatePod */
    method AnnotatePod(w: Work, luck: Luck) returns (ok: bool)
      modifies this
      ensures pods == AnnotateOne(old(pods), w, luck)
      ensures patches == old(patches) + if luck.get && NeedsPatch(old(pods), w) then 1 else 0
      ensures ok ==> w.key in pods && AnnotationOf(pods[w.key]) == w.value
      ensures ok <==> luck.get && w.key in old(pods) && (NeedsPatch(old(pods), w) ==> luck.patch.NoFault?)
    {
      if !luck.get || w.key !in pods { return false; }
      if Lookup(pods[w.key].annotations, ASSIGNED_GPUS) == w.value { return true; }
      patches := patches + 1;
      if luck.patch.Rejected? { return false; }
      pods := pods[w.key := Annotated(pods[w.key], w.value)];
      return luck.patch.NoFault?;
    }

    /** reconcile: nothing happens when List fails, and a failed annotatePod is skipped. */
    method Reconcile(report: Option<seq<PodResources>>, luck: nat -> Luck)
      modifies this
      ensures report.None? ==> pods == old(pods) && patches == old(patches)
      ensures report.Some? ==> pods == AnnotateAll(old(pods), Todo(report.value, resource), luck)
      ensures report.Some? && (forall w | w in Todo(report.value, resource) :: !NeedsPatch(old(pods), w))
           ==> pods == old(pods) && patches == old(patches)
    {
      hide HeldIds, Enumerates, Less, AnnotateOne, Canonical, Join;
      if report.None? { return; }
      var entries := report.value;
      ghost var todo := Todo(entries, resource);
      var done := 0;   // which entry of `luck` the next annotatePod meets
      assert entries[..0] == [];
      for i := 0 to |entries|
        invariant done <= |todo| && todo[done..] == Todo(entries[i..], resource)
        invariant pods == AnnotateAll(old(pods), todo[..done], luck)
        invariant (forall w | w in todo :: !NeedsPatch(old(pods), w)) ==> pods == old(pods) && patches == old(patches)
      {
        var devs := CollectDevices(entries[i], resource);
        assert entries[i..][1..] == entries[i + 1..];
        if |devs| == 0 { continue; }
        var w := Work(entries[i].key, Join(devs, ','));
        assert todo[done] == w by { assert todo[done..][0] == w; }
        assert todo[..done + 1][..done] == todo[..done];
        assert todo[done + 1..] == todo[done..][1..];
        NothingToPatch(pods, w, luck(done));
        var _ := AnnotatePod(w, luck(done));
        done := done + 1;
      }
      assert todo[..done] == todo;
    }
  }
}
