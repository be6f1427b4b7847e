/** The JSON merge patches of annotatePod and patchNodeLabels, applied as section 2 of RFC 7396
    prescribes. */
module MergePatch {
  import opened Cluster
  import Annotator

  datatype Json =
    | Null | Bool(b: bool) | Number(n: real) | String(s: string) | Array(items: seq<Json>)
    | Obj(fields: map<string, Json>)

  function Fields(j: Json): map<string, Json> {
    if j.Obj? then j.fields else map[]
  }

  /** The value under a key, or Null if there is none. */
  function Get(j: Json, k: string): Json {
    if k in Fields(j) then Fields(j)[k] else Null
  }

  /** MergePatch(Target, Patch). */
  function Merge(target: Json, patch: Json): Json
    decreases patch
  {
    if !patch.Obj? then patch
    else
      var was := Fields(target);
      Obj(map k | k in was.Keys + patch.fields.Keys && !(k in patch.fields && patch.fields[k].Null?) ::
        if k in patch.fields then Merge(Get(target, k), patch.fields[k]) else was[k])
  }

  /** What a patch does to a document, member by member: a patch that is not an object replaces it;
      otherwise the result is an object in which a member that the patch does not mention is as
      before, one that it sets to null is gone, and any other is patched in turn, starting from an
      absent value where there was none. */
  lemma MergeMembers(target: Json, patch: Json, k: string)
    ensures !patch.Obj? ==> Merge(target, patch) == patch
    ensures patch.Obj? ==> Merge(target, patch).Obj?
    ensures patch.Obj? && k !in patch.fields ==>
      && (k in Merge(target, patch).fields <==> target.Obj? && k in target.fields)
      && (target.Obj? && k in target.fields ==> Merge(target, patch).fields[k] == target.fields[k])
    ensures patch.Obj? && k in patch.fields && patch.fields[k].Null? ==> k !in Merge(target, patch).fields
    ensures patch.Obj? && k in patch.fields && !patch.fields[k].Null? ==>
      && k in Merge(target, patch).fields
      && var was := if target.Obj? && k in target.fields then target.fields[k] else Null;
         Merge(target, patch).fields[k] == Merge(was, patch.fields[k])
  {
  }

  /** Applying any patch twice is applying it once. */
  lemma {:induction false} MergeIdempotent(target: Json, patch: Json)
    ensures Merge(Merge(target, patch), patch) == Merge(target, patch)
    decreases patch
  {
    if patch.Obj? {
      var once := Merge(target, patch);
      var twice := Merge(once, patch);
      assert once.fields.Keys == twice.fields.Keys;
      forall k | k in once.fields ensures twice.fields[k] == once.fields[k] {
        if k in patch.fields { MergeIdempotent(Get(target, k), patch.fields[k]); }
      }
      assert once.fields == twice.fields;
    }
  }

  /** Two patches that never give a value to the same member: where they share a key, both descend
      into an object. */
  predicate Independent(p: Json, q: Json)
    decreases p
  {
    p.Obj? && q.Obj? && forall k | k in p.fields && k in q.fields :: Independent(p.fields[k], q.fields[k])
  }

  /** The order of independent patches does not matter. */
  lemma {:induction false} MergeCommutes(target: Json, p: Json, q: Json)
    requires Independent(p, q)
    ensures Merge(Merge(target, p), q) == Merge(Merge(target, q), p)
    decreases p
  {
    var pq, qp := Merge(Merge(target, p), q), Merge(Merge(target, q), p);
    assert pq.fields.Keys == qp.fields.Keys;
    forall k | k in pq.fields ensures pq.fields[k] == qp.fields[k] {
      if k in p.fields && k in q.fields { MergeCommutes(Get(target, k), p.fields[k], q.fields[k]); }
    }
    assert pq.fields == qp.fields;
  }

  // ---------------------------------------------------------------- the operator's patches

  function Strings(m: map<string, string>): Json {
    Obj(map k | k in m :: String(m[k]))
  }

  /** {"metadata": {section: values}}: the annotator sends one annotation, the labeller its labels. */
  function MetadataPatch(section: string, values: map<string, string>): Json {
    Obj(map["metadata" := Obj(map[section := Strings(values)])])
  }

  /** What the API server can hold: metadata and the section are objects or absent. */
  predicate Sectioned(target: Json, section: string) {
    && target.Obj?
    && ("metadata" in target.fields ==> target.fields["metadata"].Obj?)
    && (section in Fields(Get(target, "metadata")) ==> Get(Get(target, "metadata"), section).Obj?)
  }

  /** Exactly the named keys of the section get the named values; every other key of the section,
      every other member of metadata and every other field stays as it was. */
  lemma PatchFrame(target: Json, section: string, values: map<string, string>)
    requires Sectioned(target, section)
    ensures var after := Merge(target, MetadataPatch(section, values));
            var meta, meta' := Get(target, "metadata"), Get(after, "metadata");
      && Sectioned(after, section)
      && Fields(Get(meta', section)) == Fields(Get(meta, section)) + Strings(values).fields
      && Fields(meta') - {section} == Fields(meta) - {section}
      && Fields(after) - {"metadata"} == Fields(target) - {"metadata"}
  {
    var patch := MetadataPatch(section, values);
    var inner := patch.fields["metadata"];
    var after := Merge(target, patch);
    var meta, meta' := Get(target, "metadata"), Get(after, "metadata");
    assert meta' == Merge(meta, inner);
    StringsMerge(Get(meta, section), values);
    assert Get(meta', section) == Merge(Get(meta, section), Strings(values));
  }

  /** A flat patch of strings overwrites and never deletes. */
  lemma StringsMerge(target: Json, values: map<string, string>)
    ensures Merge(target, Strings(values)) == Obj(Fields(target) + Strings(values).fields)
  {
    var patch := Strings(values);
    var after := Merge(target, patch);
    assert forall k | k in patch.fields :: Merge(Get(target, k), patch.fields[k]) == patch.fields[k];
    assert after.fields == Fields(target) + patch.fields;
  }

  /** Annotations as the API server stores them. */
  function PodJson(annotations: map<string, string>): Json {
    Obj(map["metadata" := Obj(map["annotations" := Strings(annotations)])])
  }

  /** The annotator's patch has the effect that the pipeline model gives it. */
  lemma AnnotatePatchEffect(pod: Pod, value: string)
    ensures Merge(PodJson(pod.annotations), MetadataPatch("annotations", map[ASSIGNED_GPUS := value]))
         == PodJson(Annotator.Annotated(pod, value).annotations)
  {
    var was, extra := Strings(pod.annotations), Strings(map[ASSIGNED_GPUS := value]);
    StringsMerge(was, map[ASSIGNED_GPUS := value]);
    assert was.fields + extra.fields == Strings(Annotator.Annotated(pod, value).annotations).fields;
    MergeInside("annotations", was, extra);
    MergeInside("metadata", Obj(map["annotations" := was]), Obj(map["annotations" := extra]));
  }

  lemma MergeInside(k: string, x: Json, y: Json)
    requires !y.Null?
    ensures Merge(Obj(map[k := x]), Obj(map[k := y])) == Obj(map[k := Merge(x, y)])
  {
    assert Merge(Obj(map[k := x]), Obj(map[k := y])).fields == map[k := Merge(x, y)];
  }

  /** Annotating and labelling the same object commute, and so do patches of the same section with
      disjoint keys. */
  lemma MetadataPatchesCommute(target: Json, s: string, t: string, v: map<string, string>, w: map<string, string>)
    requires s != t || v.Keys !! w.Keys
    ensures Merge(Merge(target, MetadataPatch(s, v)), MetadataPatch(t, w))
         == Merge(Merge(target, MetadataPatch(t, w)), MetadataPatch(s, v))
  {
    assert Independent(Strings(v), Strings(w)) || s != t;
    assert Independent(MetadataPatch(s, v).fields["metadata"], MetadataPatch(t, w).fields["metadata"]);
    MergeCommutes(target, MetadataPatch(s, v), MetadataPatch(t, w));
  }

  // ---------------------------------------------------------------- the node labeller

  class NodeApi {
    var nodes: map<string, Json>

    constructor (nodes: map<string, Json>)
      ensures this.nodes == nodes
    {
      this.nodes := nodes;
    }

    /** patchNodeLabels: after a successful call the node carries the labels next to the ones it
        had, and no other node changed. */
    method PatchNodeLabels(name: string, labels: map<string, string>, fault: Fault) returns (ok: bool)
      requires forall n | n in nodes :: Sectioned(nodes[n], "labels")
      modifies this
      ensures ok <==> name in old(nodes) && fault.NoFault?
      ensures forall n | n in nodes :: Sectioned(nodes[n], "labels")
      ensures name !in old(nodes) || fault.Rejected? ==> nodes == old(nodes)
      ensures name in old(nodes) && !fault.Rejected? ==>
        && nodes == old(nodes)[name := Merge(old(nodes)[name], MetadataPatch("labels", labels))]
        && Fields(Get(Get(nodes[name], "metadata"), "labels"))
           == Fields(Get(Get(old(nodes)[name], "metadata"), "labels")) + Strings(labels).fields
    {
      var patch := MetadataPatch("labels", labels);
      if name !in nodes || fault.Rejected? { return false; }
      PatchFrame(nodes[name], "labels", labels);
      nodes := nodes[name := Merge(nodes[name], patch)];
      return fault.NoFault?;
    }
  }
}
