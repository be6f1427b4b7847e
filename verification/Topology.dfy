/** pkg/topology/configmap.go: the schema of the topology ConfigMap and its accessors. */
module Topology {
  import opened Text
  import opened Cluster

  /** One GPU-to-container binding. */
  datatype Assignment = Assignment(gpuId: string, podNamespace: string, podName: string, container: string)

  /** Node name to the bindings on that node; an absent node means that all its GPUs are idle. */
  type Topology = map<string, seq<Assignment>>

  const DATA_KEY := "topology.yaml"

  /** The value under a data key. YAML text is kept abstract: it is empty, the image of a
      topology under the marshaller, or something that does not unmarshal. */
  datatype Body = Blank | Yaml(top: Topology) | Garbage

  datatype ConfigMap = ConfigMap(labels: map<string, string>, data: map<string, Body>)

  datatype Loaded = Loaded(top: Topology) | LoadFailed

  function Entries(t: Topology, node: string): seq<Assignment> {
    if node in t then t[node] else []
  }

  /** What Load makes of the ConfigMap that its Get returned. */
  function View(cm: Option<ConfigMap>): Loaded {
    if cm.None? || DATA_KEY !in cm.value.data then Loaded(map[])
    else match cm.value.data[DATA_KEY]
      case Blank => Loaded(map[])
      case Yaml(top) => Loaded(top)
      case Garbage => LoadFailed
  }

  /** Whether the ConfigMap already holds exactly this body. */
  predicate Stored(cm: Option<ConfigMap>, top: Topology) {
    cm.Some? && DATA_KEY in cm.value.data && cm.value.data[DATA_KEY] == Yaml(top)
  }

  /** The object that Save creates, or turns an existing one into. */
  function Written(cm: Option<ConfigMap>, top: Topology): ConfigMap {
    if cm.Some? then cm.value.(data := cm.value.data[DATA_KEY := Yaml(top)])
    else ConfigMap(map["app.kubernetes.io/part-of" := "sims",
                       "app.kubernetes.io/managed-by" := "fake-rocm-gpu-operator"],
                   map[DATA_KEY := Yaml(top)])
  }

  /** What is saved is what is loaded. */
  lemma WrittenView(cm: Option<ConfigMap>, top: Topology)
    ensures View(Some(Written(cm, top))) == Loaded(top) && (Stored(cm, top) ==> View(cm) == Loaded(top))
  {
    assert Written(cm, top).data[DATA_KEY] == Yaml(top);
  }

  /** FindAssignment's answer: the first entry for the GPU. */
  function Find(entries: seq<Assignment>, gpu: string): (found: Option<Assignment>)
    ensures found.Some? ==> found.value in entries && found.value.gpuId == gpu
    ensures found.None? <==> forall a | a in entries :: a.gpuId != gpu
  {
    if |entries| == 0 then None
    else if entries[0].gpuId == gpu then Some(entries[0])
    else Find(entries[1..], gpu)
  }

  method FindAssignment(t: Topology, node: string, gpu: string) returns (found: Option<Assignment>)
    ensures found == Find(Entries(t, node), gpu)
  {
    var entries := Entries(t, node);
    for i := 0 to |entries|
      invariant Find(entries, gpu) == Find(entries[i..], gpu)
    {
      assert entries[i..][1..] == entries[i + 1..];
      if entries[i].gpuId == gpu { return Some(entries[i]); }
    }
    return None;
  }

  ghost predicate OnePerGpu(entries: seq<Assignment>) {
    forall i, j | 0 <= i < j < |entries| :: entries[i].gpuId != entries[j].gpuId
  }

  /** With one entry per GPU the first match is the only match, so its position is irrelevant. */
  lemma FindIsMembership(entries: seq<Assignment>, a: Assignment)
    requires OnePerGpu(entries) && a in entries
    ensures Find(entries, a.gpuId) == Some(a)
  {
    var found := Find(entries, a.gpuId).value;
    var i :| 0 <= i < |entries| && entries[i] == a;
    var j :| 0 <= j < |entries| && entries[j] == found;
  }

  class ConfigMapClient {
    var cm: Option<ConfigMap>
    var writes: nat

    constructor (cm: Option<ConfigMap>)
      ensures this.cm == cm && writes == 0
    {
      this.cm := cm;
      this.writes := 0;
    }

    /** Load: a missing ConfigMap is an empty topology, not an error. */
    method Load(getFails: bool) returns (r: Loaded)
      ensures r == if getFails then LoadFailed else View(cm)
      ensures !getFails && cm.None? ==> r == Loaded(map[])
      ensures !getFails && cm.Some? ==>
        if "topology.yaml" !in cm.value.data then r == Loaded(map[])
        else match cm.value.data["topology.yaml"]
             case Blank => r == Loaded(map[])
             case Yaml(top) => r == Loaded(top)
             case Garbage => r.LoadFailed?
    {
      if getFails { return LoadFailed; }
      if cm.None? { return Loaded(map[]); }
      if DATA_KEY !in cm.value.data || cm.value.data[DATA_KEY].Blank? { return Loaded(map[]); }
      match cm.value.data[DATA_KEY]
      case Yaml(top) => return Loaded(top);
      case Garbage => return LoadFailed;
    }

    /** Save, with another writer between its Get and its write; SavedEffect says what that means. */
    method Save(top: Topology, getFails: bool, other: Between, write: Fault) returns (ok: bool)
      modifies this
      ensures (cm, ok) == Saved(old(cm), top, getFails, other, write)
      ensures old(cm).Some? && DATA_KEY in old(cm).value.data && old(cm).value.data[DATA_KEY] == Yaml(top)
          ==> writes == old(writes)
      ensures cm == (if other.Replaced? then other.cm else old(cm)) || writes == old(writes) + 1
    {
      var seen := cm;
      if other.Replaced? { cm := other.cm; }
      if getFails { return false; }
      if seen.None? {
        if cm.Some? || write.Rejected? { return false; }
        writes := writes + 1;
        cm := Some(Written(None, top));
        return write.NoFault?;
      }
      if Stored(seen, top) { return true; }
      if other.Replaced? || write.Rejected? { return false; }
      writes := writes + 1;
      cm := Some(Written(seen, top));
      return write.NoFault?;
    }
  }

  /** What another writer does to the object between our Get and our write. */
  datatype Between = Untouched | Replaced(cm: Option<ConfigMap>)

  /** Whether the other writer makes our write stale. */
  predicate Interferes(seen: Option<ConfigMap>, other: Between) {
    other.Replaced? && (seen.Some? || other.cm.Some?)
  }

  /** The object that a Save leaves behind, and whether it reports success. */
  function Saved(seen: Option<ConfigMap>, top: Topology, getFails: bool, other: Between,
                 write: Fault): (Option<ConfigMap>, bool) {
    var now := if other.Replaced? then other.cm else seen;
    if getFails then (now, false)
    else if Stored(seen, top) then (now, true)
    else if Interferes(seen, other) || write.Rejected? then (now, false)
    else (Some(Written(seen, top)), write.NoFault?)
  }

  /** A write that has not seen another one is refused, so what the other writer left stays.
      Otherwise what an exporter loads after a successful Save is what was saved; labels and other
      data keys survive; and a call that fails has changed nothing, unless its reply was lost. */
  lemma SavedEffect(seen: Option<ConfigMap>, top: Topology, getFails: bool, other: Between, write: Fault)
    ensures var (cm, ok) := Saved(seen, top, getFails, other, write);
      && (Interferes(seen, other) ==> cm == other.cm && (ok ==> Stored(seen, top)))
      && (!Interferes(seen, other) ==>
            && (ok ==> View(cm) == Loaded(top))
            && (cm == seen || cm == Some(Written(seen, top)))
            && (!ok && !write.Lost? ==> cm == seen)
            && (!getFails && write.NoFault? ==> ok))
      && (!Interferes(seen, other) && seen.None? && ok ==>
            && cm.Some? && cm.value.data.Keys == {"topology.yaml"}
            && cm.value.labels == map["app.kubernetes.io/part-of" := "sims",
                                      "app.kubernetes.io/managed-by" := "fake-rocm-gpu-operator"])
      && (!Interferes(seen, other) && seen.Some? ==>
            && cm.Some? && cm.value.labels == seen.value.labels
            && cm.value.data - {DATA_KEY} == seen.value.data - {DATA_KEY})
  {
    WrittenView(seen, top);
  }
}
