/** internal/statusupdater/run.go: from pod annotations to the topology ConfigMap. */
module StatusUpdater {
  import opened Text
  import opened Cluster
  import opened Topology

  /** A pod as the List call returns it. */
  datatype Listed = Listed(key: PodKey, pod: Pod)

  predicate HasGpuRequest(c: Container) {
    || (AMD_GPU in c.limits && c.limits[AMD_GPU] != 0)
    || (AMD_GPU in c.requests && c.requests[AMD_GPU] != 0)
  }

  function FirstGpuName(cs: seq<Container>): string {
    if |cs| == 0 then "" else if HasGpuRequest(cs[0]) then cs[0].name else FirstGpuName(cs[1..])
  }

  /** The amount of amd.com/gpu in a resource list; an absent entry counts as zero. */
  function Amount(m: map<string, int>): int {
    if "amd.com/gpu" in m then m["amd.com/gpu"] else 0
  }

  /** Container i is the first one with a non-zero GPU limit or a non-zero GPU request. */
  ghost predicate FirstWithGpu(cs: seq<Container>, i: int) {
    && 0 <= i < |cs| && (Amount(cs[i].limits) != 0 || Amount(cs[i].requests) != 0)
    && forall j | 0 <= j < i :: Amount(cs[j].limits) == 0 && Amount(cs[j].requests) == 0
  }

  /** The name found is that of the first container with GPUs, and "" if there is none. */
  lemma {:induction false} FirstGpuNameMeans(cs: seq<Container>)
    ensures forall i | FirstWithGpu(cs, i) :: FirstGpuName(cs) == cs[i].name
    ensures (forall i :: !FirstWithGpu(cs, i)) ==> FirstGpuName(cs) == ""
  {
    if |cs| > 0 {
      FirstGpuNameMeans(cs[1..]);
      if HasGpuRequest(cs[0]) {
        assert FirstWithGpu(cs, 0);
      } else {
        forall i | FirstWithGpu(cs, i) ensures i > 0 && FirstWithGpu(cs[1..], i - 1) {
          assert forall j | 0 <= j < i - 1 :: cs[1..][j] == cs[j + 1];
        }
        forall i | FirstWithGpu(cs[1..], i) ensures FirstWithGpu(cs, i + 1) {
          assert forall j | 0 < j <= i :: cs[j] == cs[1..][j - 1];
        }
      }
    }
  }

  method FirstGpuContainer(p: Pod) returns (name: string)
    ensures name == FirstGpuName(p.containers)
    ensures forall i | FirstWithGpu(p.containers, i) :: name == p.containers[i].name
    ensures (forall i :: !FirstWithGpu(p.containers, i)) ==> name == ""
  {
    FirstGpuNameMeans(p.containers);
    var cs := p.containers;
    for i := 0 to |cs|
      invariant FirstGpuName(cs) == FirstGpuName(cs[i..])
      invariant forall j | 0 <= j < i :: !HasGpuRequest(cs[j])
    {
      assert cs[i..][1..] == cs[i + 1..];
      if HasGpuRequest(cs[i]) { return cs[i].name; }
    }
    return "";
  }

  // ---------------------------------------------------------------- reading the annotation

  /** The trimmed, non-empty pieces of a comma-separated list. */
  function Pieces(parts: seq<string>): seq<string> {
    if |parts| == 0 then []
    else (var t := TrimSpace(parts[0]); if t == "" then [] else [t]) + Pieces(parts[1..])
  }

  function AssignedIds(value: string): seq<string> {
    Pieces(Split(value, ','))
  }

  /** A device ID that survives the trip through the annotation. */
  predicate CleanId(id: string) {
    id != "" && ',' !in id && Trimmed(id)
  }

  /** Splitting what the annotator joined gives the list back, exactly when every ID is clean. */
  lemma AnnotationRoundTrip(ids: seq<string>)
    ensures AssignedIds(Join(ids, ',')) == ids <==> forall id | id in ids :: CleanId(id)
  {
    AssignedIdsClean(Join(ids, ','));
    if forall id | id in ids :: CleanId(id) {
      if |ids| == 0 {
        assert Split("", ',') == [""];
        TrimSpaceTrims("");
      } else {
        SplitJoin(ids, ',');
        PiecesOfClean(ids);
      }
    }
  }

  /** A list that somebody wrote by hand, with blanks around the IDs and empty items, reads the same
      as the tidy one. */
  lemma BlanksIgnored(parts: seq<string>, ids: seq<string>)
    requires |parts| == |ids| > 0 && forall i | 0 <= i < |parts| :: Padded(parts[i], ids[i])
    requires forall i | 0 <= i < |ids| :: ids[i] == "" || CleanId(ids[i])
    ensures AssignedIds(Join(parts, ',')) == NonEmpty(ids)
  {
    forall p | p in parts ensures ',' !in p {
      var i :| 0 <= i < |parts| && parts[i] == p;
      NoComma(parts[i], ids[i]);
    }
    hide Padded, CleanId;
    SplitJoin(parts, ',');
    PaddedPieces(parts, ids);
  }

  lemma {:induction false} PaddedPieces(parts: seq<string>, ids: seq<string>)
    requires |parts| == |ids| && forall i | 0 <= i < |parts| :: Padded(parts[i], ids[i])
    requires forall i | 0 <= i < |ids| :: ids[i] == "" || CleanId(ids[i])
    ensures Pieces(parts) == NonEmpty(ids)
  {
    hide Padded, CleanId;
    if |parts| > 0 {
      PaddedPieces(parts[1..], ids[1..]);
      PaddedTrims(parts[0], ids[0]);
    }
  }

  lemma NoComma(part: string, id: string)
    requires Padded(part, id) && (id == "" || CleanId(id))
    ensures ',' !in part
  {
    var l: nat, r: nat :| PaddedBy(part, id, l, r);
    forall i | 0 <= i < |part| ensures part[i] != ',' {
      if l <= i < l + |id| { assert part[i] == part[l..l + |id|][i - l] && id[i - l] in id; }
    }
  }

  function NonEmpty(ids: seq<string>): seq<string> {
    if |ids| == 0 then [] else (if ids[0] == "" then [] else [ids[0]]) + NonEmpty(ids[1..])
  }

  predicate Blank(c: char) { c == ' ' || c == '\t' || c == '\n' }

  /** The ID with blanks before and after it. */
  ghost predicate Padded(part: string, id: string) {
    exists l: nat, r: nat :: PaddedBy(part, id, l, r)
  }

  ghost predicate PaddedBy(part: string, id: string, l: nat, r: nat) {
    && |part| == l + |id| + r && part[l..l + |id|] == id
    && forall i | 0 <= i < |part| && !(l <= i < l + |id|) :: Blank(part[i])
  }

  lemma PaddedTrims(part: string, id: string)
    requires Padded(part, id) && (id == "" || CleanId(id))
    ensures TrimSpace(part) == id
  {
    var l: nat, r: nat :| PaddedBy(part, id, l, r);
    LeftPadding(part, id, l, r);
    if id != "" {
      RightPadding(part[l..], id, r);
    } else {
      TrimSpaceTrims("");
    }
  }

  lemma {:induction false} LeftPadding(part: string, id: string, l: nat, r: nat)
    requires PaddedBy(part, id, l, r) && (id == "" || CleanId(id))
    ensures TrimLeft(part) == if id == "" then "" else part[l..]
    decreases |part|
  {
    if l > 0 {
      LeftPadding(part[1..], id, l - 1, r);
    } else if id == "" && r > 0 {
      LeftPadding(part[1..], id, 0, r - 1);
    } else if id != "" {
      assert part[0] == id[0];
    }
  }

  lemma {:induction false} RightPadding(part: string, id: string, r: nat)
    requires PaddedBy(part, id, 0, r) && CleanId(id)
    ensures TrimRight(part) == id
    decreases r
  {
    if r > 0 {
      RightPadding(part[..|part| - 1], id, r - 1);
    } else {
      assert part == id;
    }
  }

  lemma {:induction false} PiecesOfClean(ids: seq<string>)
    requires forall id | id in ids :: CleanId(id)
    ensures Pieces(ids) == ids
  {
    if |ids| > 0 {
      assert ids[0] in ids && CleanId(ids[0]) && ids == [ids[0]] + ids[1..];
      TrimSpaceTrims(ids[0]);
      PiecesOfClean(ids[1..]);
    }
  }

  lemma {:induction false} TrimSpaceKeeps(s: string, c: char)
    requires c !in s
    ensures c !in TrimLeft(s) && c !in TrimRight(s)
    decreases |s|
  {
    if |s| > 0 {
      TrimSpaceKeeps(s[1..], c);
      TrimSpaceKeeps(s[..|s| - 1], c);
    }
  }

  lemma {:induction false} PiecesClean(parts: seq<string>)
    requires forall p | p in parts :: ',' !in p
    ensures forall id | id in Pieces(parts) :: CleanId(id)
  {
    if |parts| > 0 {
      TrimSpaceTrims(parts[0]);
      TrimSpaceKeeps(parts[0], ',');
      TrimSpaceKeeps(TrimLeft(parts[0]), ',');
      PiecesClean(parts[1..]);
    }
  }

  /** Whatever an annotation holds, only clean IDs come out of it. */
  lemma AssignedIdsClean(value: string)
    ensures forall id | id in AssignedIds(value) :: CleanId(id)
  {
    PiecesClean(Split(value, ','));
  }

  // ---------------------------------------------------------------- rebuilding the topology

  function Bind(ids: seq<string>, p: Listed): seq<Assignment> {
    seq(|ids|, i requires 0 <= i < |ids| =>
      Assignment(ids[i], p.key.namespace, p.key.name, FirstGpuName(p.pod.containers)))
  }

  /** The entries that one pod contributes to its node. */
  function EntriesOf(p: Listed): seq<Assignment> {
    Bind(AssignedIds(Lookup(p.pod.annotations, ASSIGNED_GPUS)), p)
  }

  /** The entries of a node, in list order. */
  function NodeEntries(pods: seq<Listed>, node: string): seq<Assignment> {
    if |pods| == 0 || node == "" then []
    else
      var last := pods[|pods| - 1];
      NodeEntries(pods[..|pods| - 1], node) + if last.pod.node == node then EntriesOf(last) else []
  }

  ghost function Rebuilt(pods: seq<Listed>): Topology {
    map p | p in pods && NodeEntries(pods, p.pod.node) != [] :: p.pod.node := NodeEntries(pods, p.pod.node)
  }

  lemma {:induction false} NodeEntriesMembership(pods: seq<Listed>, node: string, a: Assignment)
    ensures a in NodeEntries(pods, node) <==>
            node != "" && exists p :: p in pods && p.pod.node == node && a in EntriesOf(p)
  {
    if |pods| > 0 && node != "" {
      var init, last := pods[..|pods| - 1], pods[|pods| - 1];
      NodeEntriesMembership(init, node, a);
      assert pods == init + [last];
    }
  }

  lemma RebuiltEntries(pods: seq<Listed>, node: string)
    ensures Entries(Rebuilt(pods), node) == NodeEntries(pods, node)
  {
    if NodeEntries(pods, node) != [] {
      var a := NodeEntries(pods, node)[0];
      NodeEntriesMembership(pods, node, a);
      assert node in Rebuilt(pods);
    }
  }

  function Extended(top: Topology, node: string, es: seq<Assignment>): Topology {
    if es == [] then top else top[node := Entries(top, node) + es]
  }

  /** The outer loop of reconcile. */
  method Rebuild(pods: seq<Listed>) returns (top: Topology)
    ensures top == Rebuilt(pods)
  {
    top := map[];
    for i := 0 to |pods|
      invariant top == Rebuilt(pods[..i])
    {
      var p := pods[i];
      RebuiltSnoc(pods, i);
      if p.pod.node == "" { continue; }
      var value := Lookup(p.pod.annotations, ASSIGNED_GPUS);
      if value == "" {
        EmptyAnnotation();
        continue;
      }
      top := AppendPod(top, p, value);
    }
    assert pods[..|pods|] == pods;
  }

  lemma RebuiltSnoc(pods: seq<Listed>, i: nat)
    requires i < |pods|
    ensures var p, before := pods[i], Rebuilt(pods[..i]);
            Rebuilt(pods[..i + 1]) == if p.pod.node == "" then before else Extended(before, p.pod.node, EntriesOf(p))
  {
    var p, before := pods[i], Rebuilt(pods[..i]);
    var after := if p.pod.node == "" then before else Extended(before, p.pod.node, EntriesOf(p));
    assert pods[..i + 1][..i] == pods[..i];
    forall n ensures Entries(after, n) == NodeEntries(pods[..i + 1], n) {
      RebuiltEntries(pods[..i], n);
    }
    SameEntries(after, pods[..i + 1]);
  }

  /** The inner loop of reconcile. */
  method AppendPod(top: Topology, p: Listed, value: string) returns (more: Topology)
    ensures more == Extended(top, p.pod.node, Bind(AssignedIds(value), p))
  {
    more := top;
    var container := FirstGpuContainer(p.pod);
    var parts := Split(value, ',');
    for j := 0 to |parts|
      invariant more == Extended(top, p.pod.node, Bind(Pieces(parts[..j]), p))
    {
      PiecesSnoc(parts, j);
      var gpuId := TrimSpace(parts[j]);
      if gpuId == "" { continue; }
      AppendStep(top, p, Pieces(parts[..j]), gpuId);
      var a := Assignment(gpuId, p.key.namespace, p.key.name, container);
      more := more[p.pod.node := Entries(more, p.pod.node) + [a]];
    }
    assert parts[..|parts|] == parts;
  }

  lemma AppendStep(top: Topology, p: Listed, ids: seq<string>, id: string)
    ensures var more := Extended(top, p.pod.node, Bind(ids, p));
            var a := Assignment(id, p.key.namespace, p.key.name, FirstGpuName(p.pod.containers));
            Extended(top, p.pod.node, Bind(ids + [id], p)) == more[p.pod.node := Entries(more, p.pod.node) + [a]]
  {
    var es, node := Bind(ids, p), p.pod.node;
    var a := Assignment(id, p.key.namespace, p.key.name, FirstGpuName(p.pod.containers));
    assert Bind(ids + [id], p) == es + [a];
    assert |es + [a]| > 0;
    assert Entries(top, node) + (es + [a]) == Entries(top, node) + es + [a];
    if es == [] { assert Entries(top, node) + es == Entries(top, node); }
  }

  lemma EmptyAnnotation()
    ensures AssignedIds("") == []
  {
    assert Split("", ',') == [""];
    TrimSpaceTrims("");
  }

  lemma {:induction false} PiecesSnoc(parts: seq<string>, j: nat)
    requires j < |parts|
    ensures var t := TrimSpace(parts[j]);
            Pieces(parts[..j + 1]) == if t == "" then Pieces(parts[..j]) else Pieces(parts[..j]) + [t]
  {
    if j > 0 {
      PiecesSnoc(parts[1..], j - 1);
      assert parts[..j + 1][1..] == parts[1..][..j] && parts[..j][1..] == parts[1..][..j - 1];
    }
  }

  lemma SameEntries(top: Topology, pods: seq<Listed>)
    requires forall n :: Entries(top, n) == NodeEntries(pods, n)
    requires forall n | n in top :: top[n] != []
    ensures top == Rebuilt(pods)
  {
    var r := Rebuilt(pods);
    forall n ensures n in top <==> n in r {
      RebuiltEntries(pods, n);
      assert Entries(top, n) == NodeEntries(pods, n);
    }
    forall n | n in top ensures top[n] == r[n] {
      RebuiltEntries(pods, n);
      assert Entries(top, n) == NodeEntries(pods, n);
    }
  }

  /** reconcile: a failed List leaves the ConfigMap alone; otherwise what an exporter can load
      afterwards is the old view or the topology of the listed pods, and the latter on success. If
      somebody else writes in between, what they wrote stays. */
  method Reconcile(pods: Option<seq<Listed>>, client: ConfigMapClient, getFails: bool, other: Between, write: Fault)
    returns (ok: bool)
    modifies client
    ensures pods.None? ==> !ok && client.cm == old(client.cm)
    ensures pods.Some? && Interferes(old(client.cm), other) ==> client.cm == other.cm
    ensures pods.Some? && !Interferes(old(client.cm), other) ==>
      && (ok ==> View(client.cm) == Loaded(Rebuilt(pods.value)))
      && (client.cm == old(client.cm) || client.cm == Some(Written(old(client.cm), Rebuilt(pods.value))))
      && (!getFails && write.NoFault? ==> ok)
  {
    if pods.None? { return false; }
    var top := Rebuild(pods.value);
    SavedEffect(client.cm, top, getFails, other, write);
    ok := client.Save(top, getFails, other, write);
  }

  // ---------------------------------------------------------------- exclusivity and conservation

  function IdsOf(p: Listed): seq<string> {
    AssignedIds(Lookup(p.pod.annotations, ASSIGNED_GPUS))
  }

  /** No GPU of a node is claimed twice by bound pods, neither by two pods nor by one pod. */
  ghost predicate Exclusive(pods: seq<Listed>) {
    && (forall i | 0 <= i < |pods| && pods[i].pod.node != "" :: NoDuplicates(IdsOf(pods[i])))
    && (forall i, j | 0 <= i < j < |pods| && pods[i].pod.node == pods[j].pod.node != "" ::
          forall id | id in IdsOf(pods[i]) :: id !in IdsOf(pods[j]))
  }

  /** Exclusive annotations give every GPU of a node at most one entry. */
  lemma {:induction false} ExclusiveTopology(pods: seq<Listed>, node: string)
    requires Exclusive(pods)
    ensures OnePerGpu(Entries(Rebuilt(pods), node))
  {
    RebuiltEntries(pods, node);
    if |pods| > 0 && node != "" {
      var n := |pods| - 1;
      ExclusiveTopology(pods[..n], node);
      RebuiltEntries(pods[..n], node);
      if pods[n].pod.node == node {
        forall a | a in NodeEntries(pods[..n], node) ensures a.gpuId !in IdsOf(pods[n]) {
          EarlierClaim(pods, node, a);
        }
        AppendOnePerGpu(NodeEntries(pods[..n], node), pods[n]);
      }
    }
  }

  lemma EarlierClaim(pods: seq<Listed>, node: string, a: Assignment)
    requires Exclusive(pods) && |pods| > 0 && pods[|pods| - 1].pod.node == node
    requires a in NodeEntries(pods[..|pods| - 1], node)
    ensures a.gpuId !in IdsOf(pods[|pods| - 1])
  {
    var init := pods[..|pods| - 1];
    NodeEntriesMembership(init, node, a);
    var p :| p in init && p.pod.node == node && a in EntriesOf(p);
    var k :| 0 <= k < |init| && init[k] == p;
    assert pods[k] == p && a.gpuId in IdsOf(pods[k]);
  }

  lemma AppendOnePerGpu(es: seq<Assignment>, p: Listed)
    requires OnePerGpu(es) && NoDuplicates(IdsOf(p))
    requires forall a | a in es :: a.gpuId !in IdsOf(p)
    ensures OnePerGpu(es + EntriesOf(p))
  {
    var all, ids := es + EntriesOf(p), IdsOf(p);
    forall i, j | 0 <= i < j < |all| ensures all[i].gpuId != all[j].gpuId {
      if i < |es| <= j {
        assert all[i] in es && all[j].gpuId == ids[j - |es|];
      }
    }
  }

  /** The order of the pod list does not matter: two exclusive lists of the same pods give every
      (node, GPU) the same assignment. */
  lemma OrderIrrelevant(pods: seq<Listed>, shuffled: seq<Listed>, node: string, gpu: string)
    requires Exclusive(pods) && Exclusive(shuffled) && forall p :: p in pods <==> p in shuffled
    ensures Find(Entries(Rebuilt(pods), node), gpu) == Find(Entries(Rebuilt(shuffled), node), gpu)
  {
    SubListFind(pods, shuffled, node, gpu);
    SubListFind(shuffled, pods, node, gpu);
  }

  lemma SubListFind(pods: seq<Listed>, more: seq<Listed>, node: string, gpu: string)
    requires Exclusive(more) && forall p | p in pods :: p in more
    ensures var f := Find(Entries(Rebuilt(pods), node), gpu);
            f.Some? ==> Find(Entries(Rebuilt(more), node), gpu) == f
  {
    RebuiltEntries(pods, node);
    RebuiltEntries(more, node);
    var f := Find(Entries(Rebuilt(pods), node), gpu);
    if f.Some? {
      NodeEntriesMembership(pods, node, f.value);
      NodeEntriesMembership(more, node, f.value);
      ExclusiveTopology(more, node);
      FindIsMembership(Entries(Rebuilt(more), node), f.value);
    }
  }

  function Claimed(pods: seq<Listed>, node: string): nat {
    if |pods| == 0 then 0
    else
      var last := pods[|pods| - 1];
      Claimed(pods[..|pods| - 1], node) + if last.pod.node == node then |IdsOf(last)| else 0
  }

  /** Nothing is lost or invented: a node has as many entries as its pods claim devices. */
  lemma {:induction false} EntriesConserved(pods: seq<Listed>, node: string)
    requires node != ""
    ensures |Entries(Rebuilt(pods), node)| == Claimed(pods, node)
  {
    RebuiltEntries(pods, node);
    if |pods| > 0 {
      EntriesConserved(pods[..|pods| - 1], node);
      RebuiltEntries(pods[..|pods| - 1], node);
    }
  }
}
