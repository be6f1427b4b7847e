# Verified model of the simulated GPU operators

This project models, in Dafny 4.11, how the simulated AMD GPU operator attributes GPUs to pods, how
its controller configures the components that do so, and the smaller protocols around them. Run
`dafny verify dfyconfig.toml` to check all proofs.

## What is modelled

**The attribution pipeline.** On every node an annotator reads the kubelet's device allocation and
annotates pods (`Annotator.dfy`). A status-updater rebuilds a topology ConfigMap from the annotations
(`StatusUpdater.dfy`, `Topology.dfy`). Each node's exporter caches the topology and joins it with its own
list of fake GPUs on every scrape (`Exporter.dfy`, `Utilization.dfy`, `Simulate.dfy`). The loops of each
stage are methods, proved against specification functions. `Pipeline.dfy` puts these functions together
into one state machine in which every API read and every write is a step of its own; steps of all
components, failures, lost replies, restarts and changes of the environment interleave freely.
`PipelineSafety.dfy` proves what holds in every run, `PipelineConvergence.dfy` what one error-free
tick of each stage achieves once the environment rests, `PipelineProgress.dfy` that such ticks can be
completed from every reachable state, `PipelineTermination.dfy` that a tick that has begun ends under
every schedule, `PipelineReadings.dfy` what load the rows read, and `PipelineLimits.dfy` exactly when they are not enough, with
runs that go wrong.

**The DeviceConfig reconciler.** `DeviceConfig.dfy` has the object store, the builders (reduced to
names, labels, owner, node selector, image, pull policy and arguments) and the reconciler as a class.
`Reconciliation.dfy` proves convergence from any store and after any failures, ownership over runs with
several DeviceConfigs, exactly when a child is removed, and when device plugin and exporter enumerate
the same devices. `Children.dfy` says what a user gets: which children exist and what they carry.
`EndToEnd.dfy` joins both cores, from the allocation to the emitted series.

**Smaller protocols.** `PluginServer.dfy`: shutdown of the device-plugin server with open streams, as a
state machine and as a class. `MergePatch.dfy`: JSON merge patches by section 2 of RFC 7396.
`Namespace.dfy`: the namespace label upsert while others race. `NodeSelector.dfy`: the node-selector
parser. `Text.dfy` holds the parts of Go's string functions that these use, `Cluster.dfy` the shared
Kubernetes objects.

Outcomes of calls to the API server are parameters: a write is applied, rejected, or applied with its
reply lost. So are random draws and the float reader (`strconv.ParseFloat`).

## Where code and expectation differ

The model follows the code. Five things one might expect do not hold of it; for each there are a
concrete input and an exact condition.

- The AMD bound check accepts a NaN end, although the range is documented as 0-100:
  `Utilization.VendorsDisagree` gives a string, `Utilization.PodRangeBounded` says exactly when a
  pod's range is inside 0-100 and `PipelineSafety.ShownRanges` does so for every run;
  `Utilization.VendorsAgree` says exactly when the two vendors agree.
- The annotator never removes an annotation, so the topology is exact only while no annotated pod has
  lost its devices: `PipelineConvergence.RebuiltExactIff` and `PipelineConvergence.ExactOrNever`.
  `PipelineLimits.StaleMisleads` is a run in which a device has gone to a second pod and its row
  names the first one.
- The annotator's Patch does not look again at what the pod is, so a left-over of an earlier List can
  overwrite the annotation of a pod of the same name on another node, after that node's own tick:
  `PipelineLimits.CrossWorkHappens` and `PipelineLimits.CrossWorkMisleads` are a run;
  `PipelineLimits.ConvergesExactlyWithoutCrossWork` is the exact condition.
- The device-plugin's count is an int32 product that can overflow; the two device lists agree exactly
  when it does not: `Reconciliation.DeviceListsAgree`, with a concrete overflow in
  `Reconciliation.AgreementBound`.
- A wanted label with an empty value is not added to an existing namespace that lacks it, although the
  documentation says that the provided labels are overwritten: `Namespace.EmptyLabelSkipped`, and
  `Namespace.UpsertedEffect` for exactly which labels are added.

Deleting a disabled workload ignores who owns it (`Reconciliation.RemovedExactlyWhen`,
`Reconciliation.ForeignChildFate`), so ownership protects a child against being taken over but not
against being removed. Likewise `ensureNamespace` does not look whether the namespace is terminating.

## Model

| member | source | states |
|---|---|---|
| `PipelineConvergence.Convergence` | operators/fake-rocm-gpu-operator/pkg/deviceplugin/annotate.go:93-136 | If the environment rests from some point on, kubelet reports are sane and no annotator holds contradicting work for another node's pod, then an error-free tick of every annotator, of the status-updater and of one node's cache, in this order, makes that node's rows exact from then on: a GPU carries a pod and its GPU container exactly when the kubelet has it allocated to that pod, all others are idle, and of the sampled rows as many carry a pod as devices are allocated. Every interleaving with other steps, failures and restarts is allowed. |
| `PipelineTermination.TickEnds` | operators/fake-rocm-gpu-operator/pkg/deviceplugin/annotate.go:93-109 | Ticks end: under every schedule, with any failures and any changes of the environment, an annotator, the status-updater or a cache has only as many steps left as its pending work counts until it is at rest; as long as it has some, one that does not fail is open to it. |
| `PipelineLimits.ConvergesExactlyWithoutCrossWork` | operators/fake-rocm-gpu-operator/pkg/deviceplugin/annotate.go:93-165 | The condition on left-over work is exact: annotations are exact after every undisturbed continuation in which all annotators complete a clean tick, if and only if at its start no annotator holds work for a pod that another node wants annotated differently. |
| `PipelineLimits.CrossWorkBreaks` | operators/fake-rocm-gpu-operator/pkg/deviceplugin/annotate.go:142-165 | From every state with such work there is a continuation with a clean tick of every annotator after which the pod carries the left-over value. |
| `PipelineLimits.CrossWorkHappens` | operators/fake-rocm-gpu-operator/pkg/deviceplugin/annotate.go:93-108 | A run from the start that reaches such a state: a stateful pod is recreated on another node while the first node's annotator still has to patch it. |
| `PipelineLimits.CrossWorkMisleads` | operators/fake-rocm-gpu-operator/pkg/deviceplugin/annotate.go:142-165 | After that run, clean ticks of all annotators, the status-updater and the cache can leave a row that names the pod for a device its node never allocated. |
| `PipelineLimits.StaleHappens` | operators/fake-rocm-gpu-operator/pkg/deviceplugin/annotate.go:100-103 | A run from the start in which a device goes from one pod to another, all annotators tick, and the first pod's annotation is still there. |
| `PipelineLimits.StaleMisleads` | operators/fake-rocm-gpu-operator/internal/exporter/run.go:147-157 | After it, the row of that device can name the pod that lost it. |
| `PipelineLimits.AnnotationShown` | operators/fake-rocm-gpu-operator/internal/statusupdater/run.go:77-111 | Whatever device a bound pod's annotation names, right or wrong, one clean tick of the status-updater and one of the node's cache can make the row for it name that pod. |
| `PipelineConvergence.StaleLater` | operators/fake-rocm-gpu-operator/pkg/deviceplugin/annotate.go:100-103 | An annotation that has outlived its allocation stays for as long as only the pipeline acts. |
| `EndToEnd.AllDevicesAttributed` | operators/fake-rocm-gpu-operator/internal/exporter/run.go:140-160 | The two cores joined: on a node of a configured cluster whose kubelet allocates what the device plugin advertises, once the pipeline has converged, every allocated device has a row that names its holder, and as many rows carry a pod as devices are allocated. |
| `EndToEnd.ClusterConverges` | operators/fake-rocm-gpu-operator/internal/exporter/run.go:140-160 | The same over runs: in a configured cluster, after the error-free ticks of Convergence with anything else in between, every allocated device has a row that names its holder, and no more rows carry a pod. |
| `EndToEnd.ExporterCovers` | operators/fake-rocm-gpu-operator/pkg/controller/deviceconfig_controller.go:238-313 | With both workloads configured and no int32 overflow, the exporter's own GPU list has each advertised device exactly once. |
| `EndToEnd.ScrapeConverges` | operators/fake-rocm-gpu-operator/pkg/metrics/registry.go:132-150 | From allocation to series: in a configured cluster, after the ticks of convergence, a scrape reports every allocated device in ten series that name its holder's pod, namespace and container, with an activity inside the range that the holder's annotation asks for. |
| `PipelineReadings.ReadingsConverge` | operators/fake-rocm-gpu-operator/internal/exporter/run.go:147-157 | Under the conditions of Convergence, and if no Get of the cache fails from its tick on, every allocated device is shown with its holder, the holder's first GPU container, and a load inside the range that the holder's current annotation, or the default, asks for. |
| `PipelineReadings.ReadingsHaveASource` | operators/fake-rocm-gpu-operator/internal/exporter/run.go:147-157 | In every run, whatever failed, a row that names a pod reads inside the range of the annotation that a listed pod of that name had at some earlier point, or zero if none could be fetched. |
| `PipelineReadings.IdleUntilRefreshed` | operators/fake-rocm-gpu-operator/internal/exporter/cache.go:39-47 | An exporter that has started or restarted shows every GPU idle until its first refresh is complete. |
| `PipelineReadings.RangesConverge` | operators/fake-rocm-gpu-operator/internal/exporter/cache.go:68-86 | One refresh without a failing Get makes the stored ranges those of the current annotations, and they stay so. |
| `PipelineConvergence.ListsClearCrossWork` | operators/fake-rocm-gpu-operator/pkg/deviceplugin/annotate.go:93-108 | The condition on left-over work may be replaced by one List of every annotator: pod names may have moved between nodes before. |
| `PipelineConvergence.HomesGiveNoCrossWork` | operators/fake-rocm-gpu-operator/pkg/deviceplugin/annotate.go:93-108 | It also holds if no pod name ever served two nodes. |
| `PipelineConvergence.AnnotationsConverge` | operators/fake-rocm-gpu-operator/pkg/deviceplugin/annotate.go:93-165 | First stage: after one error-free tick of every annotator, all wanted annotations are in place and all queued work is current. |
| `PipelineConvergence.RebuiltExactIff` | operators/fake-rocm-gpu-operator/internal/statusupdater/run.go:77-111 | With exact annotations, the rebuilt topology lists exactly the kubelets' allocations if and only if every bound pod with device IDs in its annotation is still reported by its kubelet, for every order of the pod list. |
| `PipelineConvergence.ExactOrNever` | operators/fake-rocm-gpu-operator/pkg/deviceplugin/annotate.go:100-103 | The annotator never removes an annotation, so that condition decides for good: every later rebuild is exact, or none ever is. |
| `PipelineConvergence.ConfigMapConverges` | operators/fake-rocm-gpu-operator/internal/statusupdater/run.go:77-111 | Second stage: one error-free tick of the status-updater makes the ConfigMap exact, and later ticks keep it so. |
| `PipelineConvergence.CacheConverges` | operators/fake-rocm-gpu-operator/internal/exporter/cache.go:63-90 | Third stage: one error-free refresh makes what the cache shows exact, and it stays exact until the process restarts. |
| `PipelineConvergence.WorldExactRows` | operators/fake-rocm-gpu-operator/internal/exporter/run.go:140-160 | With an exact cache, the row of a GPU names the pod that holds it, and is the idle row if nobody does. |
| `PipelineConvergence.BusyRowsCount` | operators/fake-rocm-gpu-operator/internal/exporter/run.go:146-158 | With an exact cache, of the rows that the sampler returns as many carry a pod as devices are allocated. |
| `PipelineConvergence.SettledIsExclusive` | operators/fake-rocm-gpu-operator/internal/statusupdater/run.go:83-106 | Once annotations are exact, no device of a node is claimed twice, so the topology has one entry per (node, GPU). |
| `PipelineProgress.Progress` | operators/fake-rocm-gpu-operator/pkg/deviceplugin/annotate.go:51-109 | From every reachable state with sane kubelet reports, whatever is in flight and whatever failed before, error-free steps of the pipeline's own lead to a state in which all rows of all nodes are exact, unless some annotation has outlived its allocation. So the conditions of Convergence can be met from everywhere. |
| `PipelineProgress.Stages` | operators/fake-rocm-gpu-operator/pkg/deviceplugin/annotate.go:93-136 | In particular every annotator can finish its old work and complete a clean tick, after which all annotations are exact. |
| `PipelineSafety.Provenance` | operators/fake-rocm-gpu-operator/internal/exporter/run.go:147-157 | In every run, whatever failed and however stale the data, a row that attributes a GPU to a pod speaks of an allocation that some kubelet really made earlier and of a pod that was really bound to this node; without reuse of pod names on other nodes it was this node's kubelet. |
| `PipelineSafety.Reachable` | operators/fake-rocm-gpu-operator/pkg/deviceplugin/annotate.go:93-165 | Every reachable state satisfies the invariant: annotations, queues, pending topology writes, ConfigMap revisions and caches only name devices that were allocated to the pod they name. |
| `PipelineSafety.HistoryIsReal` | operators/fake-rocm-gpu-operator/pkg/deviceplugin/annotate.go:93-108 | The history of allocations and bindings that the results speak about is exactly what kubelets and API server held at earlier points of the run. |
| `PipelineSafety.LastGoodState` | operators/fake-rocm-gpu-operator/internal/exporter/cache.go:46-90 | A cache shows the initial empty world or what Load returned at some ConfigMap revision, and never goes back to an older revision until its process restarts. |
| `PipelineSafety.ReachableRanges` | operators/fake-rocm-gpu-operator/internal/exporter/cache.go:68-86 | The ranges of every reachable cache are what the loop of Refresh makes of the host's entries, for some outcome of each Get. |
| `PipelineSafety.ShownRanges` | operators/fake-rocm-gpu-operator/internal/exporter/cache.go:68-86 | In every run and for every float reader, a range that a scrape can use is filed under the name of a pod that the topology has on this host, was read from the annotation which that pod had at some earlier point of the run, and lies inside 0-100 exactly when that annotation and the default let no NaN bound through. |
| `Pipeline.StepsAreAnnotateOne` | operators/fake-rocm-gpu-operator/pkg/deviceplugin/annotate.go:142-165 | An annotator's Get and Patch steps, uninterrupted, are one annotatePod with the same faults. |
| `Pipeline.StepsAreSave` | operators/fake-rocm-gpu-operator/pkg/topology/configmap.go:88-132 | The status-updater's Get and write steps, with another writer in between and any faults, leave the ConfigMap as one Save does. |
| `Pipeline.AdvertisedClean` | operators/fake-rocm-gpu-operator/pkg/deviceplugin/server.go:242-251 | Every ID that buildDevices can produce survives the annotation. |
| `Pipeline.WantRoundTrip` | operators/fake-rocm-gpu-operator/internal/statusupdater/run.go:94-105 | What the annotator writes for advertised devices is read back as the sorted, duplicate-free list. |
| `Pipeline.TodoMembers` | operators/fake-rocm-gpu-operator/pkg/deviceplugin/annotate.go:99-107 | A tick visits exactly the reported pods that hold a device, with the canonical value. |
| `Annotator.CollectDevices` | operators/fake-rocm-gpu-operator/pkg/deviceplugin/annotate.go:115-136 | Exactly the IDs that the pod's containers hold for the resource, each once, in increasing order, whatever the container layout, the duplicates and the map iteration order. |
| `Annotator.EnumerationUnique` | operators/fake-rocm-gpu-operator/pkg/deviceplugin/annotate.go:130-135 | A sorted, duplicate-free list is determined by its elements. |
| `Text.LessIsLexicographic` | operators/fake-rocm-gpu-operator/pkg/deviceplugin/annotate.go:135 | The order in which the IDs are sorted is the lexicographic one. |
| `Annotator.SortEnumerates` | operators/fake-rocm-gpu-operator/pkg/deviceplugin/annotate.go:135 | Sorting a duplicate-free list gives the strictly sorted enumeration of its elements. |
| `Annotator.PodResourcesAnnotator.AnnotatePod` | operators/fake-rocm-gpu-operator/pkg/deviceplugin/annotate.go:142-165 | Patches exactly when the annotation differs; succeeds exactly when the Get does and no needed patch is rejected or loses its reply; success means that the pod carries the value. |
| `Annotator.PodResourcesAnnotator.Reconcile` | operators/fake-rocm-gpu-operator/pkg/deviceplugin/annotate.go:93-109 | A failed List does nothing; otherwise the store is the result of one annotatePod per holding pod, and a report that is already annotated causes no patch. |
| `Annotator.AnnotateAllEffect` | operators/fake-rocm-gpu-operator/pkg/deviceplugin/annotate.go:93-109 | An error-free tick creates and removes no pod, changes only the annotation of reported pods, and gives each a value asked for. |
| `Annotator.QuietAfterCleanTick` | operators/fake-rocm-gpu-operator/pkg/deviceplugin/annotate.go:142-149 | A second tick on an unchanged report issues no patch, exactly when the report does not ask for two values for one pod. |
| `StatusUpdater.FirstGpuContainer` | operators/fake-rocm-gpu-operator/internal/statusupdater/run.go:118-136 | The name of the first container with a non-zero amd.com/gpu limit or request, whatever the others have; empty if there is none. |
| `StatusUpdater.FirstGpuNameMeans` | operators/fake-rocm-gpu-operator/internal/statusupdater/run.go:118-136 | The same of the specification function that the topology entries use. |
| `StatusUpdater.AnnotationRoundTrip` | operators/fake-rocm-gpu-operator/internal/statusupdater/run.go:94-105 | Splitting, trimming and dropping empties inverts the annotator's join, exactly when all IDs are non-empty, comma-free and trimmed. |
| `StatusUpdater.BlanksIgnored` | operators/fake-rocm-gpu-operator/internal/statusupdater/run.go:98-102 | Blanks around the IDs and empty items of a hand-written list make no difference. |
| `StatusUpdater.AssignedIdsClean` | operators/fake-rocm-gpu-operator/internal/statusupdater/run.go:98-102 | Whatever the annotation holds, only clean IDs come out. |
| `StatusUpdater.Rebuild` | operators/fake-rocm-gpu-operator/internal/statusupdater/run.go:83-106 | The nested loops build the topology whose node entries are those of NodeEntriesMembership. |
| `StatusUpdater.AppendPod` | operators/fake-rocm-gpu-operator/internal/statusupdater/run.go:94-105 | One pod appends its IDs in order, bound to its first GPU container. |
| `StatusUpdater.NodeEntriesMembership` | operators/fake-rocm-gpu-operator/internal/statusupdater/run.go:83-106 | An entry is listed for a node exactly when some pod bound to it claims that device. |
| `StatusUpdater.RebuiltEntries` | operators/fake-rocm-gpu-operator/internal/statusupdater/run.go:83-106 | The rebuilt map has exactly these entries; nodes without any are absent. |
| `StatusUpdater.Reconcile` | operators/fake-rocm-gpu-operator/internal/statusupdater/run.go:77-111 | A failed List leaves the ConfigMap alone; afterwards it is the old object or the one written from the rebuilt topology, and the view is the latter on success; another writer's change in between is never overwritten. |
| `StatusUpdater.ExclusiveTopology` | operators/fake-rocm-gpu-operator/internal/statusupdater/run.go:83-106 | Exclusive annotations give at most one entry per (node, GPU). |
| `StatusUpdater.OrderIrrelevant` | operators/fake-rocm-gpu-operator/pkg/topology/configmap.go:137-144 | Under exclusivity, lookups do not depend on the order of the pod list. |
| `StatusUpdater.EntriesConserved` | operators/fake-rocm-gpu-operator/internal/statusupdater/run.go:94-105 | A node has as many entries as its pods claim devices. |
| `Topology.FindAssignment` | operators/fake-rocm-gpu-operator/pkg/topology/configmap.go:137-144 | The first entry for the GPU, or none if there is no entry. |
| `Topology.FindIsMembership` | operators/fake-rocm-gpu-operator/pkg/topology/configmap.go:137-144 | With one entry per GPU, lookup is membership. |
| `Topology.ConfigMapClient.Load` | operators/fake-rocm-gpu-operator/pkg/topology/configmap.go:63-83 | Missing object, missing key and empty body read as the empty topology; a topology as itself; anything else is an error. |
| `Topology.ConfigMapClient.Save` | operators/fake-rocm-gpu-operator/pkg/topology/configmap.go:88-132 | The object and the reply are those of SavedEffect; an unchanged body is not written. |
| `Topology.SavedEffect` | operators/fake-rocm-gpu-operator/pkg/topology/configmap.go:88-132 | If somebody else writes between Get and write, their object stays; otherwise a successful Save is what is loaded next, other data keys and labels survive, and a failed call has changed nothing unless its reply was lost. |
| `Exporter.Cache.Refresh` | operators/fake-rocm-gpu-operator/internal/exporter/cache.go:63-90 | A failed Load keeps the state; otherwise it is the loaded topology with the ranges of the host's pods, each fetched until a Get succeeds. |
| `Exporter.FetchAllKeys` | operators/fake-rocm-gpu-operator/internal/exporter/cache.go:68-86 | The range keys are exactly the names of entries whose pod could be fetched at least once. |
| `Exporter.FetchAllValues` | operators/fake-rocm-gpu-operator/internal/exporter/cache.go:68-86 | The range of a pod is the one of the annotation that its first successful Get brought back. |
| `Exporter.FetchAllBounded` | operators/fake-rocm-gpu-operator/internal/exporter/cache.go:80-85 | For every float reader and default, even a malformed one: all stored ranges lie inside 0-100 exactly when the annotations fetched let no NaN bound through. |
| `Exporter.KeyInjective` | operators/fake-rocm-gpu-operator/internal/exporter/cache.go:69 | For slash-free namespaces a key names one pod. |
| `Exporter.TopologySampler` | operators/fake-rocm-gpu-operator/internal/exporter/run.go:140-160 | One row per GPU, in order; what a row says is RowMeans. |
| `Exporter.RowMeans` | operators/fake-rocm-gpu-operator/internal/exporter/run.go:147-157 | If the topology has an entry for the GPU, the row names the pod, namespace and container of the first one and reads gauges of one load inside the range stored for the pod, zero if none is stored; otherwise it names nobody and reads the idle baseline. |
| `Exporter.ReadingOnto` | operators/fake-rocm-gpu-operator/internal/exporter/run.go:153-155 | Every load of the band, with every jitter, is read for some draws, so a reading does depend on both. |
| `Exporter.BusyIdsMembers` | operators/fake-rocm-gpu-operator/internal/exporter/run.go:146-158 | The busy rows are exactly those of GPUs that the topology lists, each once. |
| `Exporter.RowsConserved` | operators/fake-rocm-gpu-operator/internal/exporter/run.go:146-158 | With one entry per GPU and only known GPUs, as many of the sampler's rows carry a pod as the node has entries. |
| `Exporter.CarryingIsBusy` | operators/fake-rocm-gpu-operator/internal/exporter/run.go:146-158 | The sampler's rows that carry a pod are, in number, those whose GPU the topology lists. |
| `Exporter.Collect` | operators/fake-rocm-gpu-operator/pkg/metrics/registry.go:132-150 | Ten series per row, in the order of the descriptors; every series carries the row's identity, pod, namespace, container and partition under the label names of the source, and the value of the gauge that its metric names. |
| `Exporter.LabelUnique` | operators/fake-rocm-gpu-operator/pkg/metrics/registry.go:23-27 | A series has one value under each label name. |
| `Exporter.Scrape` | operators/fake-rocm-gpu-operator/pkg/metrics/registry.go:132-150 | One scrape samples the node's own enumeration of GPUs, reports every row as Collect says, and emits exactly ten series per device, pairwise different in name or label tuple, for every partitioning and cache state. |
| `Exporter.SeriesDistinct` | operators/fake-rocm-gpu-operator/pkg/metrics/registry.go:133-150 | Distinct GPU IDs suffice for distinct series. |
| `Simulate.BuildDevices` | operators/fake-rocm-gpu-operator/pkg/deviceplugin/server.go:242-251 | Device i has ID gpu-i. |
| `Simulate.BuildGPUs` | operators/fake-rocm-gpu-operator/pkg/simulate/gpu.go:62-88 | physical x effective-count devices; position i is partition i % n of card i / n, for unknown modes and counts below 1 as well. |
| `Simulate.BuildCards` | operators/fake-rocm-gpu-operator/cmd/rocm-smi-mock/main.go:73-106 | The same enumeration in the mock binary. |
| `Simulate.PartitionsPerCard` | operators/fake-rocm-gpu-operator/pkg/simulate/gpu.go:63-69 | A cpx card has as many devices as asked for, at least one; any other mode has one device per card. |
| `Simulate.DeviceOf` | operators/fake-rocm-gpu-operator/pkg/simulate/gpu.go:73-86 | Partition q of card p is device p x n + q in the exporter and the mock, with the serial numbers, the UUID and the partition ID of that slot. |
| `Simulate.EnumerationsAgree` | operators/fake-rocm-gpu-operator/cmd/rocm-smi-mock/main.go:73-106 | Position and (card, partition) determine each other, and exporter and mock agree at every position on index, mode, partition and memory. |
| `Simulate.MemorySplit` | operators/fake-rocm-gpu-operator/pkg/simulate/gpu.go:70 | The split of a card's memory loses less than one byte per partition. |
| `Simulate.DeviceIdInjective` | operators/fake-rocm-gpu-operator/pkg/deviceplugin/server.go:246 | Different positions have different IDs. |
| `Simulate.SerialInjective` | operators/fake-rocm-gpu-operator/pkg/simulate/gpu.go:79 | A serial number names one (card, partition) pair. |
| `Text.Pad2Width` | operators/fake-rocm-gpu-operator/pkg/simulate/gpu.go:79 | Card numbers have at least two digits and no superfluous zero. |
| `Text.DigitsCanonical` | operators/fake-rocm-gpu-operator/pkg/deviceplugin/server.go:246 | Decimal IDs have no leading zero. |
| `Simulate.GpusDistinct` | operators/fake-rocm-gpu-operator/pkg/simulate/gpu.go:73-86 | Distinct positions of a node have distinct IDs and serial numbers. |
| `Simulate.LoadedEnds` | operators/fake-rocm-gpu-operator/pkg/simulate/gpu.go:92-131 | All gauges at zero and at full load, beyond both ends, and of an idle GPU. |
| `Simulate.LoadedProportional` | operators/fake-rocm-gpu-operator/pkg/simulate/gpu.go:118-130 | In between every gauge moves in proportion to the utilization, which is the activity shown; the jitter adds to the temperature alone. |
| `Simulate.LoadedBounds` | operators/fake-rocm-gpu-operator/pkg/simulate/gpu.go:92-131 | Junction temperature in [39, 96), used VRAM at most 80 % of the total, every gauge but the temperature monotone in utilization, and never below idle. |
| `Simulate.CardVram` | operators/fake-rocm-gpu-operator/pkg/simulate/gpu.go:70-125 | The partitions of one card together never claim more than 80 % of its memory. |
| `Utilization.ParsedRange` | operators/fake-rocm-gpu-operator/pkg/annotations/parse.go:37-57 | An accepted range lies inside 0-100 or has a NaN end. |
| `Utilization.PodRangeBounded` | operators/fake-rocm-gpu-operator/internal/exporter/cache.go:80-85 | For every float reader, annotation and default: the range the cache stores lies inside 0-100 exactly when no NaN bound slips through the check, in the text it reads first or, if that is malformed, in the default. |
| `Utilization.FiniteIsTame` | operators/fake-rocm-gpu-operator/pkg/annotations/parse.go:37-57 | No NaN bound slips through if none of the bounds read from annotation and default is NaN. |
| `Utilization.VendorsAgree` | operators/fake-dcgm-extras/internal/exporter/sample.go:118-134 | AMD with fallback 5-15 and NVIDIA use the same interval, exactly when no NaN bound passes the AMD check. |
| `Utilization.VendorsDisagree` | operators/fake-rocm-gpu-operator/pkg/annotations/parse.go:53 | A string on which they differ. |
| `Utilization.CliAccepts` | pkg/simsconfig/load.go:83-103 | Exactly which strings the CLI accepts: two integers with 0 <= N <= M <= 100, joined by the first hyphen. |
| `Text.AtoiSigned` | pkg/simsconfig/load.go:88-94 | A bound may carry a plus sign; a minus sign makes it negative. |
| `Text.AtoiAccepts` | pkg/simsconfig/load.go:88-94 | Nothing but digits with at most one sign is an integer. |
| `Utilization.CliReadsRendered` | pkg/simsconfig/load.go:83-103 | Of all pairs of integers it accepts the decimal form of exactly those, and reads the bounds back. |
| `Utilization.CliRangeSurvives` | pkg/simsconfig/load.go:83-103 | A string that the CLI accepts is read by both vendors, as annotation and as default, with the CLI's bounds. |
| `Utilization.CliDefaultNeverReplaced` | operators/fake-rocm-gpu-operator/internal/exporter/cache.go:80-85 | A default that the CLI accepted is what a pod without a valid annotation gets. |
| `Utilization.SampleUtil` | operators/fake-dcgm-extras/internal/exporter/sample.go:118-134 | A draw from the NVIDIA interval, always inside 0-100. |
| `Utilization.NvidiaRangeBounded` | operators/fake-dcgm-extras/internal/exporter/sample.go:124 | The NVIDIA guard stops NaN. |
| `Utilization.SampleLaw` | operators/fake-rocm-gpu-operator/pkg/annotations/parse.go:61-66 | The value grows strictly with the draw, in equal steps for equal steps; no draw gives the lower bound, half a draw the midpoint, and a band of one point that point. |
| `Utilization.SampleOnto` | operators/fake-dcgm-extras/internal/exporter/sample.go:130-133 | Every value of the band is the value of exactly one draw. |
| `Utilization.Sample` | operators/fake-rocm-gpu-operator/pkg/annotations/parse.go:61-66 | The sample stays between the bounds, below the upper one unless they coincide. |
| `DeviceConfig.Reconciler.Apply` | operators/fake-rocm-gpu-operator/pkg/controller/deviceconfig_controller.go:161-192 | Get, refuse a foreign controller, mutate, write only if something changed; a refused apply changes nothing and a Service keeps its ClusterIP. |
| `DeviceConfig.Reconciler.DeleteIfExists` | operators/fake-rocm-gpu-operator/pkg/controller/deviceconfig_controller.go:194-200 | Absent afterwards, with NotFound as success. |
| `DeviceConfig.Reconciler.Reconcile` | operators/fake-rocm-gpu-operator/pkg/controller/deviceconfig_controller.go:85-156 | The step-by-step method equals running the list of five child tasks up to the first error, and then writing the observed status, whose failure is no error. |
| `DeviceConfig.Tasks` | operators/fake-rocm-gpu-operator/pkg/controller/deviceconfig_controller.go:101-148 | Five tasks on five distinct managed children. |
| `Children.WhichExist` | operators/fake-rocm-gpu-operator/pkg/controller/deviceconfig_controller.go:102-148 | After a successful, error-free Reconcile the device plugin exists exactly if it is not switched off, exporter and service likewise, a field left out counting as on; updater and labeller always exist. |
| `Children.WhatTheyCarry` | operators/fake-rocm-gpu-operator/pkg/controller/deviceconfig_controller.go:228-420 | Owner, app label, subcommand, image, pull policy, selected nodes and flags of the existing children, the default utilization among them; the spec's node selector if it has one, the configured one otherwise. |
| `Children.PartitionsAsked` | operators/fake-rocm-gpu-operator/pkg/controller/deviceconfig_controller.go:427-442 | The plugin advertises GPUs per node times the partitions asked for - none but under cpx, and there at least one - and the exporter is told the same mode and number. |
| `Children.WrapsAround` | operators/fake-rocm-gpu-operator/pkg/controller/deviceconfig_controller.go:439-442 | int32 arithmetic is arithmetic modulo 2^32, and exact where the result fits. |
| `Children.ErrorStopsTheRest` | operators/fake-rocm-gpu-operator/pkg/controller/deviceconfig_controller.go:101-148 | An error at one child leaves all later ones, in the order plugin, exporter, service, updater, labeller, as they were. |
| `Children.NothingToDo` | operators/fake-rocm-gpu-operator/pkg/controller/deviceconfig_controller.go:88-94 | A DeviceConfig that is gone is no error and needs no work; one that cannot be read is an error. |
| `Children.StatusFaults` | operators/fake-rocm-gpu-operator/pkg/controller/deviceconfig_controller.go:150-156 | A workload whose readiness cannot be read counts as not ready; a status that is not accepted is not stored, which is no error; after an error none is written. |
| `Children.WrittenStatus` | operators/fake-rocm-gpu-operator/pkg/controller/deviceconfig_controller.go:150-156 | The status: ready means not switched off and all of at least one desired pods ready. |
| `Reconciliation.TaskEffect` | operators/fake-rocm-gpu-operator/pkg/controller/deviceconfig_controller.go:161-200 | Everything one apply or delete can do, with and without failures: success establishes the child, a refusal changes nothing, other children are untouched, an established child is not written. |
| `Reconciliation.TaskFaults` | operators/fake-rocm-gpu-operator/pkg/controller/deviceconfig_controller.go:161-200 | What failures do to one task: a failed Get and a rejected write are errors that change nothing, a write whose reply is lost takes place and is an error. |
| `Reconciliation.CleanReconcile` | operators/fake-rocm-gpu-operator/pkg/controller/deviceconfig_controller.go:85-156 | An error-free Reconcile succeeds exactly when no wanted child has a foreign controller; it then makes the children what the spec asks for, touches nothing else, and a second one writes nothing. |
| `Reconciliation.ConfiguredDetermines` | operators/fake-rocm-gpu-operator/pkg/controller/deviceconfig_controller.go:228-420 | The children are then a function of spec and configuration. |
| `Reconciliation.ConvergesUnderFailure` | operators/fake-rocm-gpu-operator/pkg/controller/deviceconfig_controller.go:85-156 | From any store without children of a stranger, after any edits (deletion and recreation under a new UID included) and Reconciles that failed anywhere, one error-free Reconcile succeeds and configures the cluster. |
| `Reconciliation.HistoryForgotten` | operators/fake-rocm-gpu-operator/pkg/controller/deviceconfig_controller.go:85-156 | Two histories that end with the same DeviceConfig end with the same children. |
| `Reconciliation.ReconcileIsSteps` | operators/fake-rocm-gpu-operator/pkg/controller/deviceconfig_controller.go:85-156 | A Reconcile is the sequence of its tasks up to the first failure, and runs contain single tasks, for any DeviceConfig as it is or once was; so frame, ownership and convergence hold of interleaved and interrupted Reconciles. |
| `Reconciliation.EventFrame` | operators/fake-rocm-gpu-operator/pkg/controller/deviceconfig_controller.go:161-200 | No event creates, changes or deletes an object outside the managed names; only readiness may be reported. |
| `Reconciliation.RunFrame` | operators/fake-rocm-gpu-operator/pkg/controller/deviceconfig_controller.go:161-200 | The same over whole runs with any number of DeviceConfigs and any failures, with no assumption that the object survives. |
| `Reconciliation.RemovedExactlyWhen` | operators/fake-rocm-gpu-operator/pkg/controller/deviceconfig_controller.go:194-200 | Whatever fails, a present child is gone after a Reconcile exactly when its task is a removal, the tasks before it succeeded and the delete is not rejected; its owner plays no part. |
| `Reconciliation.ForeignChildFate` | operators/fake-rocm-gpu-operator/pkg/controller/deviceconfig_controller.go:161-200 | A child that somebody else controls is either removed, under that condition, or left exactly as it was, in every Reconcile. |
| `Reconciliation.EventSafety` | operators/fake-rocm-gpu-operator/pkg/controller/deviceconfig_controller.go:161-200 | A child that an event leaves in existence keeps its controller and, if a service, its ClusterIP. |
| `Reconciliation.Ownership` | operators/fake-rocm-gpu-operator/pkg/controller/deviceconfig_controller.go:161-200 | The same over whole runs with any number of DeviceConfigs, for as long as the child lives. |
| `Reconciliation.ForeignChildDeleted` | operators/fake-rocm-gpu-operator/pkg/controller/deviceconfig_controller.go:194-200 | Deletion does not look at ownership: an error-free Reconcile removes another DeviceConfig's child exactly when the workload is switched off and no earlier wanted child is foreign-owned. |
| `Reconciliation.PluginFlag` | operators/fake-rocm-gpu-operator/pkg/controller/deviceconfig_controller.go:238-255 | The device plugin parses back the wrapped int32 product. |
| `Reconciliation.ExporterFlags` | operators/fake-rocm-gpu-operator/pkg/controller/deviceconfig_controller.go:291-313 | The exporter parses back physical count, normalized mode and partition count. |
| `Reconciliation.DeviceListsAgree` | operators/fake-rocm-gpu-operator/pkg/controller/deviceconfig_controller.go:427-442 | With both workloads configured, the device plugin's IDs equal the exporter's, in order, exactly when the int32 product does not overflow. |
| `Reconciliation.AgreementBound` | operators/fake-rocm-gpu-operator/api/v1alpha1/deviceconfig_types.go:80-97 | With at most 8 partitions, up to 2^28 - 1 GPUs per node are safe, and the next number is not. |
| `PluginServer.ClosedOnce` | operators/fake-rocm-gpu-operator/pkg/deviceplugin/server.go:159-180 | Over any interleaving of start, stop and streams the update channel is closed at most once and stays closed. |
| `PluginServer.WaitEnds` | operators/fake-rocm-gpu-operator/pkg/deviceplugin/server.go:159-210 | While GracefulStop waits, the handlers it waits for have at most Measure own steps left plus two per tick, under every schedule; each of them has one; and the wait is over exactly when the measure is zero. |
| `PluginServer.OpenChannelDeadlocks` | operators/fake-rocm-gpu-operator/pkg/deviceplugin/server.go:163-173 | Entering the wait with the channel open and the handlers in their selects is a deadlock: neither the wait nor its handlers nor any start or stop can go on, whatever else happens, until a tick fires or the kubelet hangs up. |
| `PluginServer.RestartedStreamsLeave` | operators/fake-rocm-gpu-operator/pkg/deviceplugin/server.go:80-87 | The channel is never remade, so after a stop no later server can keep a stream. |
| `PluginServer.StopIsIdempotent` | operators/fake-rocm-gpu-operator/pkg/deviceplugin/server.go:159-180 | The statements of stop add up to the stopped state, and a second stop changes nothing. |
| `PluginServer.Reachable` | operators/fake-rocm-gpu-operator/pkg/deviceplugin/server.go:135-180 | Every reachable state satisfies the invariant; a server that GracefulStop has finished with has no open stream. |
| `PluginServer.Server.Start` | operators/fake-rocm-gpu-operator/pkg/deviceplugin/server.go:135-157 | Each of the three outcomes: what becomes of server, listener and socket file, and that channel, streams and earlier servers are as before. |
| `PluginServer.Server.AwaitHandlers` | operators/fake-rocm-gpu-operator/pkg/deviceplugin/server.go:170-173 | A handler leaves its select through the channel only if that is closed; with the channel closed the wait terminates, whatever ticks fire and wherever the kubelet hangs up, and leaves every handler of the server returned, others untouched. |
| `PluginServer.Server.Stop` | operators/fake-rocm-gpu-operator/pkg/deviceplugin/server.go:159-180 | Channel closed once, server, listener and socket gone, no open stream left on the server it found. |
| `PluginServer.ListAndWatch` | operators/fake-rocm-gpu-operator/pkg/deviceplugin/server.go:192-210 | One Send before the first look at the channel, then one per tick until context, channel or a failed Send ends it. |
| `MergePatch.PatchFrame` | operators/fake-rocm-gpu-operator/internal/nodelabeller/run.go:93-104 | A metadata patch sets exactly the named keys of its section and keeps every other key, metadata member and field. |
| `MergePatch.AnnotatePatchEffect` | operators/fake-rocm-gpu-operator/pkg/deviceplugin/annotate.go:150-160 | The annotator's patch has the effect that the pipeline gives it. |
| `MergePatch.MergeMembers` | operators/fake-rocm-gpu-operator/pkg/deviceplugin/annotate.go:150-160 | Section 2 of RFC 7396, member by member: unmentioned members stay, null removes, anything else is patched in turn. |
| `MergePatch.MergeIdempotent` | operators/fake-rocm-gpu-operator/pkg/deviceplugin/annotate.go:150-160 | Applying any merge patch twice is applying it once. |
| `MergePatch.MergeCommutes` | operators/fake-rocm-gpu-operator/internal/nodelabeller/run.go:93-104 | Patches that never give a value to the same member commute. |
| `MergePatch.MetadataPatchesCommute` | operators/fake-rocm-gpu-operator/internal/nodelabeller/run.go:93-104 | Patches of different sections, or of one section with disjoint keys, commute. |
| `MergePatch.NodeApi.PatchNodeLabels` | operators/fake-rocm-gpu-operator/internal/nodelabeller/run.go:93-104 | The node gets the labels next to those it had; no other node changes. |
| `Namespace.EnsureNamespace` | pkg/kube/namespace.go:27-66 | For every script of others' changes and every failure, as the history of the object records it: the call writes at most once, and that write either created the missing namespace with the wanted labels or replaced the very state it had read, keeping all other labels. A nil return means that the namespace carries the wanted labels; undisturbed calls and calls that lose the create race succeed. |
| `Namespace.UpsertedEffect` | pkg/kube/namespace.go:50-61 | The upsert overwrites wanted keys, keeps others, is idempotent, changes nothing exactly when the labels are carried; an absent key is added exactly when its wanted value is non-empty. |
| `Namespace.EmptyLabelSkipped` | pkg/kube/namespace.go:53-58 | A wanted label with an empty value is not added where it is missing, but does overwrite an existing one. |
| `Namespace.MergeLabels` | pkg/kube/namespace.go:50-61 | The loop's result is a function of the two maps, so iteration order is irrelevant; `mutated` tells whether anything changed. |
| `Namespace.DeleteNamespace` | pkg/kube/namespace.go:81-87 | Gone or terminating on success, with NotFound as success; a rejected call changes nothing. |
| `NodeSelector.ParseNodeSelector` | operators/fake-rocm-gpu-operator/internal/controller/run.go:111-125 | Empty text gives the nil map, otherwise the first malformed pair is reported, otherwise the map holds k = v exactly when the last pair for k says so. |
| `NodeSelector.MeaningUnique` | operators/fake-rocm-gpu-operator/internal/controller/run.go:111-125 | That specification has one result for every text. |
| `NodeSelector.ParsedIsClean` | operators/fake-rocm-gpu-operator/internal/controller/run.go:117-123 | Whatever text parses, its keys are non-empty, trimmed and free of '=' and ','. |
| `NodeSelector.RoundTrip` | operators/fake-rocm-gpu-operator/internal/controller/run.go:111-125 | Rendering a non-empty map in any order and parsing it gives it back, exactly when its entries are comma-free and trimmed and its keys non-empty and free of '='. |

## Left out

- Floating-point rounding: finite float64 values are exact reals; NaN and the infinities are explicit.
- The syntax of `strconv.ParseFloat`: it is a parameter, of which only the reading of integers from 0 to 100 is required where integers matter.
- YAML text of the ConfigMap: a body is empty, the image of a topology, or undecodable; the marshaller is assumed deterministic and injective.
- `sort.Strings`: stands for insertion into a sorted list; the result is unique anyway.
- Simulate.BuildGPUs: does not model negative physical counts, which the exporter's flag check excludes, nor int64 overflow of the number of devices.
- Simulate.BuildCards: does not model negative physical counts, on which the source's `make` panics, nor int64 overflow.
- NaN utilization as an input of `SampleLoaded`: the sampler's separate NaN reading stands for it.
- PipelineConvergence.Convergence: assumes that kubelets report each pod once, that reported pods exist on their node, that no device has two holders, that no contradicting work is left over, and that annotations have not outlived their allocation; the first three are the kubelet's and scheduler's contract, and the last two are shown necessary.
- Exporter.Cache.Refresh: one call is atomic in the class; the pipeline's state machine has every Get as a step of its own.
- DeviceConfig.Reconciler.Reconcile: other writers do not act between its steps; only its own calls fail. In runs, single tasks interleave with edits, readiness changes and the tasks of other DeviceConfigs.
- Reconciliation.CleanReconcile: does not model that the controller's Gets of children come from an informer cache; a Reconcile that reads an outdated child can succeed without the write that the current one needs. Outdated DeviceConfigs are modelled.
- The controller behind a terminating namespace: that it disappears is somebody else's step.
- Garbage collection of children when a DeviceConfig is deleted, and API-server defaulting of specs.
- The inside of `controllerutil`, of which the model assumes that a controller reference is compared by kind and name and its UID refreshed, and that CreateOrUpdate writes only if the mutated object differs.
- Pod-spec constants of the builders: security contexts, mounts, ports, environment.
- PluginServer.WaitEnds: counts a Send as a step that a handler can always take; in gRPC it can block on flow control until the kubelet reads or hangs up.
- Allocate, GetPreferredAllocation, PreStartContainer and the registration with the kubelet: constant answers or dialing.
- The idle sampler without API server: it emits the idle row for every GPU, as the topology sampler does on an empty world.
- The NVIDIA exporter's cache, sampler loop and derived gauges beyond `sampleUtil`: the same shape as the AMD ones without partitions or ConfigMap.
- Configuration parsing, validation of other fields and family defaults: independent field checks.
- Tickers, watches, leader election, HTTP and gRPC transport: a tick is a step that may happen at any time.
- Cluster creation, Helm, the CLI, charts and dashboards: wrappers and static data.
