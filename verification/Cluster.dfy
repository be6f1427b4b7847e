/** The Kubernetes objects that the stages of the pipeline share. */
module Cluster {

  datatype PodKey = PodKey(namespace: string, name: string)

  /** Limits and requests of a container; a quantity is counted in thousandths. */
  datatype Container = Container(name: string, limits: map<string, int>, requests: map<string, int>)

  datatype Pod = Pod(node: string, annotations: map<string, string>, containers: seq<Container>)

  /** What becomes of a write to the API server. A lost one is applied, but its reply never
      arrives, so the caller sees an error. */
  datatype Fault = NoFault | Rejected | Lost

  const ASSIGNED_GPUS := "sims.io/assigned-gpus"
  const UTILIZATION := "sims.io/simulated-gpu-utilization"
  const AMD_GPU := "amd.com/gpu"

  /** Go's read of a missing map key: the zero value. */
  function Lookup(m: map<string, string>, k: string): string {
    if k in m then m[k] else ""
  }
}
