/** Kubernetes record shapes shared by the eks job template and the agent deployment. */
module Kubernetes {

  /** One `{"name": ..., "value": ...}` entry of a container's `env` list. */
  datatype EnvVar = EnvVar(name: string, value: string)

  /**
   * A `{"cpu": ..., "memory": ...}` resource map. The memory amount is kept in GB; the
   * rendering `f"{memory_gb}Gi"` (and `str(cpu)`) is not modelled.
   */
  datatype Quantities = Quantities(cpu: real, memoryGb: real)
}
