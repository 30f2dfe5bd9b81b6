/**
 * The orchestration framework's deployment descriptor, reduced to the fields that the
 * builders read or write: `name`, `storage`, `path` and `infrastructure`.
 */
module Deployment {
  import opened Wrappers
  import opened Kubernetes

  /** The storage block a descriptor points at; only the S3 block is used here. */
  datatype StorageBlock = S3Block(bucketPath: string)

  /** The single container of the eks Job template. */
  datatype JobContainer = JobContainer(name: string, env: seq<EnvVar>, requests: Quantities, limits: Quantities)

  /** The `job` manifest of a KubernetesJob block (`batch/v1` Job). */
  datatype JobManifest = JobManifest(
    apiVersion: string,
    kind: string,
    namespace: string,
    labels: map<string, string>,
    completions: int,
    parallelism: int,
    restartPolicy: string,
    containers: seq<JobContainer>)

  /** The descriptor's infrastructure block. */
  datatype Infrastructure =
    | Process  // the framework's own default block
    | KubernetesJob(
        image: string,
        namespace: string,
        jobWatchTimeoutSeconds: int,
        finishedJobTtl: int,
        job: JobManifest)

  /** The abstract value of a descriptor: its four fields. */
  datatype DescriptorState = DescriptorState(
    name: string,
    storage: Option<StorageBlock>,
    path: Option<string>,
    infrastructure: Infrastructure)

  /**
   * What the framework fills in, besides the name, when it builds a fresh descriptor for a
   * flow without loading an existing one. How it chooses them is not part of this model.
   */
  datatype Defaults = Defaults(storage: Option<StorageBlock>, path: Option<string>, infrastructure: Infrastructure)

  class Descriptor {
    var name: string
    var storage: Option<StorageBlock>
    var path: Option<string>
    var infrastructure: Infrastructure

    function State(): DescriptorState
      reads this
    {
      DescriptorState(name, storage, path, infrastructure)
    }

    /** `Deployment.build_from_flow(flow=..., name=flow.name, load_existing=False)`. */
    constructor FromFlow(flowName: string, defaults: Defaults)
      ensures State() == DescriptorState(flowName, defaults.storage, defaults.path, defaults.infrastructure)
    {
      name := flowName;
      storage := defaults.storage;
      path := defaults.path;
      infrastructure := defaults.infrastructure;
    }
  }
}
