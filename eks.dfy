/** The EKS infrastructure builder (`eks`) and the namespace effect it performs. */
module EksInfra {
  import opened Wrappers
  import opened Kubernetes
  import opened Deployment

  const DefaultImage := "prefecthq/prefect:2-latest-kubernetes"

  /** `job_watch_timeout_seconds` and `finished_job_ttl`: ten minutes. */
  const TenMinutes := 10 * 60

  const FlowRunIdLabel := "prefect.io/flow-run-id"
  const FlowRunIdTemplate := "${{flow_run_id}}"

  /** The three environment entries of the job container, in order. */
  const JobEnv := [
    EnvVar("PREFECT_LOGGING_LEVEL", "DEBUG"),
    EnvVar("PREFECT_KUBERNETES_CLUSTER_UID", "1"),
    EnvVar("EXTRA_PIP_PACKAGES", "s3fs")
  ]

  /** The field bounds of the builder: `0 < cpu <= 64` and `0 < memory_gb <= 256`. */
  predicate ValidQuotas(cpu: real, memoryGb: real) {
    0.0 < cpu <= 64.0 && 0.0 < memoryGb <= 256.0
  }

  /** The namespace `_resolve_namespace` settles on, given the memo and the descriptor's name. */
  function Resolve(memo: Option<string>, descriptorName: string): (ns: string)
    ensures memo.Some? ==> ns == memo.value
    ensures memo.None? ==> ns == descriptorName
  {
    match memo
    case Some(n) => n
    case None => descriptorName
  }

  /** Once the memo has been written, the descriptor no longer matters. */
  lemma ResolveMemoised(memo: Option<string>, first: string, later: string)
    ensures Resolve(Some(Resolve(memo, first)), later) == Resolve(memo, first)
  {
  }

  /**
   * An infrastructure block whose Job containers all request and are limited to quotas within
   * the builder's field bounds.
   */
  predicate WithinQuotas(infra: Infrastructure) {
    infra.KubernetesJob? &&
    forall c :: c in infra.job.containers ==>
      ValidQuotas(c.requests.cpu, c.requests.memoryGb) && ValidQuotas(c.limits.cpu, c.limits.memoryGb)
  }

  /** The KubernetesJob block `update_deployment` installs. */
  function JobFor(image: string, ns: string, cpu: real, memoryGb: real): (infra: Infrastructure)
    ensures infra.KubernetesJob? && infra.image == image
    ensures infra.namespace == ns && infra.job.namespace == ns
    ensures infra.jobWatchTimeoutSeconds == 600 && infra.finishedJobTtl == 600
    ensures infra.job.apiVersion == "batch/v1" && infra.job.kind == "Job"
    ensures infra.job.labels == map[FlowRunIdLabel := FlowRunIdTemplate]
    ensures infra.job.completions == 1 && infra.job.parallelism == 1
    ensures infra.job.restartPolicy == "Never"
    ensures |infra.job.containers| == 1
    ensures infra.job.containers[0].name == "prefect-job"
    ensures infra.job.containers[0].env == JobEnv
    ensures infra.job.containers[0].requests == infra.job.containers[0].limits
    ensures infra.job.containers[0].limits == Quantities(cpu, memoryGb)
  {
    var resources := Quantities(cpu, memoryGb);
    KubernetesJob(
      image, ns, TenMinutes, TenMinutes,
      JobManifest(
        "batch/v1", "Job", ns, map[FlowRunIdLabel := FlowRunIdTemplate],
        1, 1, "Never",
        [JobContainer("prefect-job", JobEnv, resources, resources)]))
  }

  /**
   * The `kubectl create namespace --dry-run` then `kubectl apply` pair of
   * `_ensure_namespace_exists`, as one recorded effect. `applied` logs every namespace
   * handed to it; whether kubectl succeeds is decided by the cluster, here the set
   * `rejects` of namespaces for which it fails (raising `CalledProcessError`).
   * Applying an existing namespace succeeds: the effect is an idempotent upsert.
   */
  class Kubectl {
    var applied: seq<string>
    const rejects: set<string>

    constructor (rejects: set<string>)
      ensures applied == [] && this.rejects == rejects
    {
      applied := [];
      this.rejects := rejects;
    }

    method EnsureNamespace(ns: string) returns (ok: bool)
      modifies this`applied
      ensures applied == old(applied) + [ns]
      ensures ok <==> ns !in rejects
    {
      applied := applied + [ns];
      ok := ns !in rejects;
    }
  }

  /** An `eks(...)` builder. `namespace` is the only field it ever writes: its memo. */
  class EksBuilder {
    const image: string
    var namespace: Option<string>
    const cpu: real
    const memoryGb: real

    predicate Valid() {
      ValidQuotas(cpu, memoryGb)
    }

    constructor (image: string, namespace: Option<string>, cpu: real, memoryGb: real)
      requires ValidQuotas(cpu, memoryGb)
      ensures Valid()
      ensures this.image == image && this.namespace == namespace
      ensures this.cpu == cpu && this.memoryGb == memoryGb
    {
      this.image := image;
      this.namespace := namespace;
      this.cpu := cpu;
      this.memoryGb := memoryGb;
    }

    /** Field validation at construction: out-of-bounds quotas are refused. */
    static method Create(image: string, namespace: Option<string>, cpu: real, memoryGb: real)
      returns (r: Option<EksBuilder>)
      ensures r.Some? <==> ValidQuotas(cpu, memoryGb)
      ensures r.Some? ==> fresh(r.value) && r.value.Valid()
      ensures r.Some? ==> r.value.image == image && r.value.namespace == namespace
      ensures r.Some? ==> r.value.cpu == cpu && r.value.memoryGb == memoryGb
    {
      if ValidQuotas(cpu, memoryGb) {
        var b := new EksBuilder(image, namespace, cpu, memoryGb);
        r := Some(b);
      } else {
        r := None;
      }
    }

    /** What a successful `update_deployment` makes of the descriptor, given the namespace. */
    function Install(ns: string, s: DescriptorState): (r: DescriptorState)
      ensures r.infrastructure == JobFor(image, ns, cpu, memoryGb)
      ensures r.name == s.name && r.storage == s.storage && r.path == s.path
      ensures Valid() ==> WithinQuotas(r.infrastructure)
    {
      s.(infrastructure := JobFor(image, ns, cpu, memoryGb))
    }

    /** `_resolve_namespace`: default to the descriptor's name once, and remember it. */
    method ResolveNamespace(d: Descriptor) returns (ns: string)
      modifies this`namespace
      ensures ns == Resolve(old(namespace), d.name)
      ensures namespace == Some(ns)
      ensures old(namespace).Some? ==> ns == old(namespace).value
    {
      if namespace.None? {
        namespace := Some(d.name);
      }
      ns := namespace.value;
    }

    /**
     * `update_deployment`: resolve the namespace, ensure it exists, then install the job.
     * If the namespace effect fails the exception escapes before the descriptor is
     * touched; the memo and the effect's log entry remain.
     */
    method UpdateDeployment(d: Descriptor, kubectl: Kubectl) returns (r: Option<Descriptor>)
      modifies this`namespace, d, kubectl`applied
      ensures namespace == Some(Resolve(old(namespace), old(d.name)))
      ensures kubectl.applied == old(kubectl.applied) + [namespace.value]
      ensures r.Some? <==> namespace.value !in kubectl.rejects
      ensures r.Some? ==> r.value == d && d.State() == Install(namespace.value, old(d.State()))
      ensures r.None? ==> d.State() == old(d.State())
      ensures r.Some? && Valid() ==> WithinQuotas(d.infrastructure)
    {
      var ns := ResolveNamespace(d);
      var ok := kubectl.EnsureNamespace(ns);
      if !ok {
        return None;
      }
      d.infrastructure := JobFor(image, ns, cpu, memoryGb);
      r := Some(d);
    }
  }
}
