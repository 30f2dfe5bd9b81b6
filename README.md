# perfect-deployer, modelled in Dafny

perfect-deployer attaches deployment configuration to workflows of an orchestration framework
through decorators. Each decorator is a *builder*. Applying a builder to a flow appends it to the
flow's builder list. `build_deployment` creates a fresh deployment descriptor named after the flow
and hands it to every builder in list order. Two concrete builders exist:

- `s3` points the descriptor's storage at `bucket/key` and clears its path;
- `eks` resolves (and memoises) a Kubernetes namespace, makes sure it exists, and installs a fixed
  Kubernetes Job as the descriptor's infrastructure.

`FlowMetadata.build_tags` derives a tag list from a flow's name and version. The example agent
deployer (`examples/simple_eks/agent.py`) upserts five cluster resources in a fixed order:
namespace, service account, role, role binding and agent deployment. Every upsert creates the
resource, patches it on a 409 conflict, and lets any other error through.

Modules (one per source file, plus shared data):

- `Wrappers` — `Option`, `Result` and `Outcome`.
- `Kubernetes` — environment entries and cpu/memory quantities.
- `Deployment` — the descriptor: a class with the four fields the builders touch.
- `S3Storage` — the `s3` builder.
- `EksInfra` — the `eks` builder, the Job it installs, and the namespace effect.
- `Interface` — flows, the proxy, decoration, and the build loop.
- `Metadata` — `FlowMetadata.build_tags`.
- `Agent` — the agent deployer.
- `Scenarios` — the decorator stacks of `tests/test_interface.py` and `examples/simple_eks/my_flow.py`.
  They are checked against the contracts alone and state nothing new, so they have no rows below.

Design choices:

- **Builders are a datatype.** The abstract builder interface has three implementations: the
  identity builder of the tests, `s3` and `eks`. It becomes `Builder = Dummy | S3(..) | Eks(..)`.
  The `eks` case holds a class object, because that builder writes its own `namespace` field as a
  memo.
- **The build loop is specified by a fold.** `BuildDeployment` is a `while` loop over the list. Its
  contract ties the result to the ghost fold `Fold`. `Fold` threads a `World` through the builders.
  The world holds:
  - the descriptor's fields;
  - the memo of every eks builder;
  - the log of namespaces handed to kubectl;
  - a failure flag.
  The properties of the build are lemmas about `Fold`.
- **kubectl is one recorded effect.** It is a `Kubectl` object that logs each namespace. Whether
  kubectl fails for a namespace is fixed by the cluster, given here as the set `rejects`.
- **The cluster API is a `ClusterApi` object.** Its one method, `Send`, logs every call. The
  cluster's answer to each call is the function `respond`. The deploy steps are methods of the
  `Agent` datatype that take the `ClusterApi` object as a parameter and send through it. The whole
  deploy is proved equal to the run `DeployRun`, whose properties are lemmas.

Three behaviours of the code differ from what a reader of the design would expect. The model
follows the code in each:

- **Re-decorating creates a new proxy.** One would expect decorating an already-wrapped flow to
  return the same wrapper, extended. The code (`interface.py:77-80`) instead creates a new
  `DeployableFlow` proxy at every decoration, wrapping whatever it was given. A second decoration
  therefore wraps the earlier proxy, and proxies nest. The builder list is still shared: a proxy
  forwards attribute writes to the object it wraps, so through the chain `_deployment_builders`
  lives on the innermost flow, and the `hasattr` check at `interface.py:47` finds it there. The
  model collapses the chain: `Decorate` returns a fresh proxy whose `target` is that innermost
  flow (`FlowRef.Base`), not the proxy it was applied to.
- **A configuration error comes after four upserts.** One would expect a missing or empty
  settings profile to fail before any cluster call. In the code the environment is built inside
  `_apply_deployment`, the fifth step. So by the time a configuration error escapes, the
  namespace, service account, role and role binding upserts have already been sent.
  `Agent.Agent.ProfileErrorAfterFourUpserts` states this.
- **Environment values come from the active settings context.** `_build_env_from_profile`
  writes `str(setting.value())`, the value in the active settings context, not the value the
  profile stores. The model takes that lookup as the parameter `valueOf`.

## Model

| member | source | states |
|---|---|---|
| Interface.Decorate | src/perfect_deployer/interface.py:77-80 | decorating returns a fresh proxy over the same underlying flow; the flow's list becomes `[b]` when it had none, else the old list with `b` appended |
| Interface.Decorated | src/perfect_deployer/interface.py:47-48 | without an existing list the result is exactly `[b]`; with one, it is one longer, its earlier entries are unchanged and `b` is last |
| Interface.DeployableFlow.constructor | src/perfect_deployer/interface.py:44-48 | the proxy targets the given flow; an existing list is reused unchanged, a missing one is created empty |
| Interface.DeployableFlow.SetDeploymentBuilders | src/perfect_deployer/interface.py:54-58 | after the setter the list is exactly the given one |
| Interface.StackedInOrder | src/perfect_deployer/interface.py:79 | stacking decorators `bs` gives the existing list (if any) followed by `bs` in application order |
| Interface.StackedOnPlainFlow | tests/test_interface.py:17-24 | n decorators stacked on a plain flow give a list of length n, innermost first |
| Deployment.Descriptor.FromFlow | src/perfect_deployer/interface.py:63-65 | the fresh descriptor is named after the flow and carries the framework's defaults |
| Interface.Start | src/perfect_deployer/interface.py:63-65 | the build starts from a descriptor named after the flow, not failed |
| Interface.DeployableFlow.BuildDeployment | src/perfect_deployer/interface.py:60-68 | the loop's result, the eks memos and the kubectl log are those of `Fold` over the list; a descriptor is returned iff no builder raised |
| Interface.UpdateDeployment | src/perfect_deployer/interface.py:66-67 | one builder's `update_deployment` changes the descriptor, the memos and the kubectl log exactly as `Step`, and returns the same descriptor object |
| Interface.Fold | src/perfect_deployer/interface.py:66-67 | the fold keeps the memo's domain and, once failed, changes nothing |
| Interface.FoldAppend | src/perfect_deployer/interface.py:66-67 | the fold runs strictly in list order: the last builder acts on the result of all earlier ones, unless they failed |
| Interface.FoldIdentity | tests/test_interface.py:14-15 | an empty list, or a list of identity builders, gives back the base descriptor unchanged |
| Interface.FoldKeepsName | src/perfect_deployer/interface.py:63-65 | the built descriptor keeps the flow's name whatever the builders are |
| Interface.LastStorageWins | src/perfect_deployer/interface.py:66-67 | when an `s3` builder is last, the built descriptor has its storage and no path, whatever earlier builders set |
| Interface.LastInfrastructureWins | src/perfect_deployer/interface.py:66-67 | when an `eks` builder is last, the built descriptor carries its Job in the namespace it resolves, with quotas within the field bounds when the builder is valid |
| Interface.FoldKeepsResolvedNamespace | src/perfect_deployer/implementations/infra/eks.py:46-51 | a namespace already resolved survives any build unchanged |
| Interface.FoldResolvesNamespaces | src/perfect_deployer/implementations/infra/eks.py:46-51 | after a successful build every eks builder of the list has its namespace resolved |
| Interface.FoldWithoutEks | src/perfect_deployer/interface.py:66-67 | a list without eks builders never fails, calls kubectl nowhere and leaves every memo alone |
| S3Storage.S3Builder.BucketPath | src/perfect_deployer/implementations/flow_storage/s3.py:16 | the bucket path is the bucket, one `/`, then the key |
| S3Storage.S3Builder.Apply | src/perfect_deployer/implementations/flow_storage/s3.py:14-18 | storage becomes the S3 block at `bucket/key`, path becomes `None`, name and infrastructure are kept |
| S3Storage.S3Builder.UpdateDeployment | src/perfect_deployer/implementations/flow_storage/s3.py:14-18 | updates the given descriptor in place as `Apply` says and returns that same object |
| S3Storage.ApplyIdempotent | src/perfect_deployer/implementations/flow_storage/s3.py:16-17 | applying the builder twice equals applying it once |
| S3Storage.ApplyOverwrites | src/perfect_deployer/implementations/flow_storage/s3.py:16-17 | the result does not depend on the storage or path overwritten |
| EksInfra.EksBuilder.constructor | src/perfect_deployer/implementations/infra/eks.py:17-42 | a builder is built with the given fields only within the quota bounds |
| EksInfra.EksBuilder.Create | src/perfect_deployer/implementations/infra/eks.py:32-42 | construction succeeds iff `0 < cpu <= 64` and `0 < memory_gb <= 256`, and keeps the given fields |
| EksInfra.Resolve | src/perfect_deployer/implementations/infra/eks.py:44-51 | a set namespace is kept and the descriptor ignored; an unset one becomes the descriptor's name |
| EksInfra.ResolveMemoised | src/perfect_deployer/implementations/infra/eks.py:50-51 | once resolved, a later descriptor with another name still gets the first namespace |
| EksInfra.EksBuilder.ResolveNamespace | src/perfect_deployer/implementations/infra/eks.py:44-51 | returns the resolved namespace and stores it as the memo |
| EksInfra.Kubectl.EnsureNamespace | src/perfect_deployer/implementations/infra/eks.py:53-81 | logs the namespace once and succeeds iff the cluster accepts it |
| EksInfra.JobFor | src/perfect_deployer/implementations/infra/eks.py:87-140 | the Job: its namespace twice, ten-minute timeouts, one completion, parallelism 1, restart `Never`, the flow-run-id label, one container with the three env entries in order, requests equal to limits equal to the builder's quotas |
| EksInfra.EksBuilder.Install | src/perfect_deployer/implementations/infra/eks.py:142 | only the infrastructure changes; name, storage and path are untouched; for a builder within its field bounds, the installed Job's requests and limits are within those bounds |
| EksInfra.EksBuilder.UpdateDeployment | src/perfect_deployer/implementations/infra/eks.py:83-143 | resolves and memoises the namespace, ensures it before anything else; on failure the descriptor is unchanged, otherwise the same object gets the Job, within the field bounds when the builder is |
| Metadata.FlowMetadata.BuildTags | src/perfect_deployer/implementations/metadata/__init__.py:9-16 | at most two tags, each a non-empty name or version; exactly `[name, version]`, `[name]`, `[version]` or `[]` by truthiness |
| Agent.Agent.Limits | examples/simple_eks/agent.py:21-27 | the limits are the agent's cpu and memory |
| Agent.Agent.Requests | examples/simple_eks/agent.py:29-35 | the requests equal the limits: the agent's cpu and memory |
| Agent.Agent.Labels | examples/simple_eks/agent.py:37-40 | the labels have the single key `app`, mapped to the agent's name |
| Agent.Agent.ServiceAccountName | examples/simple_eks/agent.py:42-45 | the service account name is the agent's name |
| Agent.Agent.BuildNamespace | examples/simple_eks/agent.py:86-93 | a `v1` Namespace named after the agent's namespace, with no namespace or labels of its own |
| Agent.Agent.BuildServiceAccount | examples/simple_eks/agent.py:133-141 | a `v1` ServiceAccount named by `ServiceAccountName`, in the agent's namespace |
| Agent.Agent.BuildRole | examples/simple_eks/agent.py:143-171 | an RBAC `v1` Role named after the agent, in its namespace, with exactly the two fixed rule sets |
| Agent.QueueArgsShape | examples/simple_eks/agent.py:52-53 | two arguments per work queue, `--work-queue` then the queue, in list order |
| Agent.Agent.CommandShape | examples/simple_eks/agent.py:47-55 | the command starts `prefect agent start`, has `--match namespace` next iff matching on namespace, then the queue pairs; length 3 + 2·[match] + 2·queues |
| Agent.Agent.BuildCommand | examples/simple_eks/agent.py:47-55 | the loop builds exactly `Command()` |
| Agent.SettingsEnvShape | examples/simple_eks/agent.py:77-83 | one entry per setting, in order, valued in the active context |
| Agent.ProfileEnvShape | examples/simple_eks/agent.py:57-84 | not-found error iff the profile is missing, empty error iff it has no settings; otherwise the cluster-uid entry followed by one entry per setting, length 1 + settings |
| Agent.Agent.BuildEnvFromProfile | examples/simple_eks/agent.py:57-84 | the loop builds exactly `ProfileEnv`, errors included |
| Agent.Agent.BuildRoleBinding | examples/simple_eks/agent.py:173-193 | the binding lives where the role does and refers to the role by group, kind and name, and to the agent's service account by name and namespace |
| Agent.Agent.DeploymentFor | examples/simple_eks/agent.py:95-131 | one replica; named after the agent in its namespace; selector, pod template and metadata all carry the labels `{"app": name}`; runs as the agent's service account; one container named after the agent with the agent command, the given env and requests equal to limits |
| Agent.Agent.BuildDeploymentSpec | examples/simple_eks/agent.py:95-131 | a profile error escapes; otherwise the deployment for the profile's env |
| Agent.UpsertDecision | examples/simple_eks/agent.py:199-206 | a created resource needs no patch; a 409 gives exactly one patch whose own error propagates; any other status propagates with no patch |
| Agent.Upsert | examples/simple_eks/agent.py:199-206 | the calls sent and the outcome are those `UpsertDecision` describes |
| Agent.Agent.NamespaceRequest | examples/simple_eks/agent.py:195-206 | creates the namespace unscoped; the patch resends the same body, targeting the name that body carries |
| Agent.Agent.ServiceAccountRequest | examples/simple_eks/agent.py:208-225 | create in the agent's namespace; the patch resends the body to `name` in that namespace, the name the body carries |
| Agent.Agent.RoleRequest | examples/simple_eks/agent.py:227-244 | create in the agent's namespace; the patch resends the body to `name` in that namespace, the name the body carries |
| Agent.Agent.RoleBindingRequest | examples/simple_eks/agent.py:246-263 | create in the agent's namespace; the patch resends the body to `name` in that namespace, the name the body carries |
| Agent.Agent.DeploymentRequest | examples/simple_eks/agent.py:265-282 | create in the agent's namespace; the patch resends the body to `name` in that namespace, the name the body carries |
| Agent.Agent.UpdateNamespace | examples/simple_eks/agent.py:195-206 | the namespace upsert's calls and outcome |
| Agent.Agent.ApplyServiceAccount | examples/simple_eks/agent.py:208-225 | the service account upsert's calls and outcome |
| Agent.Agent.ApplyRole | examples/simple_eks/agent.py:227-244 | the role upsert's calls and outcome |
| Agent.Agent.ApplyRoleBinding | examples/simple_eks/agent.py:246-263 | the role binding upsert's calls and outcome |
| Agent.Agent.ApplyDeployment | examples/simple_eks/agent.py:265-282 | a profile error escapes with no call made; otherwise the deployment upsert's calls and outcome |
| Agent.RunUpsertsAllPass | examples/simple_eks/agent.py:295-308 | when every upsert passes, all of them run in order and the run passes |
| Agent.RunUpsertsFailedPrefix | examples/simple_eks/agent.py:295-308 | once a run has failed, later upserts send nothing and change nothing |
| Agent.RunUpsertsStopsAt | examples/simple_eks/agent.py:295-308 | the first failing upsert ends the run with its error, after exactly the calls up to it |
| Agent.AllCallsBounds | examples/simple_eks/agent.py:199-206 | each upsert sends one or two calls; with every create succeeding, exactly the creates in order |
| Agent.AllCallsFrom | examples/simple_eks/agent.py:295-308 | every call sent is the create or the patch of one of the run's upserts |
| Agent.Agent.Deploy | examples/simple_eks/agent.py:284-308 | the calls sent and the outcome are exactly those of `DeployRun` for the current profile's env |
| Agent.Agent.DeployRequests | examples/simple_eks/agent.py:295-308 | five upserts: the four fixed ones, then the deployment; each patch resends its create's body |
| Agent.Agent.DeployIsFiveUpserts | examples/simple_eks/agent.py:295-308 | with a valid profile, a deploy is the run of namespace, service account, role, role binding and deployment upserts, in that order |
| Agent.Agent.DeployOnFreshCluster | examples/simple_eks/agent.py:295-308 | when every create succeeds, exactly the five creates are sent in order and the deploy passes |
| Agent.Agent.DeployStopsAtFirstFailure | examples/simple_eks/agent.py:295-308 | the first failing upsert ends the deploy with its API error; nothing after it is sent |
| Agent.Agent.ProfileErrorAfterFourUpserts | examples/simple_eks/agent.py:265-266 | a missing or empty profile fails the deploy only after the four other upserts; no deployment call is sent |

## Left out

- Async handling of `build_deployment` (`sync_compatible`) and the internals of
  `Deployment.build_from_flow`: the framework's choice of storage, path and infrastructure for a
  fresh descriptor is an input (`Defaults`).
- The proxy's forwarding of invocation and of attributes other than the builder list: the model
  keeps only the builder list that decoration reaches. Calling the decorated flow is not
  modelled.
- Interface.Decorate: does not model the chain of nested proxies that repeated decoration builds
  in the source. Each proxy here targets the innermost flow directly. Which proxy wraps which is
  not represented, only the shared list they all reach.
- The `kubectl` subprocesses, the temporary directory and the YAML file of
  `_ensure_namespace_exists`: they are one recorded effect whose success the cluster decides.
- Logging in `deploy`: one line per upserted resource, with no bearing on the calls made.
- Agent.Agent.Deploy: does not model loading the cluster credentials (`load_kube_config`, falling
  back to `load_incluster_config`). When both fail, the source's `deploy` raises before sending
  any call. The model's `Deploy` always starts with the namespace create, because credentials are
  outside the model.
- Loading the settings profiles and reading the current profile: both are inputs, and
  `setting.value()` is the parameter `valueOf`.
- Rendering cpu and memory as strings (`str(cpu)`, `f"{memory_gb}Gi"`): quantities are kept as
  `real` values, and only their equality and source are stated.
- Validation internals of the framework's `KubernetesJob` and `S3` blocks and of pydantic beyond
  the quota bounds.
- Default field values, and the `__main__` block of the agent script. The model takes every field
  as given:
  - the agent's defaults are match on namespace, no queues, 1 cpu and 0.5 GB;
  - the `eks` builder's defaults are the image `prefecthq/prefect:2-latest-kubernetes` and no
    namespace. The image field also declares `env="IMAGE"`, which is not modelled. `EksBuilder`'s
    constructor and `Create` take both explicitly, and `DefaultImage` records the default image.
- The role's verb lists, including `"List"`: they are copied as constants, with no property.
- `deployment.apply(upload=True)` in `examples/simple_eks/my_flow.py`: upload and registration
  I/O. The scenario stops at the built descriptor.
- `FlowMetadata`'s `flow_run_name` and `description`: they are carried as fields, and nothing in
  the core reads them.
