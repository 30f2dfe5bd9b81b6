/**
 * The standalone Kubernetes agent deployer: the agent's manifests, the agent command and
 * environment, the create-then-patch-on-conflict upsert and the fixed deploy order.
 */
module Agent {
  import opened Wrappers
  import opened Kubernetes

  /** The HTTP status the cluster API raises when a resource already exists. */
  const Conflict := 409

  const RbacGroup := "rbac.authorization.k8s.io"

  /** The fixed first entry of the agent's environment. */
  const ClusterUidEnv := EnvVar("PREFECT_KUBERNETES_CLUSTER_UID", "1")

  /** The fixed start of the agent command. */
  const StartCommand := ["prefect", "agent", "start"]

  // ---------------------------------------------------------------- manifests

  /** A `V1ObjectMeta`; unset arguments are `None`. */
  datatype ObjectMeta = ObjectMeta(name: Option<string>, namespace: Option<string>, labels: Option<map<string, string>>)

  datatype NamespaceManifest = NamespaceManifest(apiVersion: string, kind: string, metadata: ObjectMeta)

  datatype ServiceAccountManifest = ServiceAccountManifest(apiVersion: string, kind: string, metadata: ObjectMeta)

  datatype PolicyRule = PolicyRule(apiGroups: seq<string>, resources: seq<string>, verbs: seq<string>)

  datatype RoleManifest = RoleManifest(apiVersion: string, kind: string, metadata: ObjectMeta, rules: seq<PolicyRule>)

  datatype RoleRef = RoleRef(apiGroup: string, kind: string, name: string)

  datatype Subject = Subject(kind: string, name: string, namespace: string)

  datatype RoleBindingManifest = RoleBindingManifest(
    apiVersion: string, kind: string, metadata: ObjectMeta, roleRef: RoleRef, subjects: seq<Subject>)

  datatype Container = Container(
    name: string, command: seq<string>, image: string, env: seq<EnvVar>, args: seq<string>,
    limits: Quantities, requests: Quantities)

  datatype DeploymentManifest = DeploymentManifest(
    apiVersion: string, kind: string, metadata: ObjectMeta, replicas: int,
    matchLabels: map<string, string>, templateMetadata: ObjectMeta,
    serviceAccountName: string, containers: seq<Container>)

  /** The two fixed rule sets of the agent's role, copied as they are (including `"List"`). */
  const RoleRules := [
    PolicyRule(["*"], ["namespaces", "pods", "pods/log", "pods/status"], ["get", "watch", "List"]),
    PolicyRule(["*"], ["jobs"], ["get", "List", "watch", "create", "update", "patch", "delete"])
  ]

  // ---------------------------------------------------------------- profiles

  /** One setting of a profile with the value the profile stores for it. */
  datatype Setting = Setting(name: string, value: string)

  /** A settings profile; `settings` is in the profile's iteration order. */
  datatype Profile = Profile(name: string, settings: seq<Setting>)

  /** The two configuration errors of `_build_env_from_profile` (both `ValueError`). */
  datatype ProfileError = ProfileNotFound(profile: string) | ProfileEmpty(profile: string)

  /** The env entries for `settings`, one per setting in order, valued by `valueOf`. */
  function SettingsEnv(settings: seq<Setting>, valueOf: string -> string): seq<EnvVar>
    decreases |settings|
  {
    if settings == [] then []
    else
      var last := settings[|settings| - 1];
      SettingsEnv(settings[..|settings| - 1], valueOf) + [EnvVar(last.name, valueOf(last.name))]
  }

  /**
   * What `_build_env_from_profile` produces for the current profile name `current`.
   * `valueOf` gives `str(setting.value())`, the value of a setting in the active settings
   * context (not the value stored in the profile).
   */
  function ProfileEnv(profiles: map<string, Profile>, current: string, valueOf: string -> string)
    : Result<seq<EnvVar>, ProfileError>
  {
    if current !in profiles then Err(ProfileNotFound(current))
    else if profiles[current].settings == [] then Err(ProfileEmpty(current))
    else Ok([ClusterUidEnv] + SettingsEnv(profiles[current].settings, valueOf))
  }

  lemma {:induction false} SettingsEnvShape(settings: seq<Setting>, valueOf: string -> string)
    ensures |SettingsEnv(settings, valueOf)| == |settings|
    ensures forall k :: 0 <= k < |settings| ==>
      SettingsEnv(settings, valueOf)[k] == EnvVar(settings[k].name, valueOf(settings[k].name))
    decreases |settings|
  {
    if settings != [] {
      SettingsEnvShape(settings[..|settings| - 1], valueOf);
    }
  }

  /**
   * The environment fails on a missing or empty profile; otherwise it is the cluster-uid entry
   * followed by exactly one entry per setting, in order.
   */
  lemma ProfileEnvShape(profiles: map<string, Profile>, current: string, valueOf: string -> string)
    ensures ProfileEnv(profiles, current, valueOf) == Err(ProfileNotFound(current)) <==> current !in profiles
    ensures ProfileEnv(profiles, current, valueOf) == Err(ProfileEmpty(current)) <==>
      current in profiles && profiles[current].settings == []
    ensures ProfileEnv(profiles, current, valueOf).Ok? ==>
      var env := ProfileEnv(profiles, current, valueOf).value;
      var settings := profiles[current].settings;
      && |env| == 1 + |settings|
      && env[0] == ClusterUidEnv
      && forall k :: 0 <= k < |settings| ==> env[k + 1] == EnvVar(settings[k].name, valueOf(settings[k].name))
  {
    if current in profiles {
      SettingsEnvShape(profiles[current].settings, valueOf);
    }
  }

  // ---------------------------------------------------------------- cluster API

  /** The payload of an API call, by resource kind. */
  datatype Resource =
    | NamespaceBody(ns: NamespaceManifest)
    | ServiceAccountBody(account: ServiceAccountManifest)
    | RoleBody(role: RoleManifest)
    | RoleBindingBody(binding: RoleBindingManifest)
    | DeploymentBody(deployment: DeploymentManifest)

  /**
   * A cluster API call: `create_*`, or `patch_*` of the resource named `target`. `scope` is the
   * `namespace=` argument of the namespaced calls.
   */
  datatype Call =
    | Create(scope: Option<string>, body: Resource)
    | Patch(target: string, scope: Option<string>, body: Resource)

  /** What a call does: return, or raise `ApiException` with an HTTP status. */
  datatype ApiResult = Returned | ApiException(status: int)

  /** Why `deploy` stopped: an API error it let through, or a configuration error. */
  datatype DeployError = ApiFailure(status: int) | ConfigFailure(error: ProfileError)

  /**
   * The Kubernetes API clients. The answer to each call is decided by the cluster: here the
   * fixed function `respond`. `log` records every call made, in order.
   */
  class ClusterApi {
    var log: seq<Call>
    const respond: Call -> ApiResult

    constructor (respond: Call -> ApiResult)
      ensures log == [] && this.respond == respond
    {
      log := [];
      this.respond := respond;
    }

    method Send(c: Call) returns (res: ApiResult)
      modifies this`log
      ensures log == old(log) + [c] && res == respond(c)
    {
      log := log + [c];
      res := respond(c);
    }
  }

  /** The two calls of one create-or-patch step. */
  datatype CreateOrPatch = CreateOrPatch(create: Call, patch: Call)

  /** The calls an upsert makes: the create, and the patch only after a conflict. */
  function UpsertCalls(respond: Call -> ApiResult, u: CreateOrPatch): seq<Call>
  {
    [u.create] + if respond(u.create) == ApiException(Conflict) then [u.patch] else []
  }

  /** Whether an upsert passes or raises, and with which status. */
  function UpsertOutcome(respond: Call -> ApiResult, u: CreateOrPatch): Outcome<DeployError>
  {
    match respond(u.create)
    case Returned => Pass
    case ApiException(s) =>
      if s != Conflict then Fail(ApiFailure(s))
      else match respond(u.patch)
        case Returned => Pass
        case ApiException(p) => Fail(ApiFailure(p))
  }

  /**
   * The upsert decision: a successful create needs no patch; a conflict leads to exactly one
   * patch, whose own error propagates; any other error propagates with no patch.
   */
  lemma UpsertDecision(respond: Call -> ApiResult, u: CreateOrPatch)
    ensures respond(u.create) == Returned ==>
      UpsertCalls(respond, u) == [u.create] && UpsertOutcome(respond, u) == Pass
    ensures respond(u.create) == ApiException(Conflict) ==>
      && UpsertCalls(respond, u) == [u.create, u.patch]
      && (UpsertOutcome(respond, u) == Pass <==> respond(u.patch) == Returned)
      && (respond(u.patch).ApiException? ==> UpsertOutcome(respond, u) == Fail(ApiFailure(respond(u.patch).status)))
    ensures respond(u.create).ApiException? && respond(u.create).status != Conflict ==>
      UpsertCalls(respond, u) == [u.create] && UpsertOutcome(respond, u) == Fail(ApiFailure(respond(u.create).status))
  {
  }

  /** The create-then-patch-on-409 body shared by `_update_namespace` and the `_apply_*` methods. */
  method Upsert(api: ClusterApi, u: CreateOrPatch) returns (r: Outcome<DeployError>)
    modifies api`log
    ensures api.log == old(api.log) + UpsertCalls(api.respond, u)
    ensures r == UpsertOutcome(api.respond, u)
  {
    var res := api.Send(u.create);
    if res.ApiException? {
      if res.status == Conflict {
        var patched := api.Send(u.patch);
        if patched.ApiException? {
          r := Fail(ApiFailure(patched.status));
        } else {
          r := Pass;
        }
      } else {
        r := Fail(ApiFailure(res.status));
      }
    } else {
      r := Pass;
    }
  }

  /** The patch of an upsert sends the created body again, in the same namespace scope. */
  predicate PatchesCreated(u: CreateOrPatch) {
    u.create.Create? && u.patch.Patch? && u.patch.body == u.create.body && u.patch.scope == u.create.scope
  }

  /** The calls made and the outcome of a run of upserts. */
  datatype Run = Run(calls: seq<Call>, outcome: Outcome<DeployError>)

  /** Upserts in order, stopping at the first that raises. */
  function RunUpserts(respond: Call -> ApiResult, us: seq<CreateOrPatch>): Run
    decreases |us|
  {
    if us == [] then Run([], Pass)
    else
      var prev := RunUpserts(respond, us[..|us| - 1]);
      var last := us[|us| - 1];
      if prev.outcome.Fail? then prev
      else Run(prev.calls + UpsertCalls(respond, last), UpsertOutcome(respond, last))
  }

  /** The calls of all upserts of `us`, each run to completion. */
  function AllCalls(respond: Call -> ApiResult, us: seq<CreateOrPatch>): seq<Call>
    decreases |us|
  {
    if us == [] then [] else AllCalls(respond, us[..|us| - 1]) + UpsertCalls(respond, us[|us| - 1])
  }

  /** When every upsert passes, all of them run, in order, and the run passes. */
  lemma {:induction false} RunUpsertsAllPass(respond: Call -> ApiResult, us: seq<CreateOrPatch>)
    requires forall j :: 0 <= j < |us| ==> UpsertOutcome(respond, us[j]) == Pass
    ensures RunUpserts(respond, us) == Run(AllCalls(respond, us), Pass)
    decreases |us|
  {
    if us != [] {
      RunUpsertsAllPass(respond, us[..|us| - 1]);
    }
  }

  /** Once a prefix of the run has failed, the rest of the upserts change nothing. */
  lemma {:induction false} RunUpsertsFailedPrefix(respond: Call -> ApiResult, us: seq<CreateOrPatch>, k: nat)
    requires k <= |us|
    requires RunUpserts(respond, us[..k]).outcome.Fail?
    ensures RunUpserts(respond, us) == RunUpserts(respond, us[..k])
    decreases |us|
  {
    if k < |us| {
      var init := us[..|us| - 1];
      assert init[..k] == us[..k];
      RunUpsertsFailedPrefix(respond, init, k);
    } else {
      assert us[..k] == us;
    }
  }

  /**
   * A propagated error stops the run: when upsert `k` is the first to raise, the calls are
   * exactly those of upserts `0..k` and the run fails with that error.
   */
  lemma {:induction false} RunUpsertsStopsAt(respond: Call -> ApiResult, us: seq<CreateOrPatch>, k: nat)
    requires k < |us|
    requires forall j :: 0 <= j < k ==> UpsertOutcome(respond, us[j]) == Pass
    requires UpsertOutcome(respond, us[k]).Fail?
    ensures RunUpserts(respond, us) == Run(AllCalls(respond, us[..k + 1]), UpsertOutcome(respond, us[k]))
    decreases |us|
  {
    var init := us[..|us| - 1];
    if k == |us| - 1 {
      RunUpsertsAllPass(respond, init);
      assert us[..k + 1] == us;
    } else {
      RunUpsertsStopsAt(respond, init, k);
      assert init[..k + 1] == us[..k + 1];
    }
  }

  /** Every upsert makes its create call, and a patch only after a conflict. */
  lemma {:induction false} AllCallsBounds(respond: Call -> ApiResult, us: seq<CreateOrPatch>)
    ensures |us| <= |AllCalls(respond, us)| <= 2 * |us|
    ensures (forall j :: 0 <= j < |us| ==> respond(us[j].create) == Returned) ==>
      |AllCalls(respond, us)| == |us| && forall j :: 0 <= j < |us| ==> AllCalls(respond, us)[j] == us[j].create
    decreases |us|
  {
    if us != [] {
      var init := us[..|us| - 1];
      AllCallsBounds(respond, init);
      if forall j :: 0 <= j < |us| ==> respond(us[j].create) == Returned {
        assert forall j :: 0 <= j < |init| ==> respond(init[j].create) == Returned by {
          forall j | 0 <= j < |init| ensures respond(init[j].create) == Returned {
            assert init[j] == us[j];
          }
        }
      }
    }
  }

  /** Every call of a run is the create or the patch of one of its upserts. */
  lemma {:induction false} AllCallsFrom(respond: Call -> ApiResult, us: seq<CreateOrPatch>)
    ensures forall c :: c in AllCalls(respond, us) ==>
      exists j :: 0 <= j < |us| && (c == us[j].create || c == us[j].patch)
    decreases |us|
  {
    if us != [] {
      var init := us[..|us| - 1];
      AllCallsFrom(respond, init);
      forall c | c in AllCalls(respond, us)
        ensures exists j :: 0 <= j < |us| && (c == us[j].create || c == us[j].patch)
      {
        if c in AllCalls(respond, init) {
          var j :| 0 <= j < |init| && (c == init[j].create || c == init[j].patch);
          assert init[j] == us[j];
        } else {
          assert c in UpsertCalls(respond, us[|us| - 1]);
        }
      }
    }
  }

  // ---------------------------------------------------------------- the agent

  /** The agent command after the start, for the work queues `qs`, in order. */
  function QueueArgs(qs: seq<string>): seq<string>
    decreases |qs|
  {
    if qs == [] then [] else QueueArgs(qs[..|qs| - 1]) + ["--work-queue", qs[|qs| - 1]]
  }

  lemma {:induction false} QueueArgsShape(qs: seq<string>)
    ensures |QueueArgs(qs)| == 2 * |qs|
    ensures forall k :: 0 <= k < |qs| ==> QueueArgs(qs)[2 * k] == "--work-queue" && QueueArgs(qs)[2 * k + 1] == qs[k]
    decreases |qs|
  {
    if qs != [] {
      QueueArgsShape(qs[..|qs| - 1]);
    }
  }

  /** A `PrefectKubernetesAgent`. Defaults in the source: match on namespace, no queues, 1 cpu, 0.5 GB. */
  datatype Agent = Agent(
    name: string,
    namespace: string,
    image: string,
    matchOnNamespace: bool,
    workQueueNames: seq<string>,
    cpu: real,
    memoryGb: real)
  {
    /** The container's resource limits: the agent's cpu and memory. */
    function Limits(): (q: Quantities)
      ensures q.cpu == cpu && q.memoryGb == memoryGb
    {
      Quantities(cpu, memoryGb)
    }

    /** The container's resource requests, the same as its limits. */
    function Requests(): (q: Quantities)
      ensures q == Limits()
      ensures q.cpu == cpu && q.memoryGb == memoryGb
    {
      Quantities(cpu, memoryGb)
    }

    /** The agent's labels: the single entry `app` naming the agent. */
    function Labels(): (l: map<string, string>)
      ensures l.Keys == {"app"} && l["app"] == name
    {
      map["app" := name]
    }

    /** The agent runs as the service account that carries its own name. */
    function ServiceAccountName(): (n: string)
      ensures n == name
    {
      name
    }

    /** The agent command `_build_command` assembles. */
    function Command(): seq<string> {
      StartCommand + (if matchOnNamespace then ["--match", namespace] else []) + QueueArgs(workQueueNames)
    }

    /**
     * The command starts the agent, matches on the namespace exactly when enabled, and then names
     * every work queue in order, each after its own `--work-queue` flag.
     */
    lemma CommandShape()
      ensures var c := Command(); var off := if matchOnNamespace then 5 else 3;
        && c[..3] == StartCommand
        && |c| == off + 2 * |workQueueNames|
        && (matchOnNamespace ==> c[3] == "--match" && c[4] == namespace)
        && forall k :: 0 <= k < |workQueueNames| ==> c[off + 2 * k] == "--work-queue" && c[off + 2 * k + 1] == workQueueNames[k]
    {
      QueueArgsShape(workQueueNames);
      var off := if matchOnNamespace then 5 else 3;
      var head := StartCommand + (if matchOnNamespace then ["--match", namespace] else []);
      assert |head| == off;
      assert Command() == head + QueueArgs(workQueueNames);
    }

    /** `_build_command`: the start, the namespace match if enabled, then one pair per work queue. */
    method BuildCommand() returns (command: seq<string>)
      ensures command == Command()
    {
      command := ["prefect", "agent", "start"];
      if matchOnNamespace {
        command := command + ["--match", namespace];
      }
      ghost var head := command;
      var i := 0;
      while i < |workQueueNames|
        invariant 0 <= i <= |workQueueNames|
        invariant command == head + QueueArgs(workQueueNames[..i])
      {
        assert workQueueNames[..i + 1][..i] == workQueueNames[..i];
        command := command + ["--work-queue", workQueueNames[i]];
        i := i + 1;
      }
      assert workQueueNames[..i] == workQueueNames;
    }

    /** `_build_env_from_profile`: fail on a missing or empty profile, else list the settings. */
    method BuildEnvFromProfile(profiles: map<string, Profile>, current: string, valueOf: string -> string)
      returns (r: Result<seq<EnvVar>, ProfileError>)
      ensures r == ProfileEnv(profiles, current, valueOf)
    {
      if current !in profiles {
        return Err(ProfileNotFound(current));
      }
      var settings := profiles[current].settings;
      if settings == [] {
        return Err(ProfileEmpty(current));
      }
      var env := [ClusterUidEnv];
      var i := 0;
      while i < |settings|
        invariant 0 <= i <= |settings|
        invariant env == [ClusterUidEnv] + SettingsEnv(settings[..i], valueOf)
      {
        assert settings[..i + 1][..i] == settings[..i];
        env := env + [EnvVar(settings[i].name, valueOf(settings[i].name))];
        i := i + 1;
      }
      assert settings[..i] == settings;
      r := Ok(env);
    }

    /** The namespace object: named after the agent's namespace, with no namespace or labels of its own. */
    function BuildNamespace(): (n: NamespaceManifest)
      ensures n.apiVersion == "v1" && n.kind == "Namespace"
      ensures n.metadata.name == Some(namespace) && n.metadata.namespace == None && n.metadata.labels == None
    {
      NamespaceManifest("v1", "Namespace", ObjectMeta(Some(namespace), None, None))
    }

    /** The service account the agent runs as, in the agent's namespace. */
    function BuildServiceAccount(): (sa: ServiceAccountManifest)
      ensures sa.apiVersion == "v1" && sa.kind == "ServiceAccount"
      ensures sa.metadata.name == Some(ServiceAccountName()) && sa.metadata.namespace == Some(namespace)
      ensures sa.metadata.labels == None
    {
      ServiceAccountManifest("v1", "ServiceAccount", ObjectMeta(Some(name), Some(namespace), None))
    }

    /** The agent's role, in the agent's namespace, with the two fixed rule sets. */
    function BuildRole(): (role: RoleManifest)
      ensures role.apiVersion == RbacGroup + "/v1" && role.kind == "Role"
      ensures role.metadata.name == Some(name) && role.metadata.namespace == Some(namespace)
      ensures role.metadata.labels == None
      ensures role.rules == RoleRules && |role.rules| == 2
    {
      RoleManifest(RbacGroup + "/v1", "Role", ObjectMeta(Some(name), Some(namespace), None), RoleRules)
    }

    /** The binding grants the agent's role to the agent's service account, in its namespace. */
    function BuildRoleBinding(): (rb: RoleBindingManifest)
      ensures rb.metadata == BuildRole().metadata
      ensures rb.roleRef.apiGroup + "/v1" == BuildRole().apiVersion && rb.roleRef.kind == BuildRole().kind
      ensures Some(rb.roleRef.name) == BuildRole().metadata.name
      ensures |rb.subjects| == 1 && rb.subjects[0].kind == BuildServiceAccount().kind
      ensures Some(rb.subjects[0].name) == BuildServiceAccount().metadata.name
      ensures Some(rb.subjects[0].namespace) == BuildServiceAccount().metadata.namespace
    {
      RoleBindingManifest(
        RbacGroup + "/v1", "RoleBinding", ObjectMeta(Some(name), Some(namespace), None),
        RoleRef(RbacGroup, "Role", name),
        [Subject("ServiceAccount", name, namespace)])
    }

    /** `_build_deployment_spec` once the environment `env` has been built. */
    function DeploymentFor(env: seq<EnvVar>): (d: DeploymentManifest)
      ensures d.replicas == 1 && d.metadata.namespace == BuildServiceAccount().metadata.namespace
      ensures d.metadata.name == Some(name)
      ensures d.metadata.labels == Some(d.matchLabels) && d.templateMetadata.labels == Some(d.matchLabels)
      ensures d.matchLabels == map["app" := name]
      ensures Some(d.serviceAccountName) == BuildServiceAccount().metadata.name
      ensures |d.containers| == 1 && d.containers[0].name == name
      ensures d.containers[0].command == Command() && d.containers[0].env == env && d.containers[0].image == image
      ensures d.containers[0].limits == d.containers[0].requests == Quantities(cpu, memoryGb)
    {
      DeploymentManifest(
        "apps/v1", "Deployment", ObjectMeta(Some(name), Some(namespace), Some(Labels())), 1,
        Labels(), ObjectMeta(None, None, Some(Labels())),
        ServiceAccountName(),
        [Container(name, Command(), image, env, [], Limits(), Requests())])
    }

    /** `_build_deployment_spec`: builds the command and the environment, which may fail. */
    method BuildDeploymentSpec(profiles: map<string, Profile>, current: string, valueOf: string -> string)
      returns (r: Result<DeploymentManifest, ProfileError>)
      ensures ProfileEnv(profiles, current, valueOf).Err? ==> r == Err(ProfileEnv(profiles, current, valueOf).error)
      ensures ProfileEnv(profiles, current, valueOf).Ok? ==> r == Ok(DeploymentFor(ProfileEnv(profiles, current, valueOf).value))
    {
      var command := BuildCommand();
      var env := BuildEnvFromProfile(profiles, current, valueOf);
      if env.Err? {
        return Err(env.error);
      }
      r := Ok(DeploymentManifest(
        "apps/v1", "Deployment", ObjectMeta(Some(name), Some(namespace), Some(Labels())), 1,
        Labels(), ObjectMeta(None, None, Some(Labels())),
        ServiceAccountName(),
        [Container(name, command, image, env.value, [], Limits(), Requests())]));
    }

    function NamespaceRequest(): (u: CreateOrPatch)
      ensures PatchesCreated(u) && u.create.scope == None && u.patch.target == namespace
      ensures u.create.body == NamespaceBody(BuildNamespace())
      ensures Some(u.patch.target) == u.create.body.ns.metadata.name
    {
      var body := NamespaceBody(BuildNamespace());
      CreateOrPatch(Create(None, body), Patch(namespace, None, body))
    }

    function ServiceAccountRequest(): (u: CreateOrPatch)
      ensures PatchesCreated(u) && u.create.scope == Some(namespace) && u.patch.target == name
      ensures u.create.body == ServiceAccountBody(BuildServiceAccount())
      ensures Some(u.patch.target) == u.create.body.account.metadata.name
    {
      var body := ServiceAccountBody(BuildServiceAccount());
      CreateOrPatch(Create(Some(namespace), body), Patch(name, Some(namespace), body))
    }

    function RoleRequest(): (u: CreateOrPatch)
      ensures PatchesCreated(u) && u.create.scope == Some(namespace) && u.patch.target == name
      ensures u.create.body == RoleBody(BuildRole())
      ensures Some(u.patch.target) == u.create.body.role.metadata.name
    {
      var body := RoleBody(BuildRole());
      CreateOrPatch(Create(Some(namespace), body), Patch(name, Some(namespace), body))
    }

    function RoleBindingRequest(): (u: CreateOrPatch)
      ensures PatchesCreated(u) && u.create.scope == Some(namespace) && u.patch.target == name
      ensures u.create.body == RoleBindingBody(BuildRoleBinding())
      ensures Some(u.patch.target) == u.create.body.binding.metadata.name
    {
      var body := RoleBindingBody(BuildRoleBinding());
      CreateOrPatch(Create(Some(namespace), body), Patch(name, Some(namespace), body))
    }

    function DeploymentRequest(env: seq<EnvVar>): (u: CreateOrPatch)
      ensures PatchesCreated(u) && u.create.scope == Some(namespace) && u.patch.target == name
      ensures u.create.body == DeploymentBody(DeploymentFor(env))
      ensures Some(u.patch.target) == u.create.body.deployment.metadata.name
    {
      var body := DeploymentBody(DeploymentFor(env));
      CreateOrPatch(Create(Some(namespace), body), Patch(name, Some(namespace), body))
    }

    /** The four upserts that need no environment, in deploy order. */
    function FixedRequests(): seq<CreateOrPatch> {
      [NamespaceRequest(), ServiceAccountRequest(), RoleRequest(), RoleBindingRequest()]
    }

    /** The calls and outcome of `deploy`, given the result of building the environment. */
    function DeployRun(respond: Call -> ApiResult, env: Result<seq<EnvVar>, ProfileError>): Run {
      var first := RunUpserts(respond, FixedRequests());
      if first.outcome.Fail? then first
      else match env
        case Err(e) => Run(first.calls, Fail(ConfigFailure(e)))
        case Ok(v) =>
          var last := RunUpserts(respond, [DeploymentRequest(v)]);
          Run(first.calls + last.calls, last.outcome)
    }

    method UpdateNamespace(api: ClusterApi) returns (r: Outcome<DeployError>)
      modifies api`log
      ensures api.log == old(api.log) + UpsertCalls(api.respond, NamespaceRequest())
      ensures r == UpsertOutcome(api.respond, NamespaceRequest())
    {
      r := Upsert(api, NamespaceRequest());
    }

    method ApplyServiceAccount(api: ClusterApi) returns (r: Outcome<DeployError>)
      modifies api`log
      ensures api.log == old(api.log) + UpsertCalls(api.respond, ServiceAccountRequest())
      ensures r == UpsertOutcome(api.respond, ServiceAccountRequest())
    {
      r := Upsert(api, ServiceAccountRequest());
    }

    method ApplyRole(api: ClusterApi) returns (r: Outcome<DeployError>)
      modifies api`log
      ensures api.log == old(api.log) + UpsertCalls(api.respond, RoleRequest())
      ensures r == UpsertOutcome(api.respond, RoleRequest())
    {
      r := Upsert(api, RoleRequest());
    }

    method ApplyRoleBinding(api: ClusterApi) returns (r: Outcome<DeployError>)
      modifies api`log
      ensures api.log == old(api.log) + UpsertCalls(api.respond, RoleBindingRequest())
      ensures r == UpsertOutcome(api.respond, RoleBindingRequest())
    {
      r := Upsert(api, RoleBindingRequest());
    }

    /** `_apply_deployment`: a configuration error escapes before any call is made. */
    method ApplyDeployment(api: ClusterApi, profiles: map<string, Profile>, current: string, valueOf: string -> string)
      returns (r: Outcome<DeployError>)
      modifies api`log
      ensures var env := ProfileEnv(profiles, current, valueOf);
        match env
        case Err(e) => api.log == old(api.log) && r == Fail(ConfigFailure(e))
        case Ok(v) =>
          api.log == old(api.log) + UpsertCalls(api.respond, DeploymentRequest(v))
          && r == UpsertOutcome(api.respond, DeploymentRequest(v))
    {
      var spec := BuildDeploymentSpec(profiles, current, valueOf);
      if spec.Err? {
        return Fail(ConfigFailure(spec.error));
      }
      var body := DeploymentBody(spec.value);
      r := Upsert(api, CreateOrPatch(Create(Some(namespace), body), Patch(name, Some(namespace), body)));
    }

    /** `deploy`: the five upserts in their fixed order; the first error ends it. */
    method Deploy(api: ClusterApi, profiles: map<string, Profile>, current: string, valueOf: string -> string)
      returns (r: Outcome<DeployError>)
      modifies api`log
      ensures var run := DeployRun(api.respond, ProfileEnv(profiles, current, valueOf));
        api.log == old(api.log) + run.calls && r == run.outcome
    {
      ghost var respond := api.respond;
      ghost var us := FixedRequests();
      assert us[..0] == [];
      assert us[..4] == us;
      r := UpdateNamespace(api);
      assert us[..1][..0] == us[..0];
      assert api.log == old(api.log) + RunUpserts(respond, us[..1]).calls;
      if r.Fail? {
        RunUpsertsFailedPrefix(respond, us, 1);
        return;
      }
      r := ApplyServiceAccount(api);
      assert us[..2][..1] == us[..1];
      assert api.log == old(api.log) + RunUpserts(respond, us[..2]).calls;
      if r.Fail? {
        RunUpsertsFailedPrefix(respond, us, 2);
        return;
      }
      r := ApplyRole(api);
      assert us[..3][..2] == us[..2];
      assert api.log == old(api.log) + RunUpserts(respond, us[..3]).calls;
      if r.Fail? {
        RunUpsertsFailedPrefix(respond, us, 3);
        return;
      }
      r := ApplyRoleBinding(api);
      assert us[..4][..3] == us[..3];
      assert api.log == old(api.log) + RunUpserts(respond, us).calls;
      if r.Fail? {
        return;
      }
      r := ApplyDeployment(api, profiles, current, valueOf);
    }

    /** The five upserts of a deploy, in order, once the environment is `env`. */
    function DeployRequests(env: seq<EnvVar>): (us: seq<CreateOrPatch>)
      ensures |us| == 5 && us[..4] == FixedRequests() && us[4] == DeploymentRequest(env)
      ensures forall j :: 0 <= j < 5 ==> PatchesCreated(us[j])
    {
      FixedRequests() + [DeploymentRequest(env)]
    }

    /**
     * With a well-formed profile a deploy is exactly the run of its five upserts in the order
     * namespace, service account, role, role binding, deployment.
     */
    lemma DeployIsFiveUpserts(respond: Call -> ApiResult, env: seq<EnvVar>)
      ensures DeployRun(respond, Ok(env)) == RunUpserts(respond, DeployRequests(env))
    {
      var us := DeployRequests(env);
      var first := RunUpserts(respond, FixedRequests());
      assert us[..|us| - 1] == FixedRequests();
      assert [DeploymentRequest(env)][..0] == [];
      if first.outcome.Pass? {
        assert RunUpserts(respond, [DeploymentRequest(env)]) ==
          Run(UpsertCalls(respond, DeploymentRequest(env)), UpsertOutcome(respond, DeploymentRequest(env)));
      }
    }

    /**
     * On a fresh cluster, where every create returns, a deploy makes exactly the five creates in
     * order and no patch, and succeeds.
     */
    lemma DeployOnFreshCluster(respond: Call -> ApiResult, env: seq<EnvVar>)
      requires forall j :: 0 <= j < 5 ==> respond(DeployRequests(env)[j].create) == Returned
      ensures var run := DeployRun(respond, Ok(env));
        && run.outcome == Pass
        && |run.calls| == 5
        && forall j :: 0 <= j < 5 ==> run.calls[j] == DeployRequests(env)[j].create
    {
      var us := DeployRequests(env);
      DeployIsFiveUpserts(respond, env);
      assert forall j :: 0 <= j < |us| ==> UpsertOutcome(respond, us[j]) == Pass;
      RunUpsertsAllPass(respond, us);
      AllCallsBounds(respond, us);
    }

    /**
     * The first upsert to raise ends the deploy with its error: the calls are those of the
     * upserts up to and including it, and nothing after it is sent.
     */
    lemma DeployStopsAtFirstFailure(respond: Call -> ApiResult, env: seq<EnvVar>, k: nat)
      requires k < 5
      requires forall j :: 0 <= j < k ==> UpsertOutcome(respond, DeployRequests(env)[j]) == Pass
      requires UpsertOutcome(respond, DeployRequests(env)[k]).Fail?
      ensures DeployRun(respond, Ok(env)) ==
        Run(AllCalls(respond, DeployRequests(env)[..k + 1]), UpsertOutcome(respond, DeployRequests(env)[k]))
      ensures UpsertOutcome(respond, DeployRequests(env)[k]).error.ApiFailure?
    {
      DeployIsFiveUpserts(respond, env);
      RunUpsertsStopsAt(respond, DeployRequests(env), k);
    }

    /**
     * A missing or empty profile is only noticed when the deployment is built: the four other
     * upserts have already been sent when the configuration error ends the deploy.
     */
    lemma ProfileErrorAfterFourUpserts(respond: Call -> ApiResult, e: ProfileError)
      requires forall j :: 0 <= j < 4 ==> UpsertOutcome(respond, FixedRequests()[j]) == Pass
      ensures DeployRun(respond, Err(e)) == Run(AllCalls(respond, FixedRequests()), Fail(ConfigFailure(e)))
      ensures 4 <= |DeployRun(respond, Err(e)).calls| <= 8
      ensures forall c :: c in DeployRun(respond, Err(e)).calls ==> !c.body.DeploymentBody?
    {
      var us := FixedRequests();
      RunUpsertsAllPass(respond, us);
      AllCallsBounds(respond, us);
      AllCallsFrom(respond, us);
    }
  }
}
