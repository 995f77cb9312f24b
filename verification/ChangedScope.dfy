/** The change-scope classifier: which validations a set of changed paths selects. */
module ChangedScope {
  import opened Wrappers
  import opened Text
  import opened Paths

  datatype Flag =
    | DocsOnly | PythonLint | Client
    | GatewayTests | WorkflowTests | SharedTests | LogTests | SandboxTests | RootTests | MemoryTests
    | KnowledgePostgres | WorkflowPostgres | AgentBuilderPostgres | MemoryPostgres
    | DeploymentValidation | ActionsValidation | HelmValidation | SupportSurfaceValidation
    | ComposeValidation | EgressProxyValidation | DockerfileValidation | DockerfileConfigChanged
    | BroadPython

  predicate IsComponentTest(f: Flag) {
    || f == GatewayTests || f == WorkflowTests || f == SharedTests || f == LogTests
    || f == SandboxTests || f == RootTests || f == MemoryTests
  }

  /** One of the six validations that make up `DeploymentValidation`. */
  predicate IsDeploymentPart(f: Flag) {
    || f == ActionsValidation || f == HelmValidation || f == SupportSurfaceValidation
    || f == ComposeValidation || f == EgressProxyValidation || f == DockerfileValidation
  }

  predicate IsPostgres(f: Flag) {
    f == KnowledgePostgres || f == WorkflowPostgres || f == AgentBuilderPostgres || f == MemoryPostgres
  }

  function PythonSmoke(): set<Flag> { set f: Flag | IsComponentTest(f) || f == BroadPython }

  function DeploymentSmoke(): set<Flag> { set f: Flag | IsDeploymentPart(f) || f == DeploymentValidation }

  /** What an empty list of paths selects. */
  function BroadScope(): set<Flag> {
    set f: Flag | f == Client || IsComponentTest(f) || f == BroadPython || IsPostgres(f)
  }

  predicate AnyDeploymentPart(flags: set<Flag>) { exists f :: f in flags && IsDeploymentPart(f) }

  /** The pattern tables and the compose file name pattern, as predicates. */
  datatype Tables = Tables(
    knowledge: string -> bool,
    workflow: string -> bool,
    agentBuilder: string -> bool,
    memory: string -> bool,
    memoryShared: string -> bool,
    logShared: string -> bool,
    composeName: string -> bool)

  // ----- Kinds of paths -----

  predicate IsRootDocument(path: string) {
    path in {
      "AGENTS.md",
      "CONTRIBUTING.md",
      "README.md"
    }
  }

  predicate IsProtectedCiWorkflow(path: string) {
    && StartsWith(path, ".github/workflows/")
    && path[18..] in {
      "pr-ci-control-guard.yml",
      "pr-quality-gate.yml",
      "test-knowledge-runtime-postgres.yml",
      "test-schedule-dispatch-postgres.yml",
      "test-agent-builder-postgres.yml",
      "test-memory-postgres.yml"
    }
  }

  predicate IsEgressProxyFile(path: string) {
    path in {
      "docker/docker-compose.yml",
      "infra/helm/moduly/files/squid.conf",
      "infra/helm/moduly/templates/_helpers.tpl",
      "infra/helm/moduly/templates/configmap.yaml",
      "infra/helm/moduly/templates/egress-proxy-configmap.yaml",
      "infra/helm/moduly/templates/egress-proxy-deployment.yaml",
      "infra/helm/moduly/templates/egress-proxy-pdb.yaml",
      "infra/helm/moduly/templates/egress-proxy-service.yaml",
      "infra/helm/moduly/templates/gateway-deployment.yaml",
      "infra/helm/moduly/templates/knowledge-worker-deployment.yaml",
      "infra/helm/moduly/templates/proxy-only-networkpolicies.yaml",
      "infra/helm/moduly/templates/worker-deployment.yaml",
      "infra/helm/moduly/templates/worker-networkpolicy.yaml",
      "infra/helm/moduly/values-local.yaml",
      "infra/helm/moduly/values-production.yaml",
      "infra/helm/moduly/values.yaml",
      "tests/ci/fixtures/helm-values-ci.yaml",
      "tests/ci/test_egress_proxy_kubernetes.py",
      "tests/ci/test_egress_proxy_runtime.py"
    }
  }

  predicate IsDocumentation(path: string) {
    || StartsWith(path, "docs/")
    || StartsWith(path, "docs_old/")
    || IsRootDocument(path)
    || EndsWith(path, ".md")
  }

  predicate IsDeploymentOnly(path: string) {
    || StartsWith(path, "dev/")
    || StartsWith(path, "docker/")
    || StartsWith(path, "infra/")
    || StartsWith(path, ".github/workflows/deploy-")
    || StartsWith(path, ".github/workflows/publish-images.yml")
  }

  predicate IsCiControl(path: string) {
    || IsProtectedCiWorkflow(path)
    || StartsWith(path, ".github/actions/")
    || StartsWith(path, "scripts/ci/")
    || StartsWith(path, "tests/ci/")
  }

  predicate IsExcludedTest(path: string) {
    StartsWith(path, "tests/e2e/") || StartsWith(path, "tests/evaluation/") || StartsWith(path, "tests/load/")
  }

  predicate IsGitMetadata(path: string) { path == ".gitattributes" || path == ".gitignore" }

  predicate IsDockerfile(path: string) {
    var name := NameOf(path);
    name == "Dockerfile" || StartsWith(name, "Dockerfile.") || EndsWith(name, ".Dockerfile")
  }

  predicate IsEgressProxy(path: string) {
    || IsEgressProxyFile(path)
    || StartsWith(path, "docker/proxy/")
    || StartsWith(path, "tests/ci/fixtures/egress-proxy/")
  }

  predicate IsHelm(path: string) {
    StartsWith(path, "infra/helm/") || path == "tests/ci/fixtures/helm-values-ci.yaml"
  }

  predicate NamesLoggedConcern(path: string) {
    || Contains(path, "audit")
    || Contains(path, "tracing")
    || Contains(path, "security_alert")
    || Contains(path, "celery")
  }

  /** The position of the last dot, or -1. */
  function LastDot(name: string): (i: int)
    ensures -1 <= i < |name|
    ensures i >= 0 ==> name[i] == '.'
    ensures forall k :: i < k < |name| ==> name[k] != '.'
  {
    if name == "" then -1
    else if name[|name| - 1] == '.' then |name| - 1
    else LastDot(name[..|name| - 1])
  }

  function Suffix(name: string): string {
    var i := LastDot(name);
    if 0 < i < |name| - 1 then name[i..] else ""
  }

  function Stem(name: string): string {
    var i := LastDot(name);
    if 0 < i < |name| - 1 then name[..i] else name
  }

  function Lower(s: string): (r: string)
    ensures |r| == |s|
  {
    seq(|s|, i requires 0 <= i < |s| => if 'A' <= s[i] <= 'Z' then s[i] - 'A' + 'a' else s[i])
  }

  predicate IsWorkflow(path: string) {
    var p := Parse(path);
    && p.root == "" && |p.tail| == 3 && p.tail[..2] == [".github", "workflows"]
    && Lower(Suffix(NameOf(path))) in {".yml", ".yaml"}
  }

  predicate IsCompositeAction(path: string) {
    var p := Parse(path);
    && p.root == "" && |p.tail| >= 3 && p.tail[..2] == [".github", "actions"]
    && Lower(NameOf(path)) in {"action.yml", "action.yaml"}
  }

  predicate IsUnsupportedDeployment(path: string) {
    || (IsWorkflow(path)
        && (Stem(NameOf(path)) == "deploy-dev-namespace" || StartsWith(Stem(NameOf(path)), "deploy-eks-")))
    || StartsWith(path, "infra/k8s/")
    || StartsWith(path, "infra/terraform/")
  }

  // The public forms of the last three normalise their argument first.

  function IsGithubWorkflowPath(raw: string): Result<bool, PathError> {
    match NormalizeRepoPath(raw)
    case Failure(e) => Failure(e)
    case Success(path) => Success(IsWorkflow(path))
  }

  function IsGithubCompositeActionPath(raw: string): Result<bool, PathError> {
    match NormalizeRepoPath(raw)
    case Failure(e) => Failure(e)
    case Success(path) => Success(IsCompositeAction(path))
  }

  function IsUnsupportedDeploymentPath(raw: string): Result<bool, PathError> {
    match NormalizeRepoPath(raw)
    case Failure(e) => Failure(e)
    case Success(path) =>
      match IsGithubWorkflowPath(path)
      case Failure(e) => Failure(e)
      case Success(_) => Success(IsUnsupportedDeployment(path))
  }

  lemma PublicFormsOnNormalPaths(path: string)
    requires Normal(path)
    ensures HasDrive(path) ==>
      && IsGithubWorkflowPath(path) == Failure(MustBeRelative)
      && IsGithubCompositeActionPath(path) == Failure(MustBeRelative)
      && IsUnsupportedDeploymentPath(path) == Failure(MustBeRelative)
    ensures !HasDrive(path) ==>
      && IsGithubWorkflowPath(path) == Success(IsWorkflow(path))
      && IsGithubCompositeActionPath(path) == Success(IsCompositeAction(path))
      && IsUnsupportedDeploymentPath(path) == Success(IsUnsupportedDeployment(path))
  {
    NormalIsAccepted(path);
  }

  // ----- What one path selects -----

  predicate IsUnderGithub(path: string) {
    StartsWith(path, ".github/workflows/") || StartsWith(path, ".github/actions/")
  }

  /** What matters about a path for the deployment validations. */
  datatype Concerns = Concerns(
    executable: bool, underGithub: bool, helm: bool, unsupported: bool, compose: bool, egress: bool, dockerfile: bool)

  function ConcernsOf(t: Tables, path: string): Concerns {
    Concerns(
      IsWorkflow(path) || IsCompositeAction(path), IsUnderGithub(path), IsHelm(path), IsUnsupportedDeployment(path),
      t.composeName(NameOf(path)), IsEgressProxy(path), IsDockerfile(path))
  }

  predicate CallsWorkflowCheck(c: Concerns, f: Flag) {
    match f
    case ActionsValidation => c.executable || c.underGithub
    case SupportSurfaceValidation => c.executable || c.unsupported
    case _ => false
  }

  predicate CallsToolingCheck(c: Concerns, f: Flag) {
    match f
    case HelmValidation => c.helm
    case ComposeValidation => c.compose
    case EgressProxyValidation => c.egress
    case DockerfileValidation => c.dockerfile
    case DockerfileConfigChanged => c.dockerfile
    case _ => false
  }

  function WorkflowParts(c: Concerns): set<Flag> { set f: Flag | CallsWorkflowCheck(c, f) }

  function ToolingParts(c: Concerns): set<Flag> { set f: Flag | CallsToolingCheck(c, f) }

  /** The deployment validations, before `DeploymentValidation` is derived from them. */
  function DeploymentParts(c: Concerns): (r: set<Flag>)
    ensures forall f :: f in r ==> IsDeploymentPart(f) || f == DockerfileConfigChanged
    ensures DockerfileConfigChanged in r <==> c.dockerfile
    ensures DockerfileValidation in r <==> c.dockerfile
  {
    WorkflowParts(c) + ToolingParts(c)
  }

  /** `DeploymentValidation` as any of its parts. */
  function Derived(flags: set<Flag>): (r: set<Flag>)
    ensures forall f :: f != DeploymentValidation ==> (f in r <==> f in flags)
  {
    if AnyDeploymentPart(flags) then flags + {DeploymentValidation} else flags - {DeploymentValidation}
  }

  predicate SelectsPostgres(t: Tables, path: string, f: Flag) {
    match f
    case KnowledgePostgres => t.knowledge(path)
    case WorkflowPostgres => t.workflow(path)
    case AgentBuilderPostgres => t.agentBuilder(path)
    case MemoryPostgres => t.memory(path)
    case _ => false
  }

  function PostgresFlags(t: Tables, path: string): (r: set<Flag>)
    ensures DocsOnly !in r
  {
    set f: Flag | SelectsPostgres(t, path, f)
  }

  predicate IsSharedData(path: string) {
    StartsWith(path, "apps/shared/db/") || StartsWith(path, "apps/shared/schemas/")
  }

  predicate IsMigration(path: string) { StartsWith(path, "apps/shared/alembic/") }

  predicate SelectsShared(t: Tables, path: string, f: Flag) {
    match f
    case SharedTests => true
    case GatewayTests => true
    case WorkflowTests => true
    case MemoryTests => t.memoryShared(path)
    case RootTests => IsSharedData(path) || IsMigration(path)
    case LogTests => IsSharedData(path) || IsMigration(path) || t.logShared(path) || NamesLoggedConcern(path)
    case KnowledgePostgres => IsMigration(path)
    case WorkflowPostgres => IsMigration(path)
    case MemoryPostgres => IsMigration(path)
    case _ => false
  }

  function SharedFlags(t: Tables, path: string): (r: set<Flag>)
    ensures DocsOnly !in r
  {
    set f: Flag | SelectsShared(t, path, f)
  }

  /** The flags of a path outside documentation, deployment and CI control. */
  function RouteFlags(t: Tables, path: string): (r: set<Flag>)
    ensures DocsOnly !in r
  {
    if StartsWith(path, "apps/client/") then {Client}
    else if StartsWith(path, "apps/memory/") then {MemoryTests}
    else if StartsWith(path, "apps/gateway/") then {GatewayTests}
    else if StartsWith(path, "apps/workflow_engine/") then {WorkflowTests}
    else if StartsWith(path, "apps/log_system/") then {LogTests}
    else if StartsWith(path, "apps/sandbox/") then {SandboxTests}
    else if StartsWith(path, "apps/shared/") then SharedFlags(t, path)
    else OtherRouteFlags(path)
  }

  /** The flags outside the components. */
  function OtherRouteFlags(path: string): (r: set<Flag>)
    ensures DocsOnly !in r
  {
    if StartsWith(path, "tests/") then if IsExcludedTest(path) then {} else {RootTests}
    else if StartsWith(path, "scripts/") && EndsWith(path, ".py") then {RootTests}
    else if StartsWith(path, ".github/workflows/") then {Client} + PythonSmoke()
    else if IsGitMetadata(path) then {}
    else {Client} + PythonSmoke()
  }

  /** What a change to the CI control selects. */
  function CiControlScope(): (r: set<Flag>)
    ensures DocsOnly !in r
  {
    DeploymentSmoke() + BroadScope()
  }

  function LintFlag(path: string): set<Flag> { if EndsWith(path, ".py") then {PythonLint} else {} }

  function ComponentFlags(t: Tables, path: string): (r: set<Flag>)
    ensures DocsOnly !in r
  {
    var lint := LintFlag(path);
    if IsDocumentation(path) then {}
    else if IsDeploymentOnly(path) then lint
    else if IsCiControl(path) then lint + CiControlScope()
    else lint + RouteFlags(t, path)
  }

  function PathFlags(t: Tables, path: string): set<Flag> {
    Derived(DeploymentParts(ConcernsOf(t, path))) + PostgresFlags(t, path) + ComponentFlags(t, path)
  }

  function Selector(t: Tables): string -> set<Flag> { path => PathFlags(t, path) }

  /** The flags that some path selects. */
  function UnionOf(select: string -> set<Flag>, paths: seq<string>): set<Flag> {
    set p, f | p in paths && f in select(p) :: f
  }

  predicate AllDocumentation(paths: seq<string>) {
    forall p :: p in paths ==> IsDocumentation(p)
  }

  function DocsFlag(docsOnly: bool): set<Flag> { if docsOnly then {DocsOnly} else {} }

  function ScopeOf(t: Tables, paths: seq<string>): Result<set<Flag>, PathError> {
    if paths == [] then Success(BroadScope())
    else if AnyDrive(paths) then Failure(MustBeRelative)
    else Success(DocsFlag(AllDocumentation(paths)) + UnionOf(Selector(t), paths))
  }

  function Classification(t: Tables, raw: seq<string>): Result<set<Flag>, PathError> {
    match NormalizeEach(raw)
    case Failure(e) => Failure(e)
    case Success(paths) => ScopeOf(t, Dedup(paths))
  }

  // ----- The classifier -----

  /** `DeploymentValidation` stands exactly for its parts. */
  predicate Consistent(flags: set<Flag>) { DeploymentValidation in flags <==> AnyDeploymentPart(flags) }

  class ChangeScope {
    /** The flags that are true. */
    var flags: set<Flag>

    constructor (docsOnly: bool)
      ensures flags == DocsFlag(docsOnly)
    {
      flags := DocsFlag(docsOnly);
    }

    method EnablePythonSmoke()
      modifies this
      ensures flags == old(flags) + PythonSmoke()
    {
      flags := flags + {
        GatewayTests, WorkflowTests, SharedTests, LogTests, SandboxTests, RootTests, MemoryTests,
        BroadPython
      };
    }

    method EnableDeploymentSmoke()
      modifies this
      ensures flags == old(flags) + DeploymentSmoke()
    {
      flags := flags + {
        DeploymentValidation, ActionsValidation, HelmValidation, SupportSurfaceValidation,
        ComposeValidation, EgressProxyValidation, DockerfileValidation
      };
    }

    method EnableBroadScope()
      modifies this
      ensures flags == old(flags) + BroadScope()
    {
      flags := flags + {Client};
      EnablePythonSmoke();
      flags := flags + {KnowledgePostgres, WorkflowPostgres, AgentBuilderPostgres, MemoryPostgres};
    }

    /** Fails, changing nothing, when the path does not survive being normalised again. */
    method SelectDeploymentValidation(t: Tables, path: string) returns (error: Option<PathError>)
      requires Normal(path)
      modifies this
      ensures HasDrive(path) ==> error == Some(MustBeRelative) && flags == old(flags)
      ensures !HasDrive(path) ==>
        error == None && flags == Derived(old(flags) + DeploymentParts(ConcernsOf(t, path)))
    {
      hide StartsWith, EndsWith, Contains;
      PublicFormsOnNormalPaths(path);
      var isWorkflow := IsGithubWorkflowPath(path);
      if isWorkflow.Failure? {
        return Some(isWorkflow.error);
      }
      var isAction := IsGithubCompositeActionPath(path);
      var isUnsupported := IsUnsupportedDeploymentPath(path);
      var concerns := Concerns(
        isWorkflow.value || (isAction.Success? && isAction.value), IsUnderGithub(path), IsHelm(path),
        isUnsupported.Success? && isUnsupported.value, t.composeName(NameOf(path)), IsEgressProxy(path),
        IsDockerfile(path));
      SelectConcerns(concerns);
      error := None;
    }

    method SelectConcerns(c: Concerns)
      modifies this
      ensures flags == Derived(old(flags) + DeploymentParts(c))
    {
      SelectWorkflowParts(c);
      SelectToolingParts(c);
      Associate(old(flags), WorkflowParts(c), ToolingParts(c));
      flags := Derived(flags);
    }

    method SelectWorkflowParts(c: Concerns)
      modifies this
      ensures flags == old(flags) + WorkflowParts(c)
    {
      if c.executable {
        flags := flags + {ActionsValidation, SupportSurfaceValidation};
      } else if c.underGithub {
        flags := flags + {ActionsValidation};
      }
      if c.unsupported {
        flags := flags + {SupportSurfaceValidation};
      }
    }

    method SelectToolingParts(c: Concerns)
      modifies this
      ensures flags == old(flags) + ToolingParts(c)
    {
      if c.helm {
        flags := flags + {HelmValidation};
      }
      if c.compose {
        flags := flags + {ComposeValidation};
      }
      if c.egress {
        flags := flags + {EgressProxyValidation};
      }
      if c.dockerfile {
        flags := flags + {DockerfileValidation, DockerfileConfigChanged};
      }
    }

    method SelectPostgres(t: Tables, path: string)
      modifies this
      ensures flags == old(flags) + PostgresFlags(t, path)
    {
      if t.knowledge(path) {
        flags := flags + {KnowledgePostgres};
      }
      if t.workflow(path) {
        flags := flags + {WorkflowPostgres};
      }
      if t.agentBuilder(path) {
        flags := flags + {AgentBuilderPostgres};
      }
      if t.memory(path) {
        flags := flags + {MemoryPostgres};
      }
    }

    method SelectShared(t: Tables, path: string)
      modifies this
      ensures flags == old(flags) + SharedFlags(t, path)
    {
      hide IsSharedData, IsMigration, NamesLoggedConcern;
      flags := flags + {SharedTests, GatewayTests, WorkflowTests};
      if t.memoryShared(path) {
        flags := flags + {MemoryTests};
      }
      if IsSharedData(path) {
        flags := flags + {RootTests, LogTests};
      }
      if IsMigration(path) {
        flags := flags + {RootTests, LogTests, KnowledgePostgres, WorkflowPostgres, MemoryPostgres};
      }
      if t.logShared(path) || NamesLoggedConcern(path) {
        flags := flags + {LogTests};
      }
    }

    method SelectRoute(t: Tables, path: string)
      modifies this
      ensures flags == old(flags) + RouteFlags(t, path)
    {
      hide StartsWith, EndsWith, Contains;
      if StartsWith(path, "apps/client/") {
        flags := flags + {Client};
      } else if StartsWith(path, "apps/memory/") {
        flags := flags + {MemoryTests};
      } else if StartsWith(path, "apps/gateway/") {
        flags := flags + {GatewayTests};
      } else if StartsWith(path, "apps/workflow_engine/") {
        flags := flags + {WorkflowTests};
      } else if StartsWith(path, "apps/log_system/") {
        flags := flags + {LogTests};
      } else if StartsWith(path, "apps/sandbox/") {
        flags := flags + {SandboxTests};
      } else if StartsWith(path, "apps/shared/") {
        SelectShared(t, path);
      } else {
        SelectOtherRoute(path);
      }
    }

    method SelectOtherRoute(path: string)
      modifies this
      ensures flags == old(flags) + OtherRouteFlags(path)
    {
      hide StartsWith, EndsWith, Contains;
      if StartsWith(path, "tests/") {
        if !IsExcludedTest(path) {
          flags := flags + {RootTests};
        }
      } else if StartsWith(path, "scripts/") && EndsWith(path, ".py") {
        flags := flags + {RootTests};
      } else if StartsWith(path, ".github/workflows/") {
        flags := flags + {Client};
        EnablePythonSmoke();
      } else if !IsGitMetadata(path) {
        flags := flags + {Client};
        EnablePythonSmoke();
      }
    }

    method SelectComponents(t: Tables, path: string)
      modifies this
      ensures flags == old(flags) + ComponentFlags(t, path)
    {
      hide StartsWith, EndsWith, Contains;
      if IsDocumentation(path) {
        return;
      }
      ghost var lint := LintFlag(path);
      if EndsWith(path, ".py") {
        flags := flags + {PythonLint};
      }
      assert flags == old(flags) + lint;
      if IsDeploymentOnly(path) {
        return;
      }
      if IsCiControl(path) {
        EnableCiControlScope();
        Associate(old(flags), lint, CiControlScope());
        return;
      }
      SelectRoute(t, path);
      Associate(old(flags), lint, RouteFlags(t, path));
    }

    method EnableCiControlScope()
      modifies this
      ensures flags == old(flags) + CiControlScope()
    {
      EnableDeploymentSmoke();
      EnableBroadScope();
      Associate(old(flags), DeploymentSmoke(), BroadScope());
    }

    /** One turn of the loop over the changed paths. */
    method SelectPath(t: Tables, path: string) returns (error: Option<PathError>)
      requires Normal(path)
      modifies this
      ensures HasDrive(path) ==> error == Some(MustBeRelative)
      ensures !HasDrive(path) ==> error == None
      ensures !HasDrive(path) && Consistent(old(flags)) ==> flags == old(flags) + PathFlags(t, path)
    {
      hide ConcernsOf, DeploymentParts, PostgresFlags, ComponentFlags, Normal, HasDrive;
      error := SelectDeploymentValidation(t, path);
      if error.Some? {
        return;
      }
      SelectPostgres(t, path);
      SelectComponents(t, path);
      if Consistent(old(flags)) {
        PathEffect(old(flags), DeploymentParts(ConcernsOf(t, path)), PostgresFlags(t, path), ComponentFlags(t, path));
      }
    }
  }

  lemma PathEffect(flags: set<Flag>, parts: set<Flag>, postgres: set<Flag>, components: set<Flag>)
    requires Consistent(flags) && DeploymentValidation !in parts
    ensures Derived(flags + parts) + postgres + components == flags + (Derived(parts) + postgres + components)
  {
    DerivedOfUnion(flags, parts);
    Associate(flags, Derived(parts), postgres);
    Associate(flags, Derived(parts) + postgres, components);
  }

  lemma DerivedOfUnion(flags: set<Flag>, more: set<Flag>)
    requires Consistent(flags) && DeploymentValidation !in more
    ensures Derived(flags + more) == flags + Derived(more)
  {
    assert AnyDeploymentPart(flags + more) <==> AnyDeploymentPart(flags) || AnyDeploymentPart(more);
  }

  lemma NormalizedAreNormal(raw: seq<string>)
    requires NormalizeEach(raw).Success?
    ensures forall p :: p in Dedup(NormalizeEach(raw).value) ==> Normal(p)
  {
    NormalizeEachIsPointwise(raw);
    var all := NormalizeEach(raw).value;
    forall p | p in Dedup(all) ensures Normal(p) {
      var i :| 0 <= i < |all| && all[i] == p;
      NormalisedIsNormal(raw[i]);
    }
  }

  lemma ConsistentUnion(a: set<Flag>, b: set<Flag>)
    requires Consistent(a) && Consistent(b)
    ensures Consistent(a + b)
  {
  }

  predicate NoDeployment(flags: set<Flag>) {
    forall f :: f in flags ==> !IsDeploymentPart(f) && f != DeploymentValidation
  }

  lemma RouteSelectsNoDeployment(t: Tables, path: string)
    ensures NoDeployment(RouteFlags(t, path))
  {
    hide StartsWith, EndsWith, Contains, IsGitMetadata, IsExcludedTest;
    assert NoDeployment(SharedFlags(t, path));
    assert NoDeployment({Client} + PythonSmoke());
  }

  lemma NoDeploymentIsConsistent(flags: set<Flag>)
    requires NoDeployment(flags)
    ensures Consistent(flags)
  {
  }

  lemma FixedScopesAreConsistent(path: string)
    ensures NoDeployment(LintFlag(path)) && NoDeployment({}) && Consistent(CiControlScope())
  {
    hide EndsWith;
    assert ActionsValidation in DeploymentSmoke();
    assert NoDeployment(BroadScope());
    ConsistentUnion(DeploymentSmoke(), BroadScope());
  }

  lemma ComponentFlagsAreConsistent(t: Tables, path: string)
    ensures Consistent(ComponentFlags(t, path))
  {
    hide IsDocumentation, IsDeploymentOnly, IsCiControl, RouteFlags, LintFlag, CiControlScope, Consistent, NoDeployment;
    RouteSelectsNoDeployment(t, path);
    FixedScopesAreConsistent(path);
    NoDeploymentIsConsistent({});
    NoDeploymentIsConsistent(LintFlag(path));
    NoDeploymentIsConsistent(RouteFlags(t, path));
    ConsistentUnion(LintFlag(path), CiControlScope());
    ConsistentUnion(LintFlag(path), RouteFlags(t, path));
  }

  lemma DerivedIsConsistent(flags: set<Flag>)
    ensures Consistent(Derived(flags))
  {
  }

  lemma PostgresFlagsAreConsistent(t: Tables, path: string)
    ensures Consistent(PostgresFlags(t, path))
  {
    assert NoDeployment(PostgresFlags(t, path));
  }

  lemma PathFlagsAreConsistent(t: Tables, path: string)
    ensures Consistent(PathFlags(t, path))
  {
    ComponentFlagsAreConsistent(t, path);
    var parts := Derived(DeploymentParts(ConcernsOf(t, path)));
    DerivedIsConsistent(DeploymentParts(ConcernsOf(t, path)));
    PostgresFlagsAreConsistent(t, path);
    ConsistentUnion(parts, PostgresFlags(t, path));
    ConsistentUnion(parts + PostgresFlags(t, path), ComponentFlags(t, path));
  }

  lemma UnionIsConsistent(select: string -> set<Flag>, docs: bool, paths: seq<string>)
    requires forall p :: p in paths ==> Consistent(select(p))
    ensures Consistent(DocsFlag(docs) + UnionOf(select, paths))
  {
    var all := DocsFlag(docs) + UnionOf(select, paths);
    if DeploymentValidation in all {
      var p :| p in paths && DeploymentValidation in select(p);
      var part :| part in select(p) && IsDeploymentPart(part);
      assert part in all;
    }
    forall part | part in all && IsDeploymentPart(part) ensures DeploymentValidation in all {
      var p :| p in paths && part in select(p);
      assert DeploymentValidation in select(p);
    }
  }

  lemma SelectionsAreConsistent(t: Tables)
    ensures forall p :: Consistent(Selector(t)(p))
  {
    forall p ensures Consistent(Selector(t)(p)) {
      PathFlagsAreConsistent(t, p);
    }
  }

  predicate AnyDrive(paths: seq<string>) { exists p :: p in paths && HasDrive(p) }

  /** The loop over the normalised paths. */
  method SelectPaths(t: Tables, paths: seq<string>, docsOnly: bool) returns (r: Result<set<Flag>, PathError>)
    requires forall p :: p in paths ==> Normal(p)
    ensures r ==
      if AnyDrive(paths) then Failure(MustBeRelative)
      else Success(DocsFlag(docsOnly) + UnionOf(Selector(t), paths))
  {
    hide PathFlags, UnionOf, Consistent, Normal, HasDrive, DocsFlag;
    var scope := new ChangeScope(docsOnly);
    UnionOfNone(Selector(t), paths[..0]);
    assert DocsFlag(docsOnly) + {} == DocsFlag(docsOnly);
    for i := 0 to |paths|
      invariant !AnyDrive(paths[..i])
      invariant scope.flags == DocsFlag(docsOnly) + UnionOf(Selector(t), paths[..i])
    {
      assert paths[i] in paths && paths[..i] + [paths[i]] == paths[..i + 1];
      SelectedAreConsistent(t, docsOnly, paths[..i]);
      var error := scope.SelectPath(t, paths[i]);
      if error.Some? {
        return Failure(error.value);
      }
      OneMoreSelected(Selector(t), docsOnly, paths[..i], paths[i]);
    }
    assert paths[..|paths|] == paths;
    r := Success(scope.flags);
  }

  lemma OneMoreSelected(select: string -> set<Flag>, docsOnly: bool, paths: seq<string>, path: string)
    ensures DocsFlag(docsOnly) + UnionOf(select, paths) + select(path)
         == DocsFlag(docsOnly) + UnionOf(select, paths + [path])
  {
    UnionOfOneMore(select, paths, path);
    Associate(DocsFlag(docsOnly), UnionOf(select, paths), select(path));
  }

  lemma Associate(a: set<Flag>, b: set<Flag>, c: set<Flag>)
    ensures a + b + c == a + (b + c)
  {
  }

  lemma SelectedAreConsistent(t: Tables, docsOnly: bool, paths: seq<string>)
    ensures Consistent(DocsFlag(docsOnly) + UnionOf(Selector(t), paths))
  {
    SelectionsAreConsistent(t);
    UnionIsConsistent(Selector(t), docsOnly, paths);
  }

  method ClassifyPaths(t: Tables, raw: seq<string>) returns (r: Result<set<Flag>, PathError>)
    ensures r == Classification(t, raw)
  {
    var normalized := NormalizeAll(raw);
    if normalized.Failure? {
      return Failure(normalized.error);
    }
    var paths := Dedup(normalized.value);
    NormalizedAreNormal(raw);
    if paths == [] {
      var scope := new ChangeScope(false);
      scope.EnableBroadScope();
      assert {} + BroadScope() == BroadScope();
      return Success(scope.flags);
    }
    r := SelectPaths(t, paths, AllDocumentation(paths));
  }

  lemma UnionOfNone(select: string -> set<Flag>, paths: seq<string>)
    requires paths == []
    ensures UnionOf(select, paths) == {}
  {
  }

  lemma UnionOfOneMore(select: string -> set<Flag>, paths: seq<string>, path: string)
    ensures UnionOf(select, paths + [path]) == UnionOf(select, paths) + select(path)
  {
  }

  // ----- Whole lists and single paths -----

  /** The normalised path, when classification accepts the raw one. */
  function Accepted(raw: string): Option<string> {
    match NormalizeRepoPath(raw)
    case Failure(_) => None
    case Success(path) => if HasDrive(path) then None else Some(path)
  }

  /** `paths` are the accepted forms of the raw paths. */
  ghost predicate AreForms(raw: seq<string>, paths: seq<string>) {
    && (forall p :: p in raw ==> Accepted(p).Some? && Accepted(p).value in paths)
    && (forall q :: q in paths ==> exists p :: p in raw && Accepted(p) == Some(q))
  }

  lemma NormalizedForms(raw: seq<string>)
    requires raw != []
    ensures (forall p :: p in raw ==> Accepted(p).Some?) <==>
      NormalizeEach(raw).Success? && !AnyDrive(Dedup(NormalizeEach(raw).value))
    ensures NormalizeEach(raw).Success? ==> Dedup(NormalizeEach(raw).value) != []
    ensures (forall p :: p in raw ==> Accepted(p).Some?) ==> AreForms(raw, Dedup(NormalizeEach(raw).value))
  {
    hide NormalizeRepoPath, NormalizeEach, HasDrive;
    NormalizeEachIsPointwise(raw);
    if NormalizeEach(raw).Success? {
      var all := NormalizeEach(raw).value;
      assert all[0] in Dedup(all);
      forall p | p in raw ensures NormalizeRepoPath(p).Success? && NormalizeRepoPath(p).value in all {
        var i :| 0 <= i < |raw| && raw[i] == p;
        assert all[i] in all;
      }
      forall q | q in all ensures exists p :: p in raw && NormalizeRepoPath(p) == Success(q) {
        var i :| 0 <= i < |all| && all[i] == q;
        assert raw[i] in raw;
      }
    }
  }

  lemma ScopeByFlag(select: string -> set<Flag>, docs: bool, raw: seq<string>, paths: seq<string>, f: Flag)
    requires AreForms(raw, paths) && f != DocsOnly
    ensures f in DocsFlag(docs) + UnionOf(select, paths) <==> exists p :: p in raw && f in select(Accepted(p).value)
  {
  }

  lemma DocsOnlyIsNotSelected(t: Tables, path: string)
    ensures DocsOnly !in Selector(t)(path)
  {
    hide ComponentFlags, ConcernsOf, DeploymentParts;
  }

  lemma DocsOnlyByPath(t: Tables, raw: seq<string>, paths: seq<string>)
    requires AreForms(raw, paths)
    ensures DocsOnly in DocsFlag(AllDocumentation(paths)) + UnionOf(Selector(t), paths) <==>
      forall p :: p in raw ==> IsDocumentation(Accepted(p).value)
  {
    forall q ensures DocsOnly !in Selector(t)(q) {
      DocsOnlyIsNotSelected(t, q);
    }
  }

  /** What a classification of a nonempty list holds, flag by flag. */
  lemma ClassificationByFlag(t: Tables, raw: seq<string>)
    requires raw != []
    ensures Classification(t, raw).Success? <==> forall p :: p in raw ==> Accepted(p).Some?
    ensures Classification(t, raw).Success? ==>
      var flags := Classification(t, raw).value;
      && (DocsOnly in flags <==> forall p :: p in raw ==> IsDocumentation(Accepted(p).value))
      && forall f :: f != DocsOnly ==>
           (f in flags <==> exists p :: p in raw && f in Selector(t)(Accepted(p).value))
  {
    NormalizedForms(raw);
    if Classification(t, raw).Success? {
      var paths := Dedup(NormalizeEach(raw).value);
      DocsOnlyByPath(t, raw, paths);
      forall f | f != DocsOnly
        ensures f in Classification(t, raw).value <==> exists p :: p in raw && f in Selector(t)(Accepted(p).value)
      {
        ScopeByFlag(Selector(t), AllDocumentation(paths), raw, paths, f);
      }
    }
  }

  // ----- What the classification promises -----

  /** A path alone selects the flag. */
  ghost predicate Selects(t: Tables, raw: string, f: Flag) {
    && Accepted(raw).Some?
    && if f == DocsOnly then IsDocumentation(Accepted(raw).value) else f in Selector(t)(Accepted(raw).value)
  }

  lemma SingleByFlag(t: Tables, raw: string)
    ensures Classification(t, [raw]).Success? <==> Accepted(raw).Some?
    ensures Accepted(raw).Some? ==> forall f :: f in Classification(t, [raw]).value <==> Selects(t, raw, f)
  {
    hide PathFlags, IsDocumentation, Accepted;
    ClassificationByFlag(t, [raw]);
    assert raw in [raw];
    if Accepted(raw).Some? {
      forall f ensures f in Classification(t, [raw]).value <==> Selects(t, raw, f) {
      }
    }
  }

  lemma ListByFlag(t: Tables, raw: seq<string>)
    requires raw != []
    ensures Classification(t, raw).Success? <==> forall p :: p in raw ==> Accepted(p).Some?
    ensures Classification(t, raw).Success? ==>
      && (forall f :: f != DocsOnly ==>
           (f in Classification(t, raw).value <==> exists p :: p in raw && Selects(t, p, f)))
      && (DocsOnly in Classification(t, raw).value <==> forall p :: p in raw ==> Selects(t, p, DocsOnly))
  {
    ClassificationByFlag(t, raw);
  }

  /**
   * A nonempty list is rejected exactly when one of its paths is.  Otherwise every flag but
   * `DocsOnly` is selected exactly when some path alone selects it, and `DocsOnly` when every
   * path alone does.
   */
  lemma ListIsTheOrOfItsPaths(t: Tables, raw: seq<string>)
    requires raw != []
    ensures Classification(t, raw).Success? <==> forall p :: p in raw ==> Classification(t, [p]).Success?
    ensures Classification(t, raw).Success? ==>
      && (forall f :: f != DocsOnly ==>
           (f in Classification(t, raw).value <==> exists p :: p in raw && f in Classification(t, [p]).value))
      && (DocsOnly in Classification(t, raw).value <==>
           forall p :: p in raw ==> DocsOnly in Classification(t, [p]).value)
  {
    ListByFlag(t, raw);
    forall p | p in raw
      ensures Classification(t, [p]).Success? <==> Accepted(p).Some?
      ensures Accepted(p).Some? ==> forall f :: f in Classification(t, [p]).value <==> Selects(t, p, f)
    {
      SingleByFlag(t, p);
    }
  }

  /** Adding paths to a nonempty list never takes a flag away, except `DocsOnly`. */
  lemma SelectionNeverShrinks(t: Tables, raw: seq<string>, more: seq<string>)
    requires raw != [] && (forall p :: p in raw ==> p in more) && Classification(t, more).Success?
    ensures Classification(t, raw).Success?
    ensures Classification(t, raw).value - {DocsOnly} <= Classification(t, more).value
    ensures DocsOnly in Classification(t, more).value ==> DocsOnly in Classification(t, raw).value
  {
    hide Classification, Selects;
    assert raw[0] in more;
    ListByFlag(t, raw);
    ListByFlag(t, more);
  }

  /** Order and repetition of the paths do not matter. */
  lemma OrderAndRepetitionDoNotMatter(t: Tables, raw: seq<string>, other: seq<string>)
    requires forall p :: p in raw <==> p in other
    requires Classification(t, raw).Success?
    ensures Classification(t, other) == Classification(t, raw)
  {
    NoMembers(raw);
    NoMembers(other);
    hide Classification, Selects;
    if raw != [] {
      ListByFlag(t, other);
      ListByFlag(t, raw);
      SelectionNeverShrinks(t, raw, other);
      SelectionNeverShrinks(t, other, raw);
      SameFlags(Classification(t, other).value, Classification(t, raw).value);
    }
  }

  lemma NoMembers(raw: seq<string>)
    ensures raw == [] <==> forall p :: p !in raw
  {
    assert raw != [] ==> raw[0] in raw;
  }

  lemma SameFlags(a: set<Flag>, b: set<Flag>)
    requires a - {DocsOnly} <= b && b - {DocsOnly} <= a && (DocsOnly in a <==> DocsOnly in b)
    ensures a == b
  {
    assert forall f :: f in a && f != DocsOnly ==> f in a - {DocsOnly};
    assert forall f :: f in b && f != DocsOnly ==> f in b - {DocsOnly};
  }

  lemma DocumentationRunsNothing(t: Tables, path: string)
    requires IsDocumentation(path)
    ensures Client !in Selector(t)(path)
  {
    hide ConcernsOf, DeploymentParts, IsDocumentation;
    assert Client !in PostgresFlags(t, path);
    assert Client !in Derived(DeploymentParts(ConcernsOf(t, path)));
    assert ComponentFlags(t, path) == {};
  }

  /** The empty list selects the broad scope, which a documentation change does not: monotonicity needs a first path. */
  lemma EmptyListSelectsMore(t: Tables, raw: string)
    requires Accepted(raw).Some? && IsDocumentation(Accepted(raw).value)
    ensures Classification(t, []).Success? && Client in Classification(t, []).value
    ensures Classification(t, [raw]).Success? && Client !in Classification(t, [raw]).value
  {
    hide PathFlags, IsDocumentation, NormalizeRepoPath;
    SingleByFlag(t, raw);
    DocumentationRunsNothing(t, Accepted(raw).value);
    assert !Selects(t, raw, Client);
  }

  predicate SmokeIsComplete(flags: set<Flag>) {
    BroadPython in flags ==> forall f :: IsComponentTest(f) ==> f in flags
  }

  lemma RouteSmokeIsComplete(t: Tables, path: string)
    ensures SmokeIsComplete(RouteFlags(t, path))
    ensures DockerfileConfigChanged !in RouteFlags(t, path)
  {
    hide StartsWith, EndsWith, Contains, IsGitMetadata, IsExcludedTest;
  }

  lemma ComponentSmokeIsComplete(t: Tables, path: string)
    ensures SmokeIsComplete(ComponentFlags(t, path))
    ensures DockerfileConfigChanged !in ComponentFlags(t, path)
  {
    hide RouteFlags, IsDocumentation, IsDeploymentOnly, IsCiControl, EndsWith;
    RouteSmokeIsComplete(t, path);
    assert SmokeIsComplete(CiControlScope()) && DockerfileConfigChanged !in CiControlScope();
  }

  lemma PathSmokeIsComplete(t: Tables, path: string)
    ensures SmokeIsComplete(Selector(t)(path))
    ensures DockerfileConfigChanged in Selector(t)(path) <==> IsDockerfile(path)
  {
    hide ComponentFlags, DeploymentParts, IsDockerfile, IsWorkflow, IsCompositeAction, IsHelm;
    hide IsUnderGithub, IsUnsupportedDeployment, IsEgressProxy, NameOf;
    ComponentSmokeIsComplete(t, path);
    assert BroadPython !in PostgresFlags(t, path) && DockerfileConfigChanged !in PostgresFlags(t, path);
    assert BroadPython !in Derived(DeploymentParts(ConcernsOf(t, path)));
  }

  ghost predicate TouchesDockerfile(raw: string) { Accepted(raw).Some? && IsDockerfile(Accepted(raw).value) }

  lemma ListSmokeIsComplete(t: Tables, raw: seq<string>)
    requires Classification(t, raw).Success?
    ensures SmokeIsComplete(Classification(t, raw).value)
  {
    if raw != [] {
      hide Classification, PathFlags, Accepted;
      ListByFlag(t, raw);
      forall p ensures SmokeIsComplete(Selector(t)(p)) {
        PathSmokeIsComplete(t, p);
      }
    }
  }

  lemma ListDeploymentIsDerived(t: Tables, raw: seq<string>)
    requires Classification(t, raw).Success?
    ensures Consistent(Classification(t, raw).value)
  {
    hide PathFlags, IsDocumentation, NormalizeRepoPath;
    if raw == [] {
      assert NoDeployment(BroadScope());
    } else {
      NormalizedForms(raw);
      var paths := Dedup(NormalizeEach(raw).value);
      SelectedAreConsistent(t, AllDocumentation(paths), paths);
    }
  }

  lemma SelectsDockerfiles(t: Tables, raw: string)
    ensures Selects(t, raw, DockerfileConfigChanged) <==> TouchesDockerfile(raw)
  {
    hide PathFlags, IsDockerfile, IsDocumentation, NormalizeRepoPath;
    if Accepted(raw).Some? {
      PathSmokeIsComplete(t, Accepted(raw).value);
    }
  }

  lemma ListDockerfiles(t: Tables, raw: seq<string>)
    requires Classification(t, raw).Success?
    ensures DockerfileConfigChanged in Classification(t, raw).value <==> exists p :: p in raw && TouchesDockerfile(p)
  {
    if raw == [] {
      assert DockerfileConfigChanged !in BroadScope();
    } else {
      hide Classification, Selects, TouchesDockerfile;
      ListByFlag(t, raw);
      forall p ensures Selects(t, p, DockerfileConfigChanged) <==> TouchesDockerfile(p) {
        SelectsDockerfiles(t, p);
      }
    }
  }

  /**
   * Broad Python coverage means the tests of all seven components; `DeploymentValidation` is
   * the OR of its six parts; the Dockerfile configuration counts as changed exactly when a
   * Dockerfile did.
   */
  lemma ScopesAreCoherent(t: Tables, raw: seq<string>)
    requires Classification(t, raw).Success?
    ensures var flags := Classification(t, raw).value;
      && (BroadPython in flags ==> forall f :: IsComponentTest(f) ==> f in flags)
      && (DeploymentValidation in flags <==> AnyDeploymentPart(flags))
      && (DockerfileConfigChanged in flags <==> exists p :: p in raw && TouchesDockerfile(p))
  {
    hide Classification, TouchesDockerfile;
    ListSmokeIsComplete(t, raw);
    ListDeploymentIsDerived(t, raw);
    ListDockerfiles(t, raw);
  }

  // ----- No change silently loses coverage -----

  predicate IsRuntimeCheck(f: Flag) { f == Client || IsComponentTest(f) }

  predicate RunsSomething(flags: set<Flag>) { exists f :: f in flags && IsRuntimeCheck(f) }

  /** The paths that may go without any client or component test. */
  predicate IsExempt(path: string) {
    IsDocumentation(path) || IsDeploymentOnly(path) || IsExcludedTest(path) || IsGitMetadata(path)
  }

  ghost predicate IsNotExempt(raw: string) { Accepted(raw).Some? && !IsExempt(Accepted(raw).value) }

  lemma CiControlShape(path: string)
    requires IsCiControl(path)
    ensures |path| > 6 && (path[0] == '.' || path[0] == 's' || path[6] == 'c')
  {
  }

  lemma RouteOutsideApps(t: Tables, path: string)
    requires path != "" && path[0] != 'a'
    ensures RouteFlags(t, path) == OtherRouteFlags(path)
  {
    hide OtherRouteFlags, SharedFlags;
  }

  lemma ExcludedTestRoute(t: Tables, path: string)
    requires IsExcludedTest(path)
    ensures !IsCiControl(path) && RouteFlags(t, path) == {}
  {
    assert path[0] == 't' && path[6] != 'c' && StartsWith(path, "tests/");
    if IsCiControl(path) {
      CiControlShape(path);
    }
    hide RouteFlags, IsCiControl;
    RouteOutsideApps(t, path);
  }

  lemma GitMetadataRoute(t: Tables, path: string)
    requires IsGitMetadata(path)
    ensures !IsCiControl(path) && RouteFlags(t, path) == {}
  {
    hide RouteFlags;
    assert path[0] == '.' && path[4] != 'h';
    RouteOutsideApps(t, path);
  }

  lemma SmokeRuns(t: Tables, path: string)
    ensures GatewayTests in SharedFlags(t, path) && GatewayTests in PythonSmoke()
    ensures RunsSomething(SharedFlags(t, path)) && RunsSomething({Client} + PythonSmoke())
  {
  }

  lemma OtherRoutesRun(t: Tables, path: string)
    requires !IsExcludedTest(path) && !IsGitMetadata(path)
    ensures RunsSomething(RouteFlags(t, path))
  {
    hide IsExcludedTest, IsGitMetadata, StartsWith, EndsWith, SharedFlags, PythonSmoke, RunsSomething;
    SmokeRuns(t, path);
    forall f | IsRuntimeCheck(f) ensures RunsSomething({f}) {
      RunsAlone(f);
    }
  }

  lemma RunsAlone(f: Flag)
    requires IsRuntimeCheck(f)
    ensures RunsSomething({f})
  {
    assert f in {f};
  }

  lemma ComponentCoverage(t: Tables, path: string)
    ensures RunsSomething(ComponentFlags(t, path)) <==> !IsExempt(path)
  {
    hide RouteFlags, IsCiControl, IsDocumentation, IsDeploymentOnly, IsExcludedTest, IsGitMetadata, EndsWith;
    if IsExcludedTest(path) {
      ExcludedTestRoute(t, path);
    } else if IsGitMetadata(path) {
      GitMetadataRoute(t, path);
    } else {
      OtherRoutesRun(t, path);
    }
    assert Client in CiControlScope();
  }

  lemma PostgresRunsNothing(t: Tables, path: string)
    ensures !RunsSomething(PostgresFlags(t, path))
  {
  }

  lemma PathCoverage(t: Tables, path: string)
    ensures RunsSomething(Selector(t)(path)) <==> !IsExempt(path)
  {
    hide ComponentFlags, ConcernsOf, DeploymentParts, IsExempt, PostgresFlags;
    ComponentCoverage(t, path);
    PostgresRunsNothing(t, path);
    assert !RunsSomething(Derived(DeploymentParts(ConcernsOf(t, path))));
  }

  lemma SelectsSomething(t: Tables, raw: string)
    ensures IsNotExempt(raw) <==> exists f :: IsRuntimeCheck(f) && Selects(t, raw, f)
  {
    hide PathFlags, IsExempt, NormalizeRepoPath;
    if Accepted(raw).Some? {
      PathCoverage(t, Accepted(raw).value);
      if RunsSomething(Selector(t)(Accepted(raw).value)) {
        var f :| f in Selector(t)(Accepted(raw).value) && IsRuntimeCheck(f);
        assert Selects(t, raw, f);
      }
    }
  }

  /**
   * Some client or component test runs, unless every changed path is documentation,
   * deployment-only, a test outside the smoke suites, or Git metadata.
   */
  lemma CoverageIsLostOnlyByExemption(t: Tables, raw: seq<string>)
    requires Classification(t, raw).Success?
    ensures RunsSomething(Classification(t, raw).value) <==> raw == [] || exists p :: p in raw && IsNotExempt(p)
  {
    hide Classification, Selects, IsNotExempt;
    if raw == [] {
      EmptyListRuns(t);
    } else {
      ListByFlag(t, raw);
      forall p ensures IsNotExempt(p) <==> exists f :: IsRuntimeCheck(f) && Selects(t, p, f) {
        SelectsSomething(t, p);
      }
      forall f | f in Classification(t, raw).value && IsRuntimeCheck(f) ensures exists p :: p in raw && IsNotExempt(p) {
        var p :| p in raw && Selects(t, p, f);
      }
    }
  }

  lemma EmptyListRuns(t: Tables)
    ensures Classification(t, []).Success? && RunsSomething(Classification(t, []).value)
  {
    assert Client in BroadScope();
  }
}
