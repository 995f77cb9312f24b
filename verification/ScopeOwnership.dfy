/**
 * The classifier read the other way round: for each flag, exactly the changed paths that
 * select it.  The conditions are about directories, names and endings alone.
 */
module ScopeOwnership {
  import opened Wrappers
  import opened Text
  import opened Paths
  import opened ChangedScope

  // ----- Kinds of paths -----

  predicate IsDocs(path: string) { StartsWith(path, "docs/") || StartsWith(path, "docs_old/") || EndsWith(path, ".md") }

  predicate OnlyDeploys(path: string) {
    || StartsWith(path, "dev/") || StartsWith(path, "docker/") || StartsWith(path, "infra/")
    || StartsWith(path, ".github/workflows/deploy-") || StartsWith(path, ".github/workflows/publish-images.yml")
  }

  predicate ControlsCi(path: string) {
    || StartsWith(path, ".github/actions/") || StartsWith(path, "scripts/ci/") || StartsWith(path, "tests/ci/")
    || (StartsWith(path, ".github/workflows/") && path[|".github/workflows/"|..] in {
          "pr-ci-control-guard.yml", "pr-quality-gate.yml", "test-knowledge-runtime-postgres.yml",
          "test-schedule-dispatch-postgres.yml", "test-agent-builder-postgres.yml", "test-memory-postgres.yml" })
  }

  lemma DocsIff(path: string)
    ensures IsDocumentation(path) <==> IsDocs(path)
  {
    if IsRootDocument(path) {
      assert EndsWith(path, ".md");
    }
  }

  lemma DeploysIff(path: string)
    ensures IsDeploymentOnly(path) <==> OnlyDeploys(path)
  {
  }

  lemma ControlsCiIff(path: string)
    ensures IsCiControl(path) <==> ControlsCi(path)
  {
  }

  // ----- Who needs which check -----

  /** Neither documentation nor used for deployment only. */
  predicate IsCode(path: string) { !IsDocs(path) && !OnlyDeploys(path) }

  /** Paths with an owner, that do not fall back to the smoke tests of everything. */
  predicate IsOwned(path: string) {
    || StartsWith(path, "apps/client/") || StartsWith(path, "apps/memory/") || StartsWith(path, "apps/gateway/")
    || StartsWith(path, "apps/workflow_engine/") || StartsWith(path, "apps/log_system/") || StartsWith(path, "apps/sandbox/")
    || StartsWith(path, "apps/shared/") || StartsWith(path, "tests/") || IsScript(path)
    || path == ".gitattributes" || path == ".gitignore"
  }

  predicate IsScript(path: string) { StartsWith(path, "scripts/") && EndsWith(path, ".py") }

  /** Code that controls the CI, or that nobody owns, needs every test of the client and the components. */
  predicate NeedsEverything(path: string) { IsCode(path) && (ControlsCi(path) || !IsOwned(path)) }

  /** Code below a directory. */
  predicate IsCodeIn(path: string, directory: string) { IsCode(path) && StartsWith(path, directory) }

  predicate IsSharedState(path: string) {
    || IsCodeIn(path, "apps/shared/db/") || IsCodeIn(path, "apps/shared/schemas/")
    || IsCodeIn(path, "apps/shared/alembic/")
  }

  /** The suites that do not run for a pull request. */
  predicate IsSlowTest(path: string) {
    StartsWith(path, "tests/e2e/") || StartsWith(path, "tests/evaluation/") || StartsWith(path, "tests/load/")
  }

  predicate MentionsLogging(path: string) {
    || Contains(path, "audit") || Contains(path, "tracing") || Contains(path, "security_alert")
    || Contains(path, "celery")
  }

  lemma TestsAndLoggingIff(path: string)
    ensures IsExcludedTest(path) <==> IsSlowTest(path)
    ensures NamesLoggedConcern(path) <==> MentionsLogging(path)
  {
    hide StartsWith, Contains;
  }

  /** For each client or component test, the paths that need it. */
  predicate NeedsTest(t: Tables, path: string, f: Flag) {
    NeedsEverything(path) ||
    match f
    case Client => IsCodeIn(path, "apps/client/")
    case GatewayTests => IsCodeIn(path, "apps/gateway/") || IsCodeIn(path, "apps/shared/")
    case WorkflowTests => IsCodeIn(path, "apps/workflow_engine/") || IsCodeIn(path, "apps/shared/")
    case SharedTests => IsCodeIn(path, "apps/shared/")
    case LogTests =>
      || IsCodeIn(path, "apps/log_system/") || IsSharedState(path)
      || (IsCodeIn(path, "apps/shared/") && (t.logShared(path) || MentionsLogging(path)))
    case SandboxTests => IsCodeIn(path, "apps/sandbox/")
    case MemoryTests => IsCodeIn(path, "apps/memory/") || (IsCodeIn(path, "apps/shared/") && t.memoryShared(path))
    case RootTests => (IsCodeIn(path, "tests/") && !IsSlowTest(path)) || (IsCode(path) && IsScript(path)) || IsSharedState(path)
    case _ => false
  }

  /** The seven components are told apart by two letters. */
  lemma Letters(path: string)
    ensures StartsWith(path, "apps/client/") ==> |path| > 6 && path[0] == 'a' && path[5] == 'c'
    ensures StartsWith(path, "apps/memory/") ==> |path| > 6 && path[0] == 'a' && path[5] == 'm'
    ensures StartsWith(path, "apps/gateway/") ==> |path| > 6 && path[0] == 'a' && path[5] == 'g'
    ensures StartsWith(path, "apps/workflow_engine/") ==> |path| > 6 && path[0] == 'a' && path[5] == 'w'
    ensures StartsWith(path, "apps/log_system/") ==> |path| > 6 && path[0] == 'a' && path[5] == 'l'
    ensures StartsWith(path, "apps/sandbox/") ==> |path| > 6 && path[0] == 'a' && path[5] == 's' && path[6] == 'a'
    ensures StartsWith(path, "apps/shared/") ==> |path| > 6 && path[0] == 'a' && path[5] == 's' && path[6] == 'h'
  {
  }

  lemma OtherLetters(path: string)
    ensures StartsWith(path, "tests/") ==> path != "" && path[0] == 't'
    ensures IsScript(path) ==> path != "" && path[0] == 's'
    ensures IsGitMetadata(path) ==> path != "" && path[0] == '.'
    ensures StartsWith(path, ".github/workflows/") ==> |path| > 4 && path[0] == '.' && path[4] == 'h'
    ensures IsGitMetadata(path) ==> |path| > 4 && path[4] != 'h'
    ensures IsExcludedTest(path) ==> StartsWith(path, "tests/")
    ensures IsGitMetadata(path) <==> path == ".gitattributes" || path == ".gitignore"
    ensures IsScript(path) <==> StartsWith(path, "scripts/") && EndsWith(path, ".py")
  {
  }

  lemma AppsAreCode(path: string)
    requires |path| > 6 && path[0] == 'a'
    ensures !OnlyDeploys(path) && !ControlsCi(path)
  {
  }

  lemma SharedStateIsShared(path: string)
    ensures IsSharedState(path) ==> StartsWith(path, "apps/shared/")
    ensures IsSharedData(path) || IsMigration(path) ==> StartsWith(path, "apps/shared/")
    ensures IsSharedData(path) || IsMigration(path) <==>
      StartsWith(path, "apps/shared/db/") || StartsWith(path, "apps/shared/schemas/") || StartsWith(path, "apps/shared/alembic/")
  {
  }

  // The flags of each route.

  lemma ComponentRoutes(t: Tables, path: string)
    ensures StartsWith(path, "apps/client/") ==> RouteFlags(t, path) == {Client}
    ensures StartsWith(path, "apps/memory/") ==> RouteFlags(t, path) == {MemoryTests}
    ensures StartsWith(path, "apps/gateway/") ==> RouteFlags(t, path) == {GatewayTests}
    ensures StartsWith(path, "apps/workflow_engine/") ==> RouteFlags(t, path) == {WorkflowTests}
    ensures StartsWith(path, "apps/log_system/") ==> RouteFlags(t, path) == {LogTests}
    ensures StartsWith(path, "apps/sandbox/") ==> RouteFlags(t, path) == {SandboxTests}
    ensures StartsWith(path, "apps/shared/") ==> RouteFlags(t, path) == SharedFlags(t, path)
  {
    Letters(path);
    hide StartsWith, OtherRouteFlags, SharedFlags;
  }

  predicate IsRuntimeTest(f: Flag) { f == Client || IsComponentTest(f) }

  predicate IsInComponent(path: string) {
    || StartsWith(path, "apps/client/") || StartsWith(path, "apps/memory/") || StartsWith(path, "apps/gateway/")
    || StartsWith(path, "apps/workflow_engine/") || StartsWith(path, "apps/log_system/")
    || StartsWith(path, "apps/sandbox/") || StartsWith(path, "apps/shared/")
  }

  lemma ComponentsAreOwned(path: string)
    requires IsInComponent(path)
    ensures !NeedsEverything(path) && !StartsWith(path, "tests/") && !IsScript(path)
  {
    Letters(path);
    OtherLetters(path);
    AppsAreCode(path);
    hide StartsWith, IsCode, IsScript, IsGitMetadata, ControlsCi;
  }

  lemma SharedIsNoOther(path: string)
    requires StartsWith(path, "apps/shared/")
    ensures !StartsWith(path, "apps/client/") && !StartsWith(path, "apps/memory/") && !StartsWith(path, "apps/gateway/")
    ensures !StartsWith(path, "apps/workflow_engine/") && !StartsWith(path, "apps/log_system/")
    ensures !StartsWith(path, "apps/sandbox/") && !StartsWith(path, "tests/") && !IsScript(path) && !NeedsEverything(path)
  {
    Letters(path);
    ComponentsAreOwned(path);
    hide StartsWith, IsScript, NeedsEverything;
  }

  lemma SharedHas(t: Tables, path: string, f: Flag)
    ensures f in SharedFlags(t, path) <==> match f
      case SharedTests => true
      case GatewayTests => true
      case WorkflowTests => true
      case MemoryTests => t.memoryShared(path)
      case RootTests => IsSharedData(path) || IsMigration(path)
      case LogTests => IsSharedData(path) || IsMigration(path) || t.logShared(path) || NamesLoggedConcern(path)
      case KnowledgePostgres => IsMigration(path)
      case WorkflowPostgres => IsMigration(path)
      case MemoryPostgres => IsMigration(path)
      case _ => false
  {
    hide IsSharedData, IsMigration, NamesLoggedConcern;
  }

  lemma SharedNeeds(t: Tables, path: string, f: Flag)
    requires IsCode(path) && StartsWith(path, "apps/shared/") && IsRuntimeTest(f)
    ensures f in RouteFlags(t, path) <==> NeedsTest(t, path, f)
  {
    hide StartsWith, IsCode, IsScript, IsExcludedTest, NamesLoggedConcern, MentionsLogging, IsSlowTest, RouteFlags;
    hide IsSharedData, IsMigration, NeedsEverything, SharedFlags;
    SharedStateIsShared(path);
    TestsAndLoggingIff(path);
    ComponentRoutes(t, path);
    SharedIsNoOther(path);
    SharedHas(t, path, f);
  }

  lemma ComponentsAreApart(path: string)
    ensures StartsWith(path, "apps/client/") ==> !StartsWith(path, "apps/memory/") && !StartsWith(path, "apps/gateway/")
    ensures StartsWith(path, "apps/client/") || StartsWith(path, "apps/memory/") || StartsWith(path, "apps/gateway/") ==>
      && !StartsWith(path, "apps/workflow_engine/") && !StartsWith(path, "apps/log_system/")
      && !StartsWith(path, "apps/sandbox/")
    ensures StartsWith(path, "apps/memory/") ==> !StartsWith(path, "apps/gateway/")
    ensures StartsWith(path, "apps/workflow_engine/") ==>
      !StartsWith(path, "apps/log_system/") && !StartsWith(path, "apps/sandbox/")
    ensures StartsWith(path, "apps/log_system/") ==> !StartsWith(path, "apps/sandbox/")
  {
    Letters(path);
    hide StartsWith;
  }

  lemma ComponentNeeds(t: Tables, path: string, f: Flag)
    requires IsCode(path) && IsInComponent(path) && !StartsWith(path, "apps/shared/") && IsRuntimeTest(f)
    ensures f in RouteFlags(t, path) <==> NeedsTest(t, path, f)
  {
    ComponentsAreApart(path);
    SharedStateIsShared(path);
    ComponentRoutes(t, path);
    ComponentsAreOwned(path);
    hide StartsWith, IsCode, IsScript, IsSlowTest, MentionsLogging, RouteFlags, IsSharedState, SharedFlags, NeedsEverything;
  }

  lemma OtherNeeds(t: Tables, path: string, f: Flag)
    requires IsCode(path) && !ControlsCi(path) && !IsInComponent(path) && IsRuntimeTest(f)
    ensures f in RouteFlags(t, path) <==> NeedsTest(t, path, f)
  {
    OtherLetters(path);
    SharedStateIsShared(path);
    TestsAndLoggingIff(path);
    hide StartsWith, EndsWith, IsCode, IsExcludedTest, IsSlowTest, MentionsLogging, IsGitMetadata, ControlsCi, IsSharedState, SharedFlags;
  }

  predicate IsMigrationPostgres(f: Flag) { f == KnowledgePostgres || f == WorkflowPostgres || f == MemoryPostgres }

  lemma OtherFlagsOfComponents(t: Tables, path: string, f: Flag)
    requires IsInComponent(path) && !IsRuntimeTest(f)
    ensures f in RouteFlags(t, path) <==> IsMigrationPostgres(f) && StartsWith(path, "apps/shared/alembic/")
  {
    Letters(path);
    SharedStateIsShared(path);
    ComponentRoutes(t, path);
    hide StartsWith, RouteFlags, NamesLoggedConcern, IsSharedData, IsSharedState;
  }

  lemma OtherFlagsElsewhere(t: Tables, path: string, f: Flag)
    requires !IsInComponent(path) && !IsRuntimeTest(f)
    ensures f in RouteFlags(t, path) <==> f == BroadPython && !IsOwned(path)
  {
    OtherLetters(path);
    hide StartsWith, EndsWith, IsExcludedTest, IsGitMetadata, SharedFlags;
  }

  /** Code that controls the CI. */
  predicate IsControlCode(path: string) { IsCode(path) && ControlsCi(path) }

  predicate IsDeployment(f: Flag) { IsDeploymentPart(f) || f == DeploymentValidation }

  /** What the part of the classifier behind the deployment validations needs. */
  predicate ComponentNeedsFlag(t: Tables, path: string, f: Flag) {
    if IsRuntimeTest(f) then NeedsTest(t, path, f)
    else if f == PythonLint then !IsDocs(path) && EndsWith(path, ".py")
    else if f == BroadPython then NeedsEverything(path)
    else if IsPostgres(f) then
      IsControlCode(path) || (IsMigrationPostgres(f) && IsCodeIn(path, "apps/shared/alembic/"))
    else IsDeployment(f) && IsControlCode(path)
  }

  lemma CiControlHas(f: Flag)
    ensures f in CiControlScope() <==> IsRuntimeTest(f) || f == BroadPython || IsPostgres(f) || IsDeployment(f)
  {
  }

  lemma MigrationIsComponent(path: string)
    ensures StartsWith(path, "apps/shared/alembic/") ==> IsInComponent(path)
    ensures IsInComponent(path) ==> !NeedsEverything(path) && !ControlsCi(path) && IsOwned(path)
  {
    SharedStateIsShared(path);
    if IsInComponent(path) {
      Letters(path);
      AppsAreCode(path);
      ComponentsAreOwned(path);
    }
    hide StartsWith, ControlsCi;
  }

  lemma RouteHas(t: Tables, path: string, f: Flag)
    requires IsCode(path) && !ControlsCi(path)
    ensures f in RouteFlags(t, path) <==> ComponentNeedsFlag(t, path, f) && f != PythonLint
  {
    MigrationIsComponent(path);
    hide StartsWith, EndsWith, ControlsCi, RouteFlags, NeedsTest, IsOwned, IsInComponent;
    if IsRuntimeTest(f) {
      if StartsWith(path, "apps/shared/") {
        SharedNeeds(t, path, f);
      } else if IsInComponent(path) {
        ComponentNeeds(t, path, f);
      } else {
        OtherNeeds(t, path, f);
      }
    } else if IsInComponent(path) {
      OtherFlagsOfComponents(t, path, f);
    } else {
      OtherFlagsElsewhere(t, path, f);
    }
  }

  lemma ComponentHas(t: Tables, path: string, f: Flag)
    ensures f in ComponentFlags(t, path) <==> ComponentNeedsFlag(t, path, f)
  {
    DocsIff(path);
    DeploysIff(path);
    ControlsCiIff(path);
    CiControlHas(f);
    hide IsDocumentation, IsDeploymentOnly, IsCiControl, IsDocs, OnlyDeploys, ControlsCi, RouteFlags, CiControlScope, IsOwned, EndsWith, StartsWith;
    if IsCode(path) && !ControlsCi(path) { RouteHas(t, path, f); }
  }

  // ----- Workflows, actions and other deployment files -----

  /** The same letters, except that the first may have capitals where the second has none. */
  predicate IsWrittenAs(s: string, small: string) {
    && |s| == |small|
    && forall i :: 0 <= i < |s| ==>
      s[i] == small[i] || ('A' <= s[i] <= 'Z' && s[i] as int + 32 == small[i] as int)
  }

  predicate IsSmall(s: string) { forall c :: c in s ==> !('A' <= c <= 'Z') }

  lemma LowerIff(s: string, small: string)
    requires IsSmall(small)
    ensures Lower(s) == small <==> IsWrittenAs(s, small)
  {
    if |s| == |small| {
      forall i | 0 <= i < |s|
        ensures Lower(s)[i] == small[i] <==>
          s[i] == small[i] || ('A' <= s[i] <= 'Z' && s[i] as int + 32 == small[i] as int)
      {
        assert small[i] in small;
      }
    }
  }

  predicate IsYaml(ending: string) { IsWrittenAs(ending, ".yml") || IsWrittenAs(ending, ".yaml") }

  /** A name splits before its last dot, when that is neither its first nor its last character. */
  lemma EndingIff(name: string, stem: string, ending: string)
    requires ending != "" && ending[0] == '.' && '.' !in ending[1..] && |ending| > 1 && stem != ""
    ensures name == stem + ending <==> Suffix(name) == ending && Stem(name) == stem
  {
    if name == stem + ending {
      assert forall k :: |stem| < k < |name| ==> name[k] == ending[1..][k - |stem| - 1];
      assert name[|stem|] == ending[0];
    }
    if Suffix(name) == ending && Stem(name) == stem {
      var i := LastDot(name);
      assert name == name[..i] + name[i..];
    }
  }

  lemma YamlEnding(ending: string)
    requires IsYaml(ending)
    ensures |ending| > 1 && ending[0] == '.' && '.' !in ending[1..]
  {
    assert forall k :: 1 <= k < |ending| ==> ending[k] != '.';
  }

  /** A workflow is a YAML file directly in the directory of the workflows. */
  ghost predicate IsWorkflowFile(path: string, stem: string) {
    stem != "" && '/' !in stem && exists ending :: IsYaml(ending) && path == WORKFLOWS + (stem + ending)
  }

  lemma YamlSuffixIff(name: string)
    ensures Lower(Suffix(name)) in {".yml", ".yaml"} <==> IsYaml(Suffix(name))
  {
    LowerIff(Suffix(name), ".yml");
    LowerIff(Suffix(name), ".yaml");
  }

  const WORKFLOWS := ".github/workflows/"
  const ACTIONS := ".github/actions/"

  lemma GithubDirectories()
    ensures WORKFLOWS == ".github" + ['/'] + "workflows" + ['/'] && ACTIONS == ".github" + ['/'] + "actions" + ['/']
    ensures IsComponentName(".github") && IsComponentName("workflows") && IsComponentName("actions")
  {
  }

  lemma WorkflowsDirectory(path: string, name: string)
    requires Normal(path)
    ensures Parse(path).tail == [".github", "workflows", name] <==> path == WORKFLOWS + name && '/' !in name
    ensures Parse(path).tail == [".github", "workflows", name] ==> NameOf(path) == name
  {
    hide Parse, NameOf, Normal, IsComponentName;
    GithubDirectories();
    NameInDirectory(path, ".github", "workflows", name);
  }

  lemma WorkflowHasName(path: string)
    requires Normal(path)
    ensures IsWorkflow(path) <==>
      path == WORKFLOWS + NameOf(path) && '/' !in NameOf(path) && IsYaml(Suffix(NameOf(path)))
  {
    YamlSuffixIff(NameOf(path));
    WorkflowsDirectory(path, NameOf(path));
    hide Suffix, Lower, IsYaml;
    var p := Parse(path);
    if |p.tail| == 3 && p.tail[..2] == [".github", "workflows"] {
      assert p.tail == [".github", "workflows", NameOf(path)];
    }
  }

  lemma NameWithYamlSuffix(name: string, stem: string)
    ensures IsYaml(Suffix(name)) && Stem(name) == stem <==>
      stem != "" && exists ending :: IsYaml(ending) && name == stem + ending
  {
    if IsYaml(Suffix(name)) && Stem(name) == stem {
      YamlEnding(Suffix(name));
      EndingIff(name, stem, Suffix(name));
    }
    forall ending | stem != "" && IsYaml(ending) && name == stem + ending
      ensures IsYaml(Suffix(name)) && Stem(name) == stem
    {
      YamlEnding(ending);
      EndingIff(name, stem, ending);
    }
  }

  lemma YamlHasNoSlash(ending: string)
    requires IsYaml(ending)
    ensures '/' !in ending
  {
    assert forall k :: 0 <= k < |ending| ==> ending[k] != '/';
  }

  lemma WorkflowIff(path: string, stem: string)
    requires Normal(path)
    ensures IsWorkflowFile(path, stem) <==> IsWorkflow(path) && Stem(NameOf(path)) == stem
  {
    hide IsWorkflow, Stem, Suffix, IsYaml, Normal, NameOf;
    var name := NameOf(path);
    WorkflowHasName(path);
    NameWithYamlSuffix(name, stem);
    if IsWorkflowFile(path, stem) {
      var ending :| IsYaml(ending) && path == WORKFLOWS + (stem + ending);
      YamlHasNoSlash(ending);
      WorkflowsDirectory(path, stem + ending);
      assert name == stem + ending;
    }
    if IsWorkflow(path) && Stem(name) == stem {
      var ending :| IsYaml(ending) && name == stem + ending;
      assert path == WORKFLOWS + (stem + ending);
    }
  }

  /** A composite action is an action file anywhere below the directory of the actions. */
  predicate IsActionFile(path: string) {
    StartsWith(path, ACTIONS) &&
    (IsWrittenAs(NameOf(path), "action.yml") || IsWrittenAs(NameOf(path), "action.yaml"))
  }

  lemma ActionsDirectory(path: string)
    requires Normal(path)
    ensures |Parse(path).tail| >= 3 && Parse(path).tail[..2] == [".github", "actions"] <==> StartsWith(path, ACTIONS)
  {
    hide Parse, Normal, IsComponentName;
    GithubDirectories();
    LeadingComponents(path, ".github", "actions");
  }

  lemma ActionIff(path: string)
    requires Normal(path)
    ensures IsCompositeAction(path) <==> IsActionFile(path)
  {
    IsSmallName();
    LowerIff(NameOf(path), "action.yml");
    LowerIff(NameOf(path), "action.yaml");
    RootIsNone(path);
    ActionsDirectory(path);
    hide Parse, NameOf, Normal, Lower, IsWrittenAs, StartsWith, IsSmall;
  }

  lemma IsSmallName()
    ensures IsSmall("action.yml") && IsSmall("action.yaml")
  {
  }

  lemma RootIsNone(path: string)
    requires Normal(path)
    ensures RootOf(path) == "" && Parse(path).root == ""
  {
  }

  predicate IsDockerName(name: string) {
    name == "Dockerfile" || StartsWith(name, "Dockerfile.") || EndsWith(name, ".Dockerfile")
  }

  predicate IsBelowGithub(path: string) { StartsWith(path, WORKFLOWS) || StartsWith(path, ACTIONS) }

  /** Below the directories of the other providers' deployments. */
  predicate IsForeignDeployment(path: string) { StartsWith(path, "infra/k8s/") || StartsWith(path, "infra/terraform/") }

  predicate IsHelmFile(path: string) {
    StartsWith(path, "infra/helm/") || path == "tests/ci/fixtures/helm-values-ci.yaml"
  }

  predicate IsEgressFile(path: string) {
    || IsEgressProxyFile(path) || StartsWith(path, "docker/proxy/")
    || StartsWith(path, "tests/ci/fixtures/egress-proxy/")
  }

  /** For each deployment validation, the paths that need it for what they are. */
  ghost predicate NeedsPart(t: Tables, path: string, f: Flag) {
    match f
    case ActionsValidation => IsBelowGithub(path)
    case SupportSurfaceValidation =>
      (exists stem :: IsWorkflowFile(path, stem)) || IsActionFile(path) || IsForeignDeployment(path)
    case HelmValidation => IsHelmFile(path)
    case ComposeValidation => t.composeName(NameOf(path))
    case EgressProxyValidation => IsEgressFile(path)
    case DockerfileValidation => IsDockerName(NameOf(path))
    case DockerfileConfigChanged => IsDockerName(NameOf(path))
    case _ => false
  }

  lemma WorkflowFileIff(path: string)
    requires Normal(path)
    ensures IsWorkflow(path) <==> exists stem :: IsWorkflowFile(path, stem)
    ensures IsWorkflow(path) ==> StartsWith(path, WORKFLOWS)
  {
    WorkflowIff(path, Stem(NameOf(path)));
    forall stem | IsWorkflowFile(path, stem) ensures IsWorkflow(path) {
      WorkflowIff(path, stem);
    }
  }

  /** Unsupported are the workflows that deploy a development namespace or to EKS, and the foreign deployments. */
  lemma UnsupportedIff(path: string)
    requires Normal(path)
    ensures IsUnsupportedDeployment(path) <==>
      || IsForeignDeployment(path)
      || exists stem :: IsWorkflowFile(path, stem) && (stem == "deploy-dev-namespace" || StartsWith(stem, "deploy-eks-"))
  {
    hide StartsWith, IsWorkflow, IsWorkflowFile, NameOf, Stem, Normal;
    var own := Stem(NameOf(path));
    WorkflowIff(path, own);
    forall stem | IsWorkflowFile(path, stem) ensures IsWorkflow(path) && stem == own {
      WorkflowIff(path, stem);
    }
  }

  lemma PartsOf(c: Concerns, f: Flag)
    ensures f in DeploymentParts(c) <==> match f
      case ActionsValidation => c.executable || c.underGithub
      case SupportSurfaceValidation => c.executable || c.unsupported
      case HelmValidation => c.helm
      case ComposeValidation => c.compose
      case EgressProxyValidation => c.egress
      case DockerfileValidation => c.dockerfile
      case DockerfileConfigChanged => c.dockerfile
      case _ => false
  {
  }

  lemma WorkflowConcerns(path: string)
    requires Normal(path)
    ensures IsWorkflow(path) || IsCompositeAction(path) || IsUnderGithub(path) <==> IsBelowGithub(path)
    ensures IsWorkflow(path) || IsCompositeAction(path) || IsUnsupportedDeployment(path) <==>
      (exists stem :: IsWorkflowFile(path, stem)) || IsActionFile(path) || IsForeignDeployment(path)
  {
    WorkflowFileIff(path);
    ActionIff(path);
    ActionIsBelow(path);
    hide IsWorkflow, IsCompositeAction, IsWorkflowFile, StartsWith, NameOf, IsActionFile;
  }

  lemma ToolingConcerns(path: string)
    ensures IsDockerfile(path) <==> IsDockerName(NameOf(path))
    ensures IsHelm(path) <==> IsHelmFile(path)
    ensures IsEgressProxy(path) <==> IsEgressFile(path)
  {
    hide StartsWith, EndsWith, NameOf, IsEgressProxyFile;
  }

  lemma PartIff(t: Tables, path: string, f: Flag)
    requires Normal(path)
    ensures f in DeploymentParts(ConcernsOf(t, path)) <==> NeedsPart(t, path, f)
  {
    hide IsWorkflow, IsCompositeAction, IsWorkflowFile, NameOf, IsDockerName, IsUnsupportedDeployment, IsDockerfile;
    hide IsHelm, IsHelmFile, IsEgressProxy, IsEgressFile, IsActionFile, IsBelowGithub, IsForeignDeployment, IsUnderGithub;
    hide DeploymentParts, Normal;
    PartsOf(ConcernsOf(t, path), f);
    WorkflowConcerns(path);
    ToolingConcerns(path);
  }

  lemma ActionIsBelow(path: string)
    ensures IsActionFile(path) ==> StartsWith(path, ACTIONS)
  {
  }

  // ----- Whole classifications -----

  predicate IsListed(t: Tables, path: string, f: Flag) {
    match f
    case KnowledgePostgres => t.knowledge(path)
    case WorkflowPostgres => t.workflow(path)
    case AgentBuilderPostgres => t.agentBuilder(path)
    case MemoryPostgres => t.memory(path)
    case _ => false
  }

  ghost predicate NeedsOne(t: Tables, path: string, f: Flag) {
    NeedsPart(t, path, f) || IsListed(t, path, f) || ComponentNeedsFlag(t, path, f)
  }

  /** For every flag, the normalised paths that select it. */
  ghost predicate Needs(t: Tables, path: string, f: Flag) {
    if f == DocsOnly then IsDocs(path)
    else if f == DeploymentValidation then exists part :: IsDeploymentPart(part) && NeedsOne(t, path, part)
    else NeedsOne(t, path, f)
  }

  lemma ListedIff(t: Tables, path: string, f: Flag)
    ensures f in PostgresFlags(t, path) <==> IsListed(t, path, f)
  {
  }

  lemma PathFlagsIff(t: Tables, path: string, f: Flag)
    requires Normal(path) && f != DocsOnly && f != DeploymentValidation
    ensures f in PathFlags(t, path) <==> NeedsOne(t, path, f)
  {
    PartIff(t, path, f);
    ComponentHas(t, path, f);
    ListedIff(t, path, f);
    hide DeploymentParts, NeedsPart, ComponentFlags, ComponentNeedsFlag, ConcernsOf, PostgresFlags, IsListed;
    var parts := DeploymentParts(ConcernsOf(t, path));
    assert f in Derived(parts) <==> f in parts;
    hide Derived;
  }

  lemma PathNeeds(t: Tables, path: string, f: Flag)
    requires Normal(path) && f != DocsOnly
    ensures f in Selector(t)(path) <==> Needs(t, path, f)
  {
    hide PathFlags, NeedsOne, IsDeploymentPart;
    if f != DeploymentValidation {
      PathFlagsIff(t, path, f);
    } else {
      PathFlagsAreConsistent(t, path);
      forall part | IsDeploymentPart(part) ensures part in PathFlags(t, path) <==> NeedsOne(t, path, part) {
        PartsAreOthers(part);
        PathFlagsIff(t, path, part);
      }
    }
  }

  lemma PartsAreOthers(f: Flag)
    requires IsDeploymentPart(f)
    ensures f != DocsOnly && f != DeploymentValidation
  {
  }

  /**
   * A classification of changed paths holds a flag exactly when some path needs it by its
   * directory, name or ending; documentation only, when all are documentation.
   */
  lemma FlagIsSelectedIff(t: Tables, raw: seq<string>, f: Flag)
    requires raw != [] && Classification(t, raw).Success?
    ensures forall p :: p in raw ==> Accepted(p).Some?
    ensures f in Classification(t, raw).value <==>
      if f == DocsOnly then forall p :: p in raw ==> Needs(t, Accepted(p).value, f)
      else exists p :: p in raw && Needs(t, Accepted(p).value, f)
  {
    ClassificationByFlag(t, raw);
    hide Classification, Needs, Accepted;
    forall p | p in raw
      ensures Normal(Accepted(p).value)
      ensures IsDocumentation(Accepted(p).value) <==> Needs(t, Accepted(p).value, DocsOnly)
      ensures f != DocsOnly ==> (f in Selector(t)(Accepted(p).value) <==> Needs(t, Accepted(p).value, f))
    {
      AcceptedIsNormal(p);
      DocsIff(Accepted(p).value);
      if f != DocsOnly { PathNeeds(t, Accepted(p).value, f); }
      assert Needs(t, Accepted(p).value, DocsOnly) <==> IsDocs(Accepted(p).value) by { DocsNeed(t, Accepted(p).value); }
    }
  }

  lemma DocsNeed(t: Tables, path: string)
    ensures Needs(t, path, DocsOnly) <==> IsDocs(path)
  {
  }

  lemma AcceptedIsNormal(raw: string)
    requires Accepted(raw).Some?
    ensures Normal(Accepted(raw).value)
  {
    NormalisedIsNormal(raw);
  }

  /** The empty list selects the client, every component's tests, the broad mark and every Postgres suite. */
  lemma EmptyListSelects(t: Tables)
    ensures Classification(t, []) == Success({
      Client, GatewayTests, WorkflowTests, SharedTests, LogTests, SandboxTests, RootTests, MemoryTests, BroadPython,
      KnowledgePostgres, WorkflowPostgres, AgentBuilderPostgres, MemoryPostgres })
  {
    var selected := {
      Client, GatewayTests, WorkflowTests, SharedTests, LogTests, SandboxTests, RootTests, MemoryTests, BroadPython,
      KnowledgePostgres, WorkflowPostgres, AgentBuilderPostgres, MemoryPostgres };
    assert forall f :: f in BroadScope() <==> f in selected;
    assert BroadScope() == selected;
  }

  /** In particular, code of a component runs that component's own tests. */
  lemma OwnTestsRun(t: Tables, raw: seq<string>, p: string)
    requires Classification(t, raw).Success? && p in raw && Accepted(p).Some? && IsCode(Accepted(p).value)
    ensures var flags, path := Classification(t, raw).value, Accepted(p).value;
      && (StartsWith(path, "apps/client/") ==> Client in flags)
      && (StartsWith(path, "apps/gateway/") ==> GatewayTests in flags)
      && (StartsWith(path, "apps/workflow_engine/") ==> WorkflowTests in flags)
      && (StartsWith(path, "apps/log_system/") ==> LogTests in flags)
      && (StartsWith(path, "apps/sandbox/") ==> SandboxTests in flags)
      && (StartsWith(path, "apps/memory/") ==> MemoryTests in flags)
      && (StartsWith(path, "apps/shared/") ==> {SharedTests, GatewayTests, WorkflowTests} <= flags)
  {
    hide Classification, Accepted, StartsWith, IsCode, NeedsEverything, IsSharedState, MentionsLogging, IsSlowTest;
    forall f ensures f != DocsOnly && Needs(t, Accepted(p).value, f) ==> f in Classification(t, raw).value {
      FlagIsSelectedIff(t, raw, f);
    }
  }
}
