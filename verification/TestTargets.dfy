/** Choosing pytest targets: the reduction of nested targets, and the selection around it. */
module TestTargets {
  import opened Wrappers
  import opened Text
  import opened Paths

  // ----- The sorting key: number of path parts, then the text -----

  /** Python's order of strings. */
  predicate TextLess(a: string, b: string) {
    b != "" && (a == "" || a[0] < b[0] || (a[0] == b[0] && TextLess(a[1..], b[1..])))
  }

  predicate Earlier(a: string, b: string) {
    var m, n := PartCount(Parse(a)), PartCount(Parse(b));
    m < n || (m == n && TextLess(a, b))
  }

  /** The first difference decides, or else the end of the first text. */
  ghost predicate DiffersAt(a: string, b: string, k: nat) {
    && k <= |a| && k < |b| && a[..k] == b[..k]
    && (k == |a| || a[k] < b[k])
  }

  lemma {:induction false} TextLessIff(a: string, b: string)
    ensures TextLess(a, b) <==> exists k: nat :: DiffersAt(a, b, k)
  {
    if b != "" && a != "" {
      TextLessIff(a[1..], b[1..]);
      if a[0] == b[0] && TextLess(a[1..], b[1..]) {
        var k: nat :| DiffersAt(a[1..], b[1..], k);
        assert a[..k + 1] == [a[0]] + a[1..][..k] && b[..k + 1] == [b[0]] + b[1..][..k];
        assert DiffersAt(a, b, k + 1);
      }
      if a[0] < b[0] { assert DiffersAt(a, b, 0); }
      forall k: nat | DiffersAt(a, b, k) ensures TextLess(a, b) {
        if k > 0 {
          assert a[0] == a[..k][0] == b[..k][0] == b[0];
          assert a[1..][..k - 1] == a[..k][1..] == b[..k][1..] == b[1..][..k - 1];
          assert DiffersAt(a[1..], b[1..], k - 1);
        }
      }
    } else if b != "" {
      assert DiffersAt(a, b, 0);
    }
  }

  /** Normal paths are in order by the number of their slashes, then by their texts. */
  lemma EarlierIff(a: string, b: string)
    requires Normal(a) && Normal(b) && a != "." && b != "."
    ensures Earlier(a, b) <==>
      || CountOf(a, '/') < CountOf(b, '/')
      || (CountOf(a, '/') == CountOf(b, '/') && exists k: nat :: DiffersAt(a, b, k))
  {
    PartsAreCounted(a);
    PartsAreCounted(b);
    TextLessIff(a, b);
  }

  lemma {:induction false} TextLessIsTotal(a: string, b: string)
    ensures a == b || TextLess(a, b) || TextLess(b, a)
    ensures !(TextLess(a, b) && TextLess(b, a)) && (a == b ==> !TextLess(a, b))
  {
    if a != "" && b != "" {
      TextLessIsTotal(a[1..], b[1..]);
      if a[0] == b[0] && a[1..] == b[1..] {
        assert a == [a[0]] + a[1..] && b == [b[0]] + b[1..];
      }
    }
  }

  lemma {:induction false} TextLessIsTransitive(a: string, b: string, c: string)
    requires TextLess(a, b) && TextLess(b, c)
    ensures TextLess(a, c)
  {
    if a != "" && a[0] == b[0] && b[0] == c[0] {
      TextLessIsTransitive(a[1..], b[1..], c[1..]);
    }
  }

  lemma EarlierIsTotal(a: string, b: string)
    ensures a == b || Earlier(a, b) || Earlier(b, a)
    ensures !(Earlier(a, b) && Earlier(b, a)) && (a == b ==> !Earlier(a, b))
  {
    TextLessIsTotal(a, b);
  }

  lemma EarlierIsTransitive(a: string, b: string, c: string)
    requires Earlier(a, b) && Earlier(b, c)
    ensures Earlier(a, c)
  {
    if TextLess(a, b) && TextLess(b, c) {
      TextLessIsTransitive(a, b, c);
    }
  }

  predicate Sorted(ordered: seq<string>) {
    forall i, j :: 0 <= i < j < |ordered| ==> Earlier(ordered[i], ordered[j])
  }

  method EarliestOf(targets: set<string>) returns (least: string)
    requires targets != {}
    ensures least in targets && forall t :: t in targets ==> t == least || Earlier(least, t)
  {
    least :| least in targets;
    var rest := targets - {least};
    while rest != {}
      invariant least in targets && rest <= targets
      invariant forall t :: t in targets - rest ==> t == least || Earlier(least, t)
    {
      var t :| t in rest;
      rest := rest - {t};
      EarlierIsTotal(t, least);
      if Earlier(t, least) {
        forall u | u in targets - rest ensures u == t || Earlier(t, u) {
          if u != t && u != least { EarlierIsTransitive(t, least, u); }
        }
        least := t;
      }
    }
  }

  /** `sorted(targets, key=...)` */
  method SortTargets(targets: set<string>) returns (ordered: seq<string>)
    ensures Sorted(ordered) && forall t :: t in ordered <==> t in targets
  {
    ordered := [];
    var rest := targets;
    while rest != {}
      invariant rest <= targets && Sorted(ordered)
      invariant forall t :: t in ordered <==> t in targets - rest
      invariant forall t, u :: t in ordered && u in rest ==> Earlier(t, u)
    {
      var least := EarliestOf(rest);
      ordered := ordered + [least];
      rest := rest - {least};
    }
  }

  // ----- Collapsing nested targets -----

  predicate Covers(ancestor: string, target: string) {
    IsAncestorOrSelf(Parse(ancestor), Parse(target))
  }

  /** A normal target covers itself and what lies below it as a directory. */
  lemma CoversIff(a: string, b: string)
    requires Normal(a) && Normal(b) && a != "." && b != "."
    ensures Covers(a, b) <==> a == b || a + ['/'] <= b
  {
    AncestorIff(a, b);
  }

  /** No other target covers this one, except a later spelling of the same path. */
  ghost predicate Minimal(t: string, targets: set<string>) {
    t in targets && forall u :: u in targets && u != t && Covers(u, t) ==> Earlier(t, u)
  }

  /** The minimal targets, sorted. */
  ghost predicate Collapsed(r: seq<string>, targets: set<string>) {
    Sorted(r) && forall t :: t in r <==> Minimal(t, targets)
  }

  lemma CoverIsNotLater(u: string, t: string)
    requires Covers(u, t)
    ensures Earlier(t, u) ==> Parse(u) == Parse(t)
  {
  }

  ghost function EarlierIn(t: string, targets: set<string>): set<string> {
    set u | u in targets && Earlier(u, t)
  }

  lemma CoversItself(t: string)
    ensures Covers(t, t)
  {
  }

  lemma CoversIsTransitive(a: string, b: string, c: string)
    requires Covers(a, b) && Covers(b, c)
    ensures Covers(a, c)
  {
  }

  lemma {:induction false} MinimalCoverExists(t: string, targets: set<string>) returns (m: string)
    requires t in targets
    ensures Minimal(m, targets) && Covers(m, t) && (m == t || Earlier(m, t))
    decreases EarlierIn(t, targets)
  {
    hide Earlier, Covers;
    if Minimal(t, targets) {
      CoversItself(t);
      return t;
    }
    var u :| u in targets && u != t && Covers(u, t) && !Earlier(t, u);
    EarlierIsTotal(u, t);
    EarlierIsTotal(u, u);
    forall v | v in targets && Earlier(v, u) ensures Earlier(v, t) {
      EarlierIsTransitive(v, u, t);
    }
    assert u in EarlierIn(t, targets) && u !in EarlierIn(u, targets) && EarlierIn(u, targets) <= EarlierIn(t, targets);
    m := MinimalCoverExists(u, targets);
    CoversIsTransitive(m, u, t);
    if m != u { EarlierIsTransitive(m, u, t); }
  }

  /** The minimal ones of the targets seen so far, sorted. */
  ghost predicate CollapsedSoFar(collapsed: seq<string>, seen: seq<string>, all: set<string>) {
    Sorted(collapsed) && forall t :: t in collapsed <==> t in seen && Minimal(t, all)
  }

  lemma KeepMinimal(collapsed: seq<string>, seen: seq<string>, all: set<string>, target: string)
    requires CollapsedSoFar(collapsed, seen, all)
    requires Minimal(target, all) && forall t :: t in seen ==> Earlier(t, target)
    ensures CollapsedSoFar(collapsed + [target], seen + [target], all)
  {
    hide Minimal, Earlier;
  }

  lemma SkipCovered(collapsed: seq<string>, seen: seq<string>, all: set<string>, target: string)
    requires CollapsedSoFar(collapsed, seen, all) && !Minimal(target, all)
    ensures CollapsedSoFar(collapsed, seen + [target], all)
  {
    hide Minimal, Earlier;
  }

  lemma AllSeen(collapsed: seq<string>, ordered: seq<string>, all: set<string>)
    requires CollapsedSoFar(collapsed, ordered, all) && forall t :: t in ordered <==> t in all
    ensures Collapsed(collapsed, all)
  {
  }

  method CollapseNestedTargets(targets: seq<string>) returns (collapsed: seq<string>)
    ensures Collapsed(collapsed, set t | t in targets)
  {
    hide Covers, Minimal, Earlier, Collapsed;
    ghost var all := set t | t in targets;
    var ordered := SortTargets(set t | t in targets);
    collapsed := [];
    for i := 0 to |ordered|
      invariant CollapsedSoFar(collapsed, ordered[..i], all)
    {
      var target := ordered[i];
      assert ordered[..i + 1] == ordered[..i] + [target];
      EarlierOnesAreSeen(ordered, i);
      CoveredIffNotMinimal(target, all, ordered[..i]);
      if exists parent :: parent in collapsed && Covers(parent, target) {
        SkipCovered(collapsed, ordered[..i], all, target);
        continue;
      }
      KeepMinimal(collapsed, ordered[..i], all, target);
      collapsed := collapsed + [target];
    }
    assert ordered[..|ordered|] == ordered;
    AllSeen(collapsed, ordered, all);
  }

  lemma EarlierOnesAreSeen(ordered: seq<string>, i: nat)
    requires Sorted(ordered) && i < |ordered|
    ensures forall t :: t in ordered[..i] <==> t in ordered && Earlier(t, ordered[i])
  {
    forall t | t in ordered && Earlier(t, ordered[i]) ensures t in ordered[..i] {
      var k :| 0 <= k < |ordered| && ordered[k] == t;
      EarlierIsTotal(t, ordered[i]);
    }
  }

  /** Some earlier minimal target covers `target` exactly when it is not minimal itself. */
  lemma CoveredIffNotMinimal(target: string, all: set<string>, before: seq<string>)
    requires target in all && forall t :: t in before <==> t in all && Earlier(t, target)
    ensures (exists parent :: parent in before && Minimal(parent, all) && Covers(parent, target)) <==> !Minimal(target, all)
  {
    if Minimal(target, all) {
      forall parent | parent in before && Covers(parent, target) ensures false {
        EarlierIsTotal(parent, target);
      }
    } else {
      var m := MinimalCoverExists(target, all);
    }
  }

  // ----- What the reduction is -----

  lemma {:induction false} SortedIsUnique(a: seq<string>, b: seq<string>)
    requires Sorted(a) && Sorted(b) && forall t :: t in a <==> t in b
    ensures a == b
  {
    assert a != [] ==> a[0] in a && a[0] in b;
    assert b != [] ==> b[0] in b && b[0] in a;
    if a != [] {
      var i :| 0 <= i < |b| && b[i] == a[0];
      var j :| 0 <= j < |a| && a[j] == b[0];
      EarlierIsTotal(a[0], b[0]);
      assert a[0] == b[0];
      forall t ensures t in a[1..] <==> t in b[1..] {
        EarlierIsTotal(t, t);
        assert t in a <==> t == a[0] || t in a[1..];
        assert t in b <==> t == b[0] || t in b[1..];
      }
      SortedIsUnique(a[1..], b[1..]);
    }
  }

  /**
   * The result depends only on the set of targets, hence not on order or repetition; it is
   * an antichain, covers every target, and reducing it again changes nothing.
   */
  lemma CollapseIsMinimalCover(targets: set<string>, r: seq<string>)
    requires Collapsed(r, targets)
    ensures forall other :: Collapsed(other, targets) ==> other == r
    ensures forall a, b :: a in r && b in r && Covers(a, b) ==> a == b
    ensures forall t :: t in targets ==> exists m :: m in r && Covers(m, t)
    ensures Collapsed(r, set t | t in r)
  {
    forall other | Collapsed(other, targets) ensures other == r {
      SortedIsUnique(other, r);
    }
    forall a, b | a in r && b in r && Covers(a, b) ensures a == b {
      if a != b {
        CoverIsNotLater(a, b);
        EarlierIsTotal(a, b);
        assert Earlier(b, a) && Covers(b, a);
      }
    }
    forall t | t in targets ensures exists m :: m in r && Covers(m, t) {
      var m := MinimalCoverExists(t, targets);
    }
  }

  // ----- The selection -----

  const POSTGRES_ONLY_TESTS := {
    "apps/gateway/tests/adapters/db/test_knowledge_document_ingestion_repository_postgres.py",
    "apps/gateway/tests/integration/test_agent_builder_intent_usage_postgres.py",
    "apps/gateway/tests/integration/test_agent_builder_model_selection_db.py",
    "apps/gateway/tests/integration/test_agent_builder_primary_workflow_db.py",
    "apps/gateway/tests/integration/test_agent_builder_workflow_cas.py",
    "apps/memory/tests/adapters/test_disposable_postgres.py"
  }

  const EXCLUDED_TEST_PARTS := {"e2e", "evaluation", "load", "manual"}

  datatype Config = Config(testRoot: string, smokeTargets: set<string>)

  /** The checkout, and the heuristics that propose further targets, left abstract. */
  datatype Project = Project(
    exists_: string -> bool,
    isFile: string -> bool,
    resolve: string -> Option<string>,
    explicitTargets: (string, seq<string>) -> Option<set<string>>,
    featureTargets: seq<string> -> set<string>,
    layerFallback: (string, seq<string>) -> set<string>)

  datatype SelectError = BadPath(error: PathError) | ExplicitTargetMissing | NoSafeTargets

  /** Under the component's tests once resolved, and neither Postgres-only nor in an excluded directory. */
  predicate IsAllowedTest(project: Project, config: Config, path: string) {
    && project.resolve(path).Some?
    && var relative := project.resolve(path).value;
    && (StartsWith(relative, config.testRoot + "/") || relative == config.testRoot)
    && relative !in POSTGRES_ONLY_TESTS
    && forall part :: part in Parse(relative).tail ==> part !in EXCLUDED_TEST_PARTS
  }

  predicate IsChangedTest(project: Project, config: Config, path: string) {
    && StartsWith(path, config.testRoot + "/") && project.isFile(path)
    && StartsWith(NameOf(path), "test_") && EndsWith(NameOf(path), ".py")
    && IsAllowedTest(project, config, path)
  }

  /** Allowed are files whose resolved path lies in the component's tests, outside the four kinds of slow ones. */
  lemma AllowedIff(project: Project, config: Config, path: string)
    ensures IsAllowedTest(project, config, path) <==>
      exists relative ::
        && project.resolve(path) == Some(relative)
        && (relative == config.testRoot || exists rest :: relative == config.testRoot + "/" + rest)
        && relative !in POSTGRES_ONLY_TESTS
        && (forall part :: part in {"e2e", "evaluation", "load", "manual"} ==> part !in Split(relative, '/'))
  {
    if project.resolve(path).Some? {
      var relative := project.resolve(path).value;
      PrefixIff(relative, config.testRoot + "/");
      forall part | part in {"e2e", "evaluation", "load", "manual"}
        ensures part in Parse(relative).tail <==> part in Split(relative, '/')
      {
        KeptHolds(Split(relative, '/'), part);
      }
    }
  }

  /** Changed tests are allowed files of the component that pytest takes for tests by their names. */
  lemma ChangedTestIff(project: Project, config: Config, path: string)
    ensures IsChangedTest(project, config, path) <==>
      && (exists rest :: path == config.testRoot + "/" + rest) && project.isFile(path)
      && (exists stem :: NameOf(path) == "test_" + stem) && (exists stem :: NameOf(path) == stem + ".py")
      && IsAllowedTest(project, config, path)
  {
    PrefixIff(path, config.testRoot + "/");
    PrefixIff(NameOf(path), "test_");
    SuffixIff(NameOf(path), ".py");
  }

  method ChangedTestTargets(project: Project, config: Config, paths: seq<string>) returns (targets: set<string>)
    ensures forall t :: t in targets <==> t in paths && IsChangedTest(project, config, t)
  {
    hide IsChangedTest;
    targets := {};
    for i := 0 to |paths|
      invariant forall t :: t in targets <==> t in paths[..i] && IsChangedTest(project, config, t)
    {
      if IsChangedTest(project, config, paths[i]) {
        targets := targets + {paths[i]};
      }
    }
    assert paths[..|paths|] == paths;
  }

  predicate CoveredBy(targets: seq<string>, path: string) {
    exists m :: m in targets && Covers(m, path)
  }

  /** Every path can be normalised, and its result again. */
  predicate AllStayNormal(raw: seq<string>) {
    forall p :: p in raw ==> NormalizeRepoPath(p).Success? && !HasDrive(NormalizeRepoPath(p).value)
  }

  /** Normalises twice, as two of the steps do; drive-like results fail the second time. */
  method NormalizePaths(raw: seq<string>) returns (r: Result<seq<string>, PathError>)
    ensures r.Failure? <==> !AllStayNormal(raw)
    ensures r.Success? ==> r == NormalizeEach(raw)
    ensures r.Success? ==> forall p :: p in r.value <==> exists i :: 0 <= i < |raw| && NormalizeRepoPath(raw[i]) == Success(p)
  {
    hide NormalizeRepoPath, NormalizeEach, HasDrive;
    r := NormalizeAll(raw);
    NormalizeEachIsPointwise(raw);
    if r.Success? {
      var paths := r.value;
      forall i | 0 <= i < |raw|
        ensures NormalizeRepoPath(paths[i]) == if HasDrive(paths[i]) then Failure(MustBeRelative) else Success(paths[i])
      {
        NormalizeTwice(raw[i]);
      }
      r := NormalizeAll(paths);
      NormalizeEachIsPointwise(paths);
      if r.Success? {
        assert r.value == paths;
        forall p | p in raw ensures !HasDrive(NormalizeRepoPath(p).value) {
          var i :| 0 <= i < |raw| && raw[i] == p;
          assert paths[i] in paths;
        }
      } else {
        var bad :| bad in paths && NormalizeRepoPath(bad).Failure?;
        var i :| 0 <= i < |paths| && paths[i] == bad;
        assert raw[i] in raw && HasDrive(NormalizeRepoPath(raw[i]).value);
      }
    }
  }

  /** A changed test, or a target that the contract table or a feature names. */
  predicate IsNamed(project: Project, config: Config, component: string, paths: seq<string>, t: string) {
    || (t in paths && IsChangedTest(project, config, t))
    || (project.explicitTargets(component, paths).Some? && t in project.explicitTargets(component, paths).value)
    || t in project.featureTargets(paths)
  }

  ghost predicate NothingIsNamed(project: Project, config: Config, component: string, paths: seq<string>) {
    forall t :: !IsNamed(project, config, component, paths, t)
  }

  /** Smoke targets run when they are due, and when neither names nor the layers give any target. */
  ghost predicate IsSmokeTarget(
      project: Project, config: Config, component: string, paths: seq<string>, broad: bool, t: string)
  {
    && t in config.smokeTargets && project.exists_(t)
    && (SmokeIsDue(component, broad)
        || (NothingIsNamed(project, config, component, paths) && project.layerFallback(component, paths) == {}))
  }

  /** What is proposed: the named targets; without any, those of the layers unless everything runs; smoke targets. */
  ghost predicate IsProposed(
      project: Project, config: Config, component: string, paths: seq<string>, broad: bool, t: string)
  {
    || IsNamed(project, config, component, paths, t)
    || (!broad && NothingIsNamed(project, config, component, paths) && t in project.layerFallback(component, paths))
    || IsSmokeTarget(project, config, component, paths, broad, t)
  }

  /** The proposed targets, unless an explicit one is missing. */
  method ProposeTargets(project: Project, config: Config, component: string, paths: seq<string>, broad: bool)
    returns (r: Option<set<string>>)
    ensures r.None? <==> project.explicitTargets(component, paths).None?
    ensures r.Some? ==> forall t :: t in r.value <==> IsProposed(project, config, component, paths, broad, t)
  {
    var smoke := set t | t in config.smokeTargets && project.exists_(t);
    var targets := ChangedTestTargets(project, config, paths);
    var explicit := project.explicitTargets(component, paths);
    if explicit.None? {
      return None;
    }
    targets := targets + explicit.value + project.featureTargets(paths);
    ghost var named := targets;
    hide IsChangedTest;
    assert forall t :: t in named <==> IsNamed(project, config, component, paths, t);
    assert named == {} <==> NothingIsNamed(project, config, component, paths);
    if broad {
      targets := targets + smoke;
    } else if targets == {} {
      targets := targets + project.layerFallback(component, paths);
    }
    if targets == {} {
      targets := targets + smoke;
    }
    if component in {"gateway", "memory"} {
      targets := targets + smoke;
    }
    hide IsNamed, NothingIsNamed;
    r := Some(targets);
  }

  predicate SmokeIsDue(component: string, broad: bool) { broad || component in {"gateway", "memory"} }

  predicate Safe(project: Project, config: Config, t: string) {
    project.exists_(t) && IsAllowedTest(project, config, t)
  }

  /** A changed test of the component, by its normalised path. */
  ghost predicate ChangedTest(project: Project, config: Config, raw: seq<string>, path: string) {
    IsChangedTest(project, config, path) && exists i :: 0 <= i < |raw| && NormalizeRepoPath(raw[i]) == Success(path)
  }

  /** Existing, allowed targets, in order, none inside another. */
  ghost predicate SafeAntichain(project: Project, config: Config, targets: seq<string>) {
    && targets != [] && Sorted(targets)
    && (forall t :: t in targets ==> Safe(project, config, t))
    && (forall a, b :: a in targets && b in targets && Covers(a, b) ==> a == b)
  }

  /** A proposal for the raw paths, by their normalised forms, that is safe. */
  ghost predicate IsSafeProposal(
      project: Project, config: Config, component: string, raw: seq<string>, broad: bool, t: string)
  {
    && NormalizeEach(raw).Success?
    && IsProposed(project, config, component, NormalizeEach(raw).value, broad, t) && Safe(project, config, t)
  }

  /**
   * A selection consists of safe proposals, none inside another, and covers all of them, so
   * every allowed changed test file, and the safe smoke targets where they are due.  Each of the
   * three errors has its exact condition: a path that does not stay normal; otherwise a missing
   * explicit target; otherwise no safe proposal.
   */
  method SelectPytestTargets(project: Project, config: Config, component: string, raw: seq<string>, broad: bool)
    returns (r: Result<seq<string>, SelectError>)
    requires forall p :: project.isFile(p) ==> project.exists_(p)
    ensures r.Success? ==> SafeAntichain(project, config, r.value)
    ensures r.Success? ==>
      && (forall t :: t in r.value ==> IsSafeProposal(project, config, component, raw, broad, t))
      && (forall t :: IsSafeProposal(project, config, component, raw, broad, t) ==> CoveredBy(r.value, t))
    ensures r.Success? ==> forall path :: ChangedTest(project, config, raw, path) ==> CoveredBy(r.value, path)
    ensures r.Success? && SmokeIsDue(component, broad) ==>
      forall t :: t in config.smokeTargets && Safe(project, config, t) ==> CoveredBy(r.value, t)
    ensures r.Failure? && r.error.BadPath? <==> !AllStayNormal(raw)
    ensures r == Failure(ExplicitTargetMissing) <==>
      && AllStayNormal(raw) && NormalizeEach(raw).Success?
      && project.explicitTargets(component, NormalizeEach(raw).value).None?
    ensures r == Failure(NoSafeTargets) <==>
      && AllStayNormal(raw) && NormalizeEach(raw).Success?
      && project.explicitTargets(component, NormalizeEach(raw).value).Some?
      && forall t :: !IsSafeProposal(project, config, component, raw, broad, t)
    ensures r == Failure(NoSafeTargets) ==> forall path :: !ChangedTest(project, config, raw, path)
  {
    var paths := NormalizePaths(raw);
    if paths.Failure? {
      return Failure(BadPath(paths.error));
    }
    var proposed := ProposeTargets(project, config, component, paths.value, broad);
    if proposed.None? {
      return Failure(ExplicitTargetMissing);
    }
    var reduced := ReduceTargets(project, config, proposed.value);
    forall path | ChangedTest(project, config, raw, path)
      ensures IsSafeProposal(project, config, component, raw, broad, path)
    {
      assert path in paths.value;
    }
    hide IsNamed, NothingIsNamed, NormalizeEach, IsAllowedTest, SafeAntichain, CoveredBy, ChangedTest;
    if reduced.None? {
      return Failure(NoSafeTargets);
    }
    r := Success(reduced.value);
  }

  /** Drops the unsafe proposals and collapses the rest. */
  method ReduceTargets(project: Project, config: Config, proposed: set<string>) returns (r: Option<seq<string>>)
    ensures r.Some? ==> SafeAntichain(project, config, r.value) && forall t :: t in r.value ==> t in proposed
    ensures r.Some? ==> forall t :: t in proposed && Safe(project, config, t) ==> CoveredBy(r.value, t)
    ensures r.None? <==> forall t :: t in proposed ==> !Safe(project, config, t)
  {
    var valid := set t | t in proposed && Safe(project, config, t);
    if valid == {} {
      assert forall t :: t in proposed && Safe(project, config, t) ==> t in valid;
      return None;
    }
    var listed := SortTargets(valid);
    var collapsed := CollapseNestedTargets(listed);
    assert (set t | t in listed) == valid;
    SelectionIsSafe(project, config, valid, collapsed);
    r := Some(collapsed);
  }

  lemma SelectionIsSafe(project: Project, config: Config, valid: set<string>, collapsed: seq<string>)
    requires valid != {} && Collapsed(collapsed, valid) && forall t :: t in valid ==> Safe(project, config, t)
    ensures SafeAntichain(project, config, collapsed)
    ensures forall t :: t in valid ==> CoveredBy(collapsed, t)
    ensures forall t :: t in collapsed ==> t in valid
  {
    CollapseIsMinimalCover(valid, collapsed);
    var t :| t in valid;
    assert CoveredBy(collapsed, t);
  }
}
