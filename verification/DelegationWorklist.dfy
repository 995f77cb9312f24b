/**
 * The bounded search through locally delegated CI files.  Reading a file, recognising
 * provider-specific content and finding the delegations of a file are left abstract.
 */
module DelegationWorklist {
  import opened Wrappers
  import opened Paths

  datatype Repo = Repo(
    read: string -> Option<string>,
    providerSpecific: string -> bool,
    delegated: (string, string) -> Option<set<string>>)

  const MAX_LOCAL_EXECUTION_FILES := 128
  const MAX_LOCAL_EXECUTION_DEPTH := 16

  /** Unreadable, provider-specific, or with a delegation that does not resolve. */
  predicate Bad(repo: Repo, path: string) {
    || repo.read(path).None?
    || repo.providerSpecific(repo.read(path).value)
    || repo.delegated(path, repo.read(path).value).None?
  }

  function References(repo: Repo, path: string): set<string>
    requires !Bad(repo, path)
  {
    repo.delegated(path, repo.read(path).value).value
  }

  /** What the search refuses: no content, content for a provider, or delegations that do not resolve. */
  predicate IsRefused(repo: Repo, path: string) {
    match repo.read(path)
    case None => true
    case Some(content) => repo.providerSpecific(content) || repo.delegated(path, content).None?
  }

  lemma RefusedIff(repo: Repo, path: string)
    ensures Bad(repo, path) <==> IsRefused(repo, path)
    ensures !IsRefused(repo, path) ==>
      References(repo, path) == repo.delegated(path, repo.read(path).value).value
  {
  }

  ghost predicate Delegates(repo: Repo, from: string, to: string) {
    !IsRefused(repo, from) && to in repo.delegated(from, repo.read(from).value).value
  }

  ghost predicate Chain(repo: Repo, p: seq<string>) {
    |p| > 0 && forall i :: 0 <= i < |p| - 1 ==> Delegates(repo, p[i], p[i + 1])
  }

  ghost predicate ChainBetween(repo: Repo, from: string, to: string, p: seq<string>) {
    Chain(repo, p) && p[0] == from && p[|p| - 1] == to
  }

  ghost predicate Reachable(repo: Repo, root: string, x: string) {
    exists p :: ChainBetween(repo, root, x, p)
  }

  ghost predicate ReachableWithin(repo: Repo, root: string, x: string, delegations: nat) {
    exists p :: ChainBetween(repo, root, x, p) && |p| <= delegations + 1
  }

  ghost predicate Simple(p: seq<string>) {
    forall i, j :: 0 <= i < j < |p| ==> p[i] != p[j]
  }

  // ----- The two verdicts -----

  /** The whole closure of the root is small, good, and within the depth limit. */
  ghost predicate ClosureIsSupported(repo: Repo, root: string) {
    exists closure: set<string> :: |closure| <= MAX_LOCAL_EXECUTION_FILES && IsGoodClosure(repo, root, closure)
  }

  ghost predicate IsGoodClosure(repo: Repo, root: string, closure: set<string>) {
    && (forall x :: x in closure <==> Reachable(repo, root, x))
    && (forall x :: x in closure ==> !IsRefused(repo, x) && ReachableWithin(repo, root, x, MAX_LOCAL_EXECUTION_DEPTH))
  }

  ghost predicate ReachesBadFile(repo: Repo, root: string) {
    exists x :: Reachable(repo, root, x) && IsRefused(repo, x)
  }

  ghost predicate ReachesTooManyFiles(repo: Repo, root: string) {
    exists xs: set<string> :: |xs| == MAX_LOCAL_EXECUTION_FILES + 1 && AllReachable(repo, root, xs)
  }

  ghost predicate AllReachable(repo: Repo, root: string, xs: set<string>) {
    forall x :: x in xs ==> Reachable(repo, root, x)
  }

  /** A chain without repetitions with one delegation more than the limit. */
  ghost predicate HasDeepChain(repo: Repo, root: string) {
    exists p :: Chain(repo, p) && p[0] == root && Simple(p) && |p| == MAX_LOCAL_EXECUTION_DEPTH + 2
  }

  ghost predicate HasUnsupportedWitness(repo: Repo, root: string) {
    ReachesBadFile(repo, root) || ReachesTooManyFiles(repo, root) || HasDeepChain(repo, root)
  }

  // ----- The search -----

  /** The elements of a set in some order. */
  method InSomeOrder(s: set<string>) returns (order: seq<string>)
    ensures forall x :: x in order <==> x in s
  {
    order := [];
    var rest := s;
    while rest != {}
      invariant rest <= s && forall x :: x in order <==> x in s - rest
    {
      var x :| x in rest;
      rest := rest - {x};
      order := order + [x];
    }
  }

  type Pending = seq<(string, nat)>

  /** A pending entry was found along a chain of as many delegations as its depth, all visited but the last. */
  ghost predicate Found(repo: Repo, root: string, visited: set<string>, entry: (string, nat), chain: seq<string>) {
    && ChainBetween(repo, root, entry.0, chain) && |chain| == entry.1 + 1
    && Simple(chain[..entry.1])
    && forall i :: 0 <= i < entry.1 ==> chain[i] in visited
  }

  ghost predicate AllFound(repo: Repo, root: string, visited: set<string>, pending: Pending, chains: seq<seq<string>>) {
    |chains| == |pending| && forall k :: 0 <= k < |pending| ==> Found(repo, root, visited, pending[k], chains[k])
  }

  ghost predicate Waiting(pending: Pending, x: string) {
    exists k :: 0 <= k < |pending| && pending[k].0 == x
  }

  /** Visited files are good and near, and what they delegate to is visited or waiting. */
  ghost predicate VisitedSoFar(repo: Repo, root: string, visited: set<string>, pending: Pending) {
    && |visited| <= MAX_LOCAL_EXECUTION_FILES
    && (root in visited || Waiting(pending, root))
    && (forall x :: x in visited ==> !Bad(repo, x) && ReachableWithin(repo, root, x, MAX_LOCAL_EXECUTION_DEPTH))
    && (forall x, y :: x in visited && Delegates(repo, x, y) ==> y in visited || Waiting(pending, y))
  }

  lemma EntryIsReachable(repo: Repo, root: string, visited: set<string>, entry: (string, nat), chain: seq<string>)
    requires Found(repo, root, visited, entry, chain)
    ensures Reachable(repo, root, entry.0)
    ensures entry.1 <= MAX_LOCAL_EXECUTION_DEPTH ==> ReachableWithin(repo, root, entry.0, MAX_LOCAL_EXECUTION_DEPTH)
  {
  }

  /** An unvisited entry that is too deep ends a chain without repetitions that is too long. */
  lemma DeepEntryHasDeepChain(repo: Repo, root: string, visited: set<string>, entry: (string, nat), chain: seq<string>)
    requires Found(repo, root, visited, entry, chain)
    requires entry.0 !in visited && entry.1 > MAX_LOCAL_EXECUTION_DEPTH
    ensures HasDeepChain(repo, root)
  {
    var p := chain[..MAX_LOCAL_EXECUTION_DEPTH + 2];
    forall i, j | 0 <= i < j < |p| ensures p[i] != p[j] {
      if j < entry.1 {
        assert chain[..entry.1][i] == p[i] && chain[..entry.1][j] == p[j];
      } else {
        assert p[i] in visited;
      }
    }
    assert Chain(repo, p) && p[0] == root && Simple(p);
  }

  lemma VisitedIsReachable(repo: Repo, root: string, visited: set<string>, pending: Pending)
    requires VisitedSoFar(repo, root, visited, pending)
    ensures AllReachable(repo, root, visited)
  {
    forall x | x in visited ensures Reachable(repo, root, x) {
      var p :| ChainBetween(repo, root, x, p) && |p| <= MAX_LOCAL_EXECUTION_DEPTH + 1;
    }
  }

  /** The entries of the references of a visited file extend its chain. */
  lemma ReferencesAreFound(
      repo: Repo, root: string, visited: set<string>, entry: (string, nat), chain: seq<string>, to: string)
    requires Found(repo, root, visited, entry, chain) && entry.0 !in visited
    requires Delegates(repo, entry.0, to)
    ensures Found(repo, root, visited + {entry.0}, (to, entry.1 + 1), chain + [to])
  {
    var longer := chain + [to];
    assert longer[..entry.1 + 1] == chain;
    forall i, j | 0 <= i < j < |chain| ensures chain[i] != chain[j] {
      if j < entry.1 {
        assert chain[..entry.1][i] == chain[i] && chain[..entry.1][j] == chain[j];
      } else {
        assert chain[i] in visited && chain[j] == entry.0;
      }
    }
    forall i | 0 <= i < |longer| - 1 ensures Delegates(repo, longer[i], longer[i + 1]) {
      if i < |chain| - 1 { assert Delegates(repo, chain[i], chain[i + 1]); }
    }
  }

  lemma FoundStaysFound(repo: Repo, root: string, visited: set<string>, more: set<string>, pending: Pending, chains: seq<seq<string>>)
    requires AllFound(repo, root, visited, pending, chains) && visited <= more
    ensures AllFound(repo, root, more, pending, chains)
  {
    forall k | 0 <= k < |pending| ensures Found(repo, root, more, pending[k], chains[k]) {
      assert Found(repo, root, visited, pending[k], chains[k]);
    }
  }

  /** Pushes the references of a file just visited. */
  method Push(repo: Repo, ghost root: string, ghost visited: set<string>, pending: Pending, ghost chains: seq<seq<string>>,
              entry: (string, nat), ghost chain: seq<string>)
    returns (pushed: Pending, ghost pushedChains: seq<seq<string>>)
    requires !Bad(repo, entry.0) && entry.0 !in visited && Found(repo, root, visited, entry, chain)
    requires AllFound(repo, root, visited, pending, chains)
    ensures AllFound(repo, root, visited + {entry.0}, pushed, pushedChains)
    ensures forall y :: Waiting(pushed, y) <==> Waiting(pending, y) || Delegates(repo, entry.0, y)
  {
    var references := InSomeOrder(References(repo, entry.0));
    pushed, pushedChains := pending, chains;
    FoundStaysFound(repo, root, visited, visited + {entry.0}, pending, chains);
    for i := 0 to |references|
      invariant |pushed| == |pending| + i && pending <= pushed
      invariant forall j :: 0 <= j < i ==> pushed[|pending| + j] == (references[j], entry.1 + 1)
      invariant AllFound(repo, root, visited + {entry.0}, pushed, pushedChains)
    {
      assert references[i] in references;
      ReferencesAreFound(repo, root, visited, entry, chain, references[i]);
      pushed, pushedChains := pushed + [(references[i], entry.1 + 1)], pushedChains + [chain + [references[i]]];
    }
    forall y ensures Waiting(pushed, y) <==> Waiting(pending, y) || Delegates(repo, entry.0, y) {
      if Waiting(pending, y) {
        var k :| 0 <= k < |pending| && pending[k].0 == y;
        assert pushed[k].0 == y;
      }
      if Delegates(repo, entry.0, y) {
        var j :| 0 <= j < |references| && references[j] == y;
        assert pushed[|pending| + j].0 == y;
      }
      if Waiting(pushed, y) {
        var k :| 0 <= k < |pushed| && pushed[k].0 == y;
        assert k >= |pending| ==> pushed[|pending| + (k - |pending|)].0 == references[k - |pending|];
      }
    }
  }

  /** Visiting a near, good file and pushing its references keeps the bookkeeping. */
  lemma VisitKeepsBookkeeping(
      repo: Repo, root: string, visited: set<string>, before: Pending, rest: Pending, entry: (string, nat), pushed: Pending)
    requires VisitedSoFar(repo, root, visited, before) && before == rest + [entry]
    requires |visited + {entry.0}| <= MAX_LOCAL_EXECUTION_FILES && !Bad(repo, entry.0)
    requires ReachableWithin(repo, root, entry.0, MAX_LOCAL_EXECUTION_DEPTH)
    requires forall y :: Waiting(pushed, y) <==> Waiting(rest, y) || Delegates(repo, entry.0, y)
    ensures VisitedSoFar(repo, root, visited + {entry.0}, pushed)
  {
    PoppedWasWaiting(before, rest, entry);
  }

  lemma PoppedWasWaiting(before: Pending, rest: Pending, entry: (string, nat))
    requires before == rest + [entry]
    ensures forall y :: Waiting(before, y) <==> Waiting(rest, y) || y == entry.0
  {
    forall y ensures Waiting(before, y) <==> Waiting(rest, y) || y == entry.0 {
      assert before[|rest|] == entry;
      if Waiting(rest, y) {
        var k :| 0 <= k < |rest| && rest[k].0 == y;
        assert before[k].0 == y;
      }
      if Waiting(before, y) {
        var k :| 0 <= k < |before| && before[k].0 == y;
        assert k < |rest| ==> rest[k].0 == y;
      }
    }
  }

  lemma {:induction false} ClosedSetHoldsChain(repo: Repo, closed: set<string>, p: seq<string>)
    requires Chain(repo, p) && p[0] in closed
    requires forall x, y :: x in closed && Delegates(repo, x, y) ==> y in closed
    ensures p[|p| - 1] in closed
  {
    if |p| > 1 {
      assert Delegates(repo, p[0], p[1]);
      ClosedSetHoldsChain(repo, closed, p[1..]);
    }
  }

  lemma DoneMeansSupported(repo: Repo, root: string, visited: set<string>)
    requires VisitedSoFar(repo, root, visited, [])
    ensures |visited| <= MAX_LOCAL_EXECUTION_FILES && IsGoodClosure(repo, root, visited)
  {
    VisitedIsReachable(repo, root, visited, []);
    forall x | Reachable(repo, root, x) ensures x in visited {
      var p :| ChainBetween(repo, root, x, p);
      ClosedSetHoldsChain(repo, visited, p);
    }
  }

  /** The reasons to stop at an unvisited entry. */
  predicate StopsAt(repo: Repo, visited: set<string>, entry: (string, nat)) {
    || entry.1 > MAX_LOCAL_EXECUTION_DEPTH
    || |visited + {entry.0}| > MAX_LOCAL_EXECUTION_FILES
    || Bad(repo, entry.0)
  }

  lemma StopHasWitness(
      repo: Repo, root: string, visited: set<string>, pending: Pending, entry: (string, nat), chain: seq<string>)
    requires VisitedSoFar(repo, root, visited, pending) && Found(repo, root, visited, entry, chain)
    requires entry.0 !in visited && StopsAt(repo, visited, entry)
    ensures HasUnsupportedWitness(repo, root)
  {
    EntryIsReachable(repo, root, visited, entry, chain);
    VisitedIsReachable(repo, root, visited, pending);
    if entry.1 > MAX_LOCAL_EXECUTION_DEPTH {
      DeepEntryHasDeepChain(repo, root, visited, entry, chain);
    } else if |visited + {entry.0}| > MAX_LOCAL_EXECUTION_FILES {
      assert AllReachable(repo, root, visited + {entry.0});
    }
  }

  /**
   * The search always ends.  False means that the files it read are exactly the closure, are
   * good, at most 128, and lie within 16 delegations; true is witnessed by a reachable bad
   * file, by 129 reachable files, or by a chain of 17 delegations without repetitions.
   * Without such a chain the verdict is exact.
   */
  method Search(repo: Repo, root: string) returns (unsupported: bool, ghost closure: set<string>)
    ensures !unsupported ==> |closure| <= MAX_LOCAL_EXECUTION_FILES && IsGoodClosure(repo, root, closure)
    ensures unsupported ==> HasUnsupportedWitness(repo, root)
    ensures !HasDeepChain(repo, root) ==>
      (unsupported <==> ReachesBadFile(repo, root) || ReachesTooManyFiles(repo, root))
  {
    var pending: Pending := [(root, 0)];
    ghost var chains := [[root]];
    var visited: set<string> := {};
    assert ChainBetween(repo, root, root, [root]) && pending[0].0 == root;
    while pending != []
      invariant AllFound(repo, root, visited, pending, chains)
      invariant VisitedSoFar(repo, root, visited, pending)
      decreases MAX_LOCAL_EXECUTION_FILES - |visited|, |pending|
    {
      var entry, rest := pending[|pending| - 1], pending[..|pending| - 1];
      ghost var before, chain := pending, chains[|chains| - 1];
      PoppedWasWaiting(before, rest, entry);
      pending, chains := rest, chains[..|chains| - 1];
      if entry.0 in visited {
        continue;
      }
      if StopsAt(repo, visited, entry) {
        StopHasWitness(repo, root, visited, before, entry, chain);
        return true, visited;
      }
      EntryIsReachable(repo, root, visited, entry, chain);
      pending, chains := Push(repo, root, visited, rest, chains, entry, chain);
      VisitKeepsBookkeeping(repo, root, visited, before, rest, entry, pending);
      visited := visited + {entry.0};
    }
    DoneMeansSupported(repo, root, visited);
    if !HasDeepChain(repo, root) {
      VerdictIsExactOnShallowGraphs(repo, root);
    }
    unsupported, closure := false, visited;
  }

  /** The search from a raw path: fails on a path that does not normalise, otherwise as `Search`. */
  method GithubExecutableContentIsUnsupported(repo: Repo, path: string) returns (r: Result<bool, PathError>)
    ensures r.Failure? <==> NormalizeRepoPath(path).Failure?
    ensures r == Success(false) ==> ClosureIsSupported(repo, NormalizeRepoPath(path).value)
    ensures r == Success(true) ==> HasUnsupportedWitness(repo, NormalizeRepoPath(path).value)
    ensures r.Success? && !HasDeepChain(repo, NormalizeRepoPath(path).value) ==>
      var root := NormalizeRepoPath(path).value;
      (r.value <==> ReachesBadFile(repo, root) || ReachesTooManyFiles(repo, root))
  {
    var normalized := NormalizeRepoPath(path);
    if normalized.Failure? {
      return Failure(normalized.error);
    }
    var unsupported, _ := Search(repo, normalized.value);
    r := Success(unsupported);
  }

  // ----- When the verdict does not depend on the order of the search -----

  /** Cutting out the part between two visits of one file leaves a chain. */
  lemma {:induction false} SimpleChainExists(repo: Repo, from: string, to: string, p: seq<string>) returns (q: seq<string>)
    requires ChainBetween(repo, from, to, p)
    ensures ChainBetween(repo, from, to, q) && Simple(q)
    decreases |p|
  {
    if Simple(p) {
      return p;
    }
    var i, j :| 0 <= i < j < |p| && p[i] == p[j];
    var shorter := p[..i] + p[j..];
    forall k | 0 <= k < |shorter| - 1 ensures Delegates(repo, shorter[k], shorter[k + 1]) {
      if k < i - 1 {
        assert Delegates(repo, p[k], p[k + 1]);
      } else if k == i - 1 {
        assert Delegates(repo, p[k], p[k + 1]) && shorter[k + 1] == p[j];
      } else {
        assert Delegates(repo, p[k - i + j], p[k - i + j + 1]);
      }
    }
    q := SimpleChainExists(repo, from, to, shorter);
  }

  lemma ReachableIsNear(repo: Repo, root: string, x: string)
    requires !HasDeepChain(repo, root) && Reachable(repo, root, x)
    ensures ReachableWithin(repo, root, x, MAX_LOCAL_EXECUTION_DEPTH)
  {
    var p :| ChainBetween(repo, root, x, p);
    var q := SimpleChainExists(repo, root, x, p);
    if |q| > MAX_LOCAL_EXECUTION_DEPTH + 1 {
      LongSimpleChainIsDeep(repo, root, q);
    }
  }

  lemma LongSimpleChainIsDeep(repo: Repo, root: string, q: seq<string>)
    requires Chain(repo, q) && Simple(q) && q[0] == root && |q| > MAX_LOCAL_EXECUTION_DEPTH + 1
    ensures HasDeepChain(repo, root)
  {
    var start := q[..MAX_LOCAL_EXECUTION_DEPTH + 2];
    assert Chain(repo, start) && Simple(start) && start[0] == root;
  }

  /** Grows a set of reachable files until it holds all of them. */
  lemma {:induction false} AllReachableFiles(repo: Repo, root: string, xs: set<string>) returns (all: set<string>)
    requires !ReachesTooManyFiles(repo, root) && AllReachable(repo, root, xs) && |xs| <= MAX_LOCAL_EXECUTION_FILES
    ensures |all| <= MAX_LOCAL_EXECUTION_FILES && forall x :: x in all <==> Reachable(repo, root, x)
    decreases MAX_LOCAL_EXECUTION_FILES - |xs|
  {
    if x :| Reachable(repo, root, x) && x !in xs {
      assert AllReachable(repo, root, xs + {x}) && |xs + {x}| == |xs| + 1;
      all := AllReachableFiles(repo, root, xs + {x});
    } else {
      all := xs;
    }
  }

  /**
   * Unless there is too deep a chain the verdict does not depend on the order of the search:
   * the closure is supported exactly when no bad file and no 129 files are reachable.
   */
  lemma VerdictIsExactOnShallowGraphs(repo: Repo, root: string)
    requires !HasDeepChain(repo, root)
    ensures ClosureIsSupported(repo, root) <==> !ReachesBadFile(repo, root) && !ReachesTooManyFiles(repo, root)
  {
    if ClosureIsSupported(repo, root) {
      var closure: set<string> :| |closure| <= MAX_LOCAL_EXECUTION_FILES && IsGoodClosure(repo, root, closure);
      forall xs: set<string> | AllReachable(repo, root, xs) ensures |xs| <= MAX_LOCAL_EXECUTION_FILES {
        SubsetIsSmaller(xs, closure);
      }
    } else if !ReachesTooManyFiles(repo, root) {
      var all := AllReachableFiles(repo, root, {});
      forall x | Reachable(repo, root, x) ensures ReachableWithin(repo, root, x, MAX_LOCAL_EXECUTION_DEPTH) {
        ReachableIsNear(repo, root, x);
      }
      assert !IsGoodClosure(repo, root, all);
    }
  }

  lemma {:induction false} SubsetIsSmaller(xs: set<string>, ys: set<string>)
    requires xs <= ys
    ensures |xs| <= |ys|
  {
    if x :| x in xs {
      SubsetIsSmaller(xs - {x}, ys - {x});
    }
  }
}
