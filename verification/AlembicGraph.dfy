/** Validation of the Alembic revision graph: unique ids, known parents, no cycle, one head. */
module AlembicGraph {
  import opened Wrappers

  datatype Revision = Revision(revision: string, parents: seq<string>, path: string)

  datatype GraphError =
    | DuplicateRevision(id: string)
    | MissingParent(id: string, parent: string)
    | CycleDetected(at: string)
    | WrongHeadCount(heads: set<string>)

  type Graph = map<string, Revision>

  // ----- What the verdict is about -----

  ghost predicate UniqueIds(revisions: seq<Revision>) {
    forall i, j :: 0 <= i < j < |revisions| ==> revisions[i].revision != revisions[j].revision
  }

  ghost function IdsOf(revisions: seq<Revision>): set<string> {
    set i | 0 <= i < |revisions| :: revisions[i].revision
  }

  ghost predicate ParentsKnown(revisions: seq<Revision>) {
    forall i, p :: 0 <= i < |revisions| && p in revisions[i].parents ==> p in IdsOf(revisions)
  }

  ghost predicate OccursTwice(revisions: seq<Revision>, id: string) {
    exists i, j :: 0 <= i < j < |revisions| && revisions[i].revision == id && revisions[j].revision == id
  }

  /** Some revision `id` names a parent that is no revision. */
  ghost predicate LacksParent(revisions: seq<Revision>, id: string, parent: string) {
    && parent !in IdsOf(revisions)
    && exists i :: 0 <= i < |revisions| && revisions[i].revision == id && parent in revisions[i].parents
  }

  ghost predicate Edge(g: Graph, child: string, parent: string) {
    child in g && parent in g[child].parents
  }

  /** A walk from a revision up through parents. */
  ghost predicate Walk(g: Graph, p: seq<string>) {
    |p| > 0 && forall i :: 0 <= i < |p| - 1 ==> Edge(g, p[i], p[i + 1])
  }

  ghost predicate HasCycle(g: Graph) {
    exists p :: Cycle(g, p)
  }

  ghost predicate OnCycle(g: Graph, id: string) {
    exists p :: Cycle(g, p) && p[0] == id
  }

  ghost predicate Cycle(g: Graph, p: seq<string>) {
    |p| >= 2 && Walk(g, p) && p[0] == p[|p| - 1]
  }

  /** `ancestor` is `id` or reached from it through parents. */
  ghost predicate AncestorOrSelf(g: Graph, ancestor: string, id: string) {
    exists p :: Walk(g, p) && p[0] == id && p[|p| - 1] == ancestor
  }

  ghost predicate IsHead(g: Graph, id: string) {
    id in g && forall child :: child in g ==> id !in g[child].parents
  }

  ghost predicate ClosedGraph(g: Graph) {
    forall id, p :: id in g && p in g[id].parents ==> p in g
  }

  /** The graph of a list of revisions with unique ids. */
  ghost predicate GraphOf(g: Graph, revisions: seq<Revision>) {
    && g.Keys == IdsOf(revisions)
    && forall i :: 0 <= i < |revisions| ==> g[revisions[i].revision] == revisions[i]
  }

  /** Every id once, and all parents of an id before it. */
  ghost predicate ParentsFirst(g: Graph, order: seq<string>) {
    && (forall i, j :: 0 <= i < j < |order| ==> order[i] != order[j])
    && forall i :: 0 <= i < |order| ==>
      order[i] in g && forall p :: p in g[order[i]].parents ==> p in order[..i]
  }

  // ----- Depth-first search -----

  ghost function Members(ids: seq<string>): set<string> { set id | id in ids }

  /** The ids being visited form a walk of distinct ids; the visited ones are ordered parents first. */
  ghost predicate SearchState(g: Graph, visiting: set<string>, visited: set<string>, stack: seq<string>, order: seq<string>) {
    && visiting == Members(stack) && visiting <= g.Keys && visiting !! visited
    && visited == Members(order) && ParentsFirst(g, order)
    && (forall i :: 0 <= i < |stack| - 1 ==> Edge(g, stack[i], stack[i + 1]))
  }

  lemma EnterId(g: Graph, visiting: set<string>, visited: set<string>, stack: seq<string>, order: seq<string>, id: string)
    requires SearchState(g, visiting, visited, stack, order) && id in g && id !in visiting && id !in visited
    requires stack != [] ==> Edge(g, stack[|stack| - 1], id)
    ensures SearchState(g, visiting + {id}, visited, stack + [id], order)
  {
    assert Members(stack + [id]) == Members(stack) + {id};
  }

  lemma SearchClosesCycle(
      g: Graph, visiting: set<string>, visited: set<string>, stack: seq<string>, order: seq<string>, id: string)
    requires SearchState(g, visiting, visited, stack, order) && id in visiting
    requires stack != [] ==> Edge(g, stack[|stack| - 1], id)
    ensures OnCycle(g, id)
  {
    StackClosesCycle(g, stack, id);
  }

  lemma LeaveId(
      g: Graph, visiting: set<string>, before: set<string>, visited: set<string>, stack: seq<string>,
      earlier: seq<string>, order: seq<string>, id: string)
    requires SearchState(g, visiting, before, stack, earlier)
    requires SearchState(g, visiting + {id}, visited, stack + [id], order)
    requires id in g && id !in visiting && forall p :: p in g[id].parents ==> p in visited
    ensures SearchState(g, visiting, visited + {id}, stack, order + [id])
  {
    assert Members(order + [id]) == Members(order) + {id};
    var longer := order + [id];
    forall i | 0 <= i < |longer|
      ensures longer[i] in g && forall p :: p in g[longer[i]].parents ==> p in longer[..i]
    {
      assert longer[..i] == order[..i];
    }
    forall i | 0 <= i < |stack| - 1 ensures Edge(g, stack[i], stack[i + 1]) {
      assert (stack + [id])[i] == stack[i] && (stack + [id])[i + 1] == stack[i + 1];
    }
  }

  class Search {
    const byId: Graph
    var visiting: set<string>
    var visited: set<string>
    /** The ids on the call stack, outermost first. */
    ghost var stack: seq<string>
    /** The ids in the order in which they were completed. */
    ghost var order: seq<string>

    ghost predicate Valid()
      reads this
    {
      ClosedGraph(byId) && SearchState(byId, visiting, visited, stack, order)
    }

    constructor (byId: Graph)
      requires ClosedGraph(byId)
      ensures Valid() && this.byId == byId && visiting == {} && stack == [] && order == []
    {
      this.byId := byId;
      visiting, visited, stack, order := {}, {}, [], [];
    }

    /** Completes `id` and everything above it, or names an id on a cycle. */
    method Visit(id: string) returns (cycleAt: Option<string>)
      requires Valid() && id in byId
      requires stack != [] ==> Edge(byId, stack[|stack| - 1], id)
      modifies this
      ensures cycleAt.None? ==> Valid() && stack == old(stack) && visiting == old(visiting)
      ensures cycleAt.None? ==> old(order) <= order && old(visited) <= visited && id in visited
      ensures cycleAt.Some? ==> OnCycle(byId, cycleAt.value)
      decreases byId.Keys - visiting
    {
      hide SearchState, OnCycle;
      if id in visiting {
        SearchClosesCycle(byId, visiting, visited, stack, order, id);
        return Some(id);
      }
      if id in visited {
        return None;
      }
      EnterId(byId, visiting, visited, stack, order, id);
      visiting := visiting + {id};
      stack := stack + [id];
      var parents := byId[id].parents;
      for i := 0 to |parents|
        invariant Valid() && stack == old(stack) + [id] && visiting == old(visiting) + {id}
        invariant old(order) <= order && old(visited) <= visited
        invariant forall j :: 0 <= j < i ==> parents[j] in visited
      {
        assert Edge(byId, id, parents[i]);
        cycleAt := Visit(parents[i]);
        if cycleAt.Some? {
          return;
        }
      }
      LeaveId(byId, old(visiting), old(visited), visited, old(stack), old(order), order, id);
      visiting := visiting - {id};
      stack := stack[..|stack| - 1];
      visited := visited + {id};
      order := order + [id];
      cycleAt := None;
    }
  }

  lemma StackClosesCycle(g: Graph, stack: seq<string>, id: string)
    requires id in stack
    requires forall i :: 0 <= i < |stack| - 1 ==> Edge(g, stack[i], stack[i + 1])
    requires Edge(g, stack[|stack| - 1], id)
    ensures OnCycle(g, id)
  {
    var k :| 0 <= k < |stack| && stack[k] == id;
    assert Cycle(g, stack[k..] + [id]) && (stack[k..] + [id])[0] == id;
  }

  // ----- What a completed search shows -----

  ghost function IndexIn(order: seq<string>, id: string): (i: nat)
    requires id in order
    ensures i < |order| && order[i] == id
  {
    var i :| 0 <= i < |order| && order[i] == id; i
  }

  /** Along a walk the position in a parents-first order falls. */
  lemma {:induction false} WalkDescends(g: Graph, order: seq<string>, p: seq<string>)
    requires ParentsFirst(g, order) && Walk(g, p) && p[0] in order
    ensures p[|p| - 1] in order
    ensures |p| >= 2 ==> IndexIn(order, p[|p| - 1]) < IndexIn(order, p[0])
  {
    if |p| >= 2 {
      assert Edge(g, p[0], p[1]);
      var i := IndexIn(order, p[0]);
      assert p[1] in order[..i];
      WalkDescends(g, order, p[1..]);
    }
  }

  lemma CompleteOrderIsAcyclic(g: Graph, order: seq<string>)
    requires ParentsFirst(g, order) && g.Keys == Members(order)
    ensures !HasCycle(g)
  {
    forall p | Cycle(g, p) ensures false {
      assert Edge(g, p[0], p[1]);
      assert p[0] in order;
      WalkDescends(g, order, p);
    }
  }

  /** With one head only, everything hangs below it. */
  lemma {:induction false} AllBelowTheHead(g: Graph, order: seq<string>, head: string, i: nat)
    requires ParentsFirst(g, order) && g.Keys == Members(order)
    requires forall id :: IsHead(g, id) <==> id == head
    requires i < |order|
    ensures AncestorOrSelf(g, order[i], head)
    decreases |order| - i
  {
    var id := order[i];
    if id == head {
      assert Walk(g, [id]);
    } else {
      assert id in g && !IsHead(g, id);
      var child :| child in g && id in g[child].parents;
      assert child in order;
      var c := IndexIn(order, child);
      assert id in order[..c];
      AllBelowTheHead(g, order, head, c);
      var p :| Walk(g, p) && p[0] == head && p[|p| - 1] == child;
      var longer := p + [id];
      assert Edge(g, child, id);
      assert Walk(g, longer) && longer[0] == head && longer[|longer| - 1] == id;
    }
  }

  // ----- The validation -----

  method BuildIndex(revisions: seq<Revision>) returns (r: Result<Graph, GraphError>)
    ensures r.Success? <==> UniqueIds(revisions)
    ensures r.Success? ==> GraphOf(r.value, revisions)
    ensures r.Failure? ==> r.error.DuplicateRevision? && OccursTwice(revisions, r.error.id)
  {
    var byId: Graph := map[];
    for i := 0 to |revisions|
      invariant UniqueIds(revisions[..i]) && GraphOf(byId, revisions[..i])
    {
      var item := revisions[i];
      assert revisions[..i + 1] == revisions[..i] + [item];
      if item.revision in byId {
        var k :| 0 <= k < i && revisions[..i][k].revision == item.revision;
        assert revisions[k].revision == revisions[i].revision;
        return Failure(DuplicateRevision(item.revision));
      }
      byId := byId[item.revision := item];
      assert IdsOf(revisions[..i + 1]) == IdsOf(revisions[..i]) + {item.revision};
    }
    assert revisions[..|revisions|] == revisions;
    r := Success(byId);
  }

  method CheckParents(revisions: seq<Revision>, byId: Graph) returns (r: Result<(), GraphError>)
    requires GraphOf(byId, revisions)
    ensures r.Success? <==> ParentsKnown(revisions)
    ensures r.Failure? ==> r.error.MissingParent? && LacksParent(revisions, r.error.id, r.error.parent)
  {
    for i := 0 to |revisions|
      invariant forall k, p :: 0 <= k < i && p in revisions[k].parents ==> p in byId
    {
      var parents := revisions[i].parents;
      for j := 0 to |parents|
        invariant forall k :: 0 <= k < j ==> parents[k] in byId
      {
        if parents[j] !in byId {
          assert parents[j] in revisions[i].parents;
          return Failure(MissingParent(revisions[i].revision, parents[j]));
        }
      }
    }
    r := Success(());
  }

  method VisitAll(revisions: seq<Revision>, byId: Graph) returns (r: Result<(), GraphError>, ghost order: seq<string>)
    requires GraphOf(byId, revisions) && ClosedGraph(byId)
    ensures r.Success? <==> !HasCycle(byId)
    ensures r.Success? ==> ParentsFirst(byId, order) && byId.Keys == Members(order)
    ensures r.Failure? ==> r.error.CycleDetected? && OnCycle(byId, r.error.at)
  {
    var search := new Search(byId);
    order := [];
    for i := 0 to |revisions|
      invariant search.Valid() && search.byId == byId && search.stack == [] && fresh(search)
      invariant forall k :: 0 <= k < i ==> revisions[k].revision in search.visited
    {
      var cycleAt := search.Visit(revisions[i].revision);
      if cycleAt.Some? {
        return Failure(CycleDetected(cycleAt.value)), order;
      }
    }
    order := search.order;
    assert byId.Keys == Members(order);
    CompleteOrderIsAcyclic(byId, order);
    r := Success(());
  }

  /** Unique ids, known parents, no cycle, and `head` the only id that is nobody's parent. */
  ghost predicate ValidGraph(revisions: seq<Revision>, head: string) {
    UniqueIds(revisions) && ParentsKnown(revisions) && exists g :: GraphOf(g, revisions) && OneHead(g, head)
  }

  ghost predicate OneHead(g: Graph, head: string) {
    !HasCycle(g) && forall id :: IsHead(g, id) <==> id == head
  }

  /** Each error names the first requirement that fails, in the order of the checks. */
  ghost predicate Explains(error: GraphError, revisions: seq<Revision>) {
    match error
    case DuplicateRevision(id) => OccursTwice(revisions, id)
    case MissingParent(id, parent) => UniqueIds(revisions) && LacksParent(revisions, id, parent)
    case CycleDetected(at) =>
      UniqueIds(revisions) && ParentsKnown(revisions) && exists g :: GraphOf(g, revisions) && OnCycle(g, at)
    case WrongHeadCount(heads) =>
      (UniqueIds(revisions) && ParentsKnown(revisions) && |heads| != 1)
      && exists g :: GraphOf(g, revisions) && !HasCycle(g) && HeadsOf(g) == heads
  }

  ghost predicate AllBelow(revisions: seq<Revision>, head: string) {
    exists g :: GraphOf(g, revisions) && forall id :: id in g ==> AncestorOrSelf(g, id, head)
  }

  ghost function HeadsOf(g: Graph): (heads: set<string>)
    ensures forall id :: id in heads <==> IsHead(g, id)
  {
    set id | id in g && IsHead(g, id)
  }

  /** The ids that are nobody's parent, and the only one of them. */
  method OnlyHead(byId: Graph) returns (r: Result<string, GraphError>)
    ensures r.Success? ==> HeadsOf(byId) == {r.value}
    ensures r.Failure? ==> r.error.WrongHeadCount? && r.error.heads == HeadsOf(byId) && |r.error.heads| != 1
  {
    var parentIds := set id, p | id in byId && p in byId[id].parents :: p;
    var heads := byId.Keys - parentIds;
    assert heads == HeadsOf(byId);
    if |heads| != 1 {
      return Failure(WrongHeadCount(heads));
    }
    var head :| head in heads;
    SingletonSet(heads, head);
    r := Success(head);
  }

  /**
   * Succeeds exactly on graphs with unique ids, known parents, no cycle and one head; then
   * it returns that head, and every revision is the head or one of its ancestors.
   */
  method ValidateRevisionGraph(revisions: seq<Revision>) returns (r: Result<string, GraphError>)
    ensures r.Success? <==> exists head :: ValidGraph(revisions, head)
    ensures r.Success? ==> ValidGraph(revisions, r.value) && AllBelow(revisions, r.value)
    ensures r.Failure? ==> Explains(r.error, revisions)
  {
    var index := BuildIndex(revisions);
    if index.Failure? {
      return Failure(index.error);
    }
    var byId := index.value;
    GraphIsUnique(revisions, byId);
    var parents := CheckParents(revisions, byId);
    if parents.Failure? {
      return Failure(parents.error);
    }
    KnownParentsCloseGraph(revisions, byId);
    var visit, order := VisitAll(revisions, byId);
    if visit.Failure? {
      return Failure(visit.error);
    }
    r := OnlyHead(byId);
    if r.Success? {
      AcceptedGraph(revisions, byId, order, r.value);
    } else {
      forall head | ValidGraph(revisions, head) ensures HeadsOf(byId) == {head} {}
    }
  }

  lemma AcceptedGraph(revisions: seq<Revision>, g: Graph, order: seq<string>, head: string)
    requires UniqueIds(revisions) && ParentsKnown(revisions) && GraphOf(g, revisions) && !HasCycle(g)
    requires ParentsFirst(g, order) && g.Keys == Members(order) && HeadsOf(g) == {head}
    ensures ValidGraph(revisions, head) && AllBelow(revisions, head)
  {
    assert OneHead(g, head);
    forall id | id in g ensures AncestorOrSelf(g, id, head) {
      AllBelowTheHead(g, order, head, IndexIn(order, id));
    }
  }

  lemma SingletonSet(s: set<string>, x: string)
    requires |s| == 1 && x in s
    ensures s == {x}
  {
    assert |s - {x}| == 0;
  }

  lemma GraphIsUnique(revisions: seq<Revision>, g: Graph)
    requires GraphOf(g, revisions)
    ensures forall h :: GraphOf(h, revisions) ==> h == g
  {
    forall h | GraphOf(h, revisions) ensures h == g {
      forall id | id in g ensures h[id] == g[id] {
        var i :| 0 <= i < |revisions| && revisions[i].revision == id;
      }
    }
  }

  lemma KnownParentsCloseGraph(revisions: seq<Revision>, g: Graph)
    requires GraphOf(g, revisions) && ParentsKnown(revisions)
    ensures ClosedGraph(g)
  {
    forall id, p | id in g && p in g[id].parents ensures p in g {
      var i :| 0 <= i < |revisions| && revisions[i].revision == id;
    }
  }
}
