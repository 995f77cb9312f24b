/** What every interleaving of the log handlers keeps. */
module LogSafety {
  import opened Wrappers
  import opened LogProtocol

  predicate TerminalRow(row: NodeRow) { row.status != NodeRunning }

  predicate NodeTerminal(db: Db, node: NodeId) { node in db.nodes && TerminalRow(db.nodes[node]) }

  // ----- The invariant -----

  /** Every node row has its run. */
  predicate ParentsExist(db: Db) {
    forall n :: n in db.nodes ==> db.nodes[n].run in db.runs
  }

  /** What a pending plan may assume about the database it will meet. */
  predicate PlanFits(db: Db, m: Message, plan: Plan) {
    match plan
    case InsertRun(run, row, _) => m.CreateRun? && run == RunOf(m) && row.status == RunRunning
    case UpdateRun(run, loaded, desired, _, _) =>
      && (m.FinishRun? || m.ErrorRun?) && run == RunOf(m) && run in db.runs
      && desired.status == (if m.FinishRun? then RunSuccess else RunFailed)
      && (loaded.status != RunRunning ==> db.runs[run].status != RunRunning)
    case InsertNode(node, row, _, _) =>
      && NodeOf(m) == Some(node) && row.run == RunOf(m)
      && row.status == (if m.CreateNode? then NodeRunning else if m.FinishNode? then NodeSuccess else NodeFailed)
    case UpdateNode(node, loaded, desired, _, _) =>
      && (m.FinishNode? || m.ErrorNode?) && NodeOf(m) == Some(node) && node in db.nodes
      && desired.status == (if m.FinishNode? then NodeSuccess else NodeFailed)
      && desired.run == loaded.run && desired.nodeType == loaded.nodeType
      && loaded.nodeType == db.nodes[node].nodeType
      && (TerminalRow(loaded) ==> TerminalRow(db.nodes[node]))
    case KeepPayloads(_) => m.CreateNode?
  }

  predicate HandlerFits(db: Db, handler: Handler) {
    && (handler.phase.Planned? ==> PlanFits(db, handler.message, handler.phase.plan))
    && (handler.phase.Notifying? ==>
      handler.phase.run == RunOf(handler.message) && !handler.message.FinishNode? && !handler.message.CreateRun?)
  }

  predicate Inv(s: State) {
    && ParentsExist(s.db)
    && forall h :: h in s.handlers ==> HandlerFits(s.db, s.handlers[h])
  }

  /** Rows are never removed, keep their type, and stay terminal once they are. */
  predicate Grows(before: Db, after: Db) {
    && (forall r :: r in before.runs ==> r in after.runs)
    && (forall r :: r in before.runs && before.runs[r].status != RunRunning ==> after.runs[r].status != RunRunning)
    && (forall n :: n in before.nodes ==>
      && n in after.nodes && after.nodes[n].nodeType == before.nodes[n].nodeType
      && (TerminalRow(before.nodes[n]) ==> TerminalRow(after.nodes[n])))
  }

  lemma CommitGrows(db: Db, m: Message, plan: Plan)
    requires ParentsExist(db) && PlanFits(db, m, plan) && !Conflict(db, plan)
    ensures ParentsExist(Committed(db, plan)) && Grows(db, Committed(db, plan))
  {
  }

  lemma GrowthKeepsPlans(before: Db, after: Db, handler: Handler)
    requires Grows(before, after) && HandlerFits(before, handler)
    ensures HandlerFits(after, handler)
  {
  }

  lemma ReadPlanFits(env: Env, db: Db, m: Message)
    requires ParentsExist(db)
    ensures ReadPlan(env, db, m).Some? ==> PlanFits(db, m, ReadPlan(env, db, m).value)
  {
  }

  lemma StepKeepsInv(env: Env, s: State, a: Action)
    requires Inv(s) && Enabled(s, a)
    ensures Inv(Step(env, s, a)) && Grows(s.db, Step(env, s, a).db)
  {
    var s' := Step(env, s, a);
    match a
    case Begin(h) => ReadPlanFits(env, s.db, s.handlers[h].message);
    case Commit(h) =>
      var m, plan := s.handlers[h].message, s.handlers[h].phase.plan;
      assert HandlerFits(s.db, s.handlers[h]);
      if !Conflict(s.db, plan) {
        CommitGrows(s.db, m, plan);
        forall o | o in s'.handlers ensures HandlerFits(s'.db, s'.handlers[o]) {
          if o != h { GrowthKeepsPlans(s.db, s'.db, s.handlers[o]); }
        }
      }
    case _ =>
  }

  lemma {:induction false} ExecKeepsInv(env: Env, s: State, actions: seq<Action>)
    requires Inv(s)
    ensures Inv(Exec(env, s, actions)) && Grows(s.db, Exec(env, s, actions).db)
  {
    if actions != [] {
      var init, a := actions[..|actions| - 1], actions[|actions| - 1];
      ExecKeepsInv(env, s, init);
      if Enabled(Exec(env, s, init), a) {
        StepKeepsInv(env, Exec(env, s, init), a);
      }
    }
  }

  lemma {:induction false} ExecSplits(env: Env, s: State, first: seq<Action>, second: seq<Action>)
    ensures Exec(env, s, first + second) == Exec(env, Exec(env, s, first), second)
  {
    if second == [] {
      assert first + second == first;
    } else {
      var all := first + second;
      assert all[..|all| - 1] == first + second[..|second| - 1];
      ExecSplits(env, s, first, second[..|second| - 1]);
    }
  }

  // ----- Terminal rows and parents -----

  /**
   * Whatever is delivered and however it interleaves: a terminal node or run row stays
   * terminal for ever, and every node row has its run.
   */
  lemma TerminalIsForEver(env: Env, first: seq<Action>, second: seq<Action>)
    ensures ParentsExist(Reached(env, first).db)
    ensures forall n :: NodeTerminal(Reached(env, first).db, n) ==> NodeTerminal(Reached(env, first + second).db, n)
    ensures forall r :: RunTerminal(Reached(env, first).db, r) ==> RunTerminal(Reached(env, first + second).db, r)
  {
    ExecKeepsInv(env, Start(), first);
    ExecKeepsInv(env, Reached(env, first), second);
    ExecSplits(env, Start(), first, second);
  }

  // ----- Acknowledged finishes and errors -----

  /** The terminal status that a message gives its node, if it does. */
  function NodeVerdict(m: Message): Option<NodeStatus> {
    if m.FinishNode? then Some(NodeSuccess) else if m.ErrorNode? then Some(NodeFailed) else None
  }

  function RunVerdict(m: Message): Option<RunStatus> {
    if m.FinishRun? then Some(RunSuccess) else if m.ErrorRun? then Some(RunFailed) else None
  }

  /** No delivered message gives the node another terminal status. */
  predicate OnlyNodeVerdict(s: State, node: NodeId, status: NodeStatus) {
    forall h :: h in s.handlers && NodeOf(s.handlers[h].message) == Some(node) ==>
      NodeVerdict(s.handlers[h].message) in {None, Some(status)}
  }

  predicate OnlyRunVerdict(s: State, run: RunId, status: RunStatus) {
    forall h :: h in s.handlers && RunOf(s.handlers[h].message) == run ==>
      RunVerdict(s.handlers[h].message) in {None, Some(status)}
  }

  /** The handler has committed, or needs not. */
  predicate Through(phase: Phase) { phase.Notifying? || phase.Acked? }

  /** A message that gives the node this status is committed, if not acknowledged. */
  predicate NodeVerdictDone(s: State, h: HandlerId, node: NodeId, status: NodeStatus) {
    && h in s.handlers && NodeOf(s.handlers[h].message) == Some(node)
    && NodeVerdict(s.handlers[h].message) == Some(status) && Through(s.handlers[h].phase)
  }

  predicate RunVerdictDone(s: State, h: HandlerId, run: RunId, status: RunStatus) {
    && h in s.handlers && RunOf(s.handlers[h].message) == run
    && RunVerdict(s.handlers[h].message) == Some(status) && Through(s.handlers[h].phase)
  }

  predicate HasNodeStatus(db: Db, node: NodeId, status: NodeStatus) { node in db.nodes && db.nodes[node].status == status }

  predicate HasRunStatus(db: Db, run: RunId, status: RunStatus) { run in db.runs && db.runs[run].status == status }

  /** The row is running or has the status, and no stale update can miss it. */
  ghost predicate NodeSettles(s: State, node: NodeId, status: NodeStatus) {
    && (node in s.db.nodes ==> s.db.nodes[node].status in {NodeRunning, status})
    && (forall h :: NodeVerdictDone(s, h, node, status) ==> HasNodeStatus(s.db, node, status))
    && (forall h :: h in s.handlers && s.handlers[h].phase.Planned? ==>
      StaleUpdateIsHarmless(s.db, node, status, s.handlers[h].phase.plan))
  }

  predicate StaleUpdateIsHarmless(db: Db, node: NodeId, status: NodeStatus, plan: Plan) {
    plan.UpdateNode? && plan.node == node && plan.loaded.status == status ==> HasNodeStatus(db, node, status)
  }

  ghost predicate RunSettles(s: State, run: RunId, status: RunStatus) {
    && (run in s.db.runs ==> s.db.runs[run].status in {RunRunning, status})
    && (forall h :: RunVerdictDone(s, h, run, status) ==> HasRunStatus(s.db, run, status))
    && (forall h :: h in s.handlers && s.handlers[h].phase.Planned? ==>
      StaleRunUpdateIsHarmless(s.db, run, status, s.handlers[h].phase.plan))
  }

  predicate StaleRunUpdateIsHarmless(db: Db, run: RunId, status: RunStatus, plan: Plan) {
    plan.UpdateRun? && plan.run == run && plan.runLoaded.status == status ==> HasRunStatus(db, run, status)
  }

  lemma CommitSettlesNode(db: Db, m: Message, plan: Plan, node: NodeId, status: NodeStatus)
    requires ParentsExist(db) && PlanFits(db, m, plan) && !Conflict(db, plan)
    requires NodeOf(m) == Some(node) ==> NodeVerdict(m) in {None, Some(status)}
    requires node in db.nodes ==> db.nodes[node].status in {NodeRunning, status}
    requires StaleUpdateIsHarmless(db, node, status, plan)
    ensures var after := Committed(db, plan);
      && (node in after.nodes ==> after.nodes[node].status in {NodeRunning, status})
      && (HasNodeStatus(db, node, status) && status != NodeRunning ==> HasNodeStatus(after, node, status))
      && (NodeOf(m) == Some(node) && NodeVerdict(m) == Some(status) ==> HasNodeStatus(after, node, status))
  {
  }

  lemma CommitStepSettlesNode(env: Env, s: State, h: HandlerId, node: NodeId, status: NodeStatus)
    requires Inv(s) && Enabled(s, Commit(h)) && status != NodeRunning
    requires OnlyNodeVerdict(s, node, status) && NodeSettles(s, node, status)
    ensures NodeSettles(Step(env, s, Commit(h)), node, status)
  {
    var s' := Step(env, s, Commit(h));
    var m, plan := s.handlers[h].message, s.handlers[h].phase.plan;
    assert HandlerFits(s.db, s.handlers[h]);
    forall o | NodeVerdictDone(s', o, node, status) && o != h ensures NodeVerdictDone(s, o, node, status) {}
    if !Conflict(s.db, plan) {
      CommitSettlesNode(s.db, m, plan, node, status);
    }
  }

  lemma ReadPlanIsFresh(env: Env, db: Db, m: Message)
    ensures ReadPlan(env, db, m).Some? ==>
      var plan := ReadPlan(env, db, m).value;
      && (plan.UpdateNode? ==> plan.node in db.nodes && plan.loaded == db.nodes[plan.node])
      && (plan.UpdateRun? ==> plan.run in db.runs && plan.runLoaded == db.runs[plan.run])
  {
  }

  lemma QuietStepSettlesNode(env: Env, s: State, a: Action, node: NodeId, status: NodeStatus)
    requires Inv(s) && Enabled(s, a) && !a.Commit? && NodeSettles(s, node, status)
    ensures NodeSettles(Step(env, s, a), node, status)
  {
    var s' := Step(env, s, a);
    forall h | NodeVerdictDone(s', h, node, status) ensures NodeVerdictDone(s, h, node, status) {
      assert HandlerFits(s.db, s.handlers[h]);
    }
    hide Inv, ReadPlan, NodeVerdictDone, RunTerminal;
    if a.Begin? { ReadPlanIsFresh(env, s.db, s.handlers[a.h].message); }
  }

  lemma StepSettlesNode(env: Env, s: State, a: Action, node: NodeId, status: NodeStatus)
    requires Inv(s) && Enabled(s, a) && status != NodeRunning
    requires OnlyNodeVerdict(Step(env, s, a), node, status) && NodeSettles(s, node, status)
    ensures OnlyNodeVerdict(s, node, status) && NodeSettles(Step(env, s, a), node, status)
  {
    HandlersKeepMessages(env, s, a);
    if a.Commit? {
      CommitStepSettlesNode(env, s, a.h, node, status);
    } else {
      QuietStepSettlesNode(env, s, a, node, status);
    }
  }

  lemma CommitSettlesRun(db: Db, m: Message, plan: Plan, run: RunId, status: RunStatus)
    requires ParentsExist(db) && PlanFits(db, m, plan) && !Conflict(db, plan)
    requires RunOf(m) == run ==> RunVerdict(m) in {None, Some(status)}
    requires run in db.runs ==> db.runs[run].status in {RunRunning, status}
    requires StaleRunUpdateIsHarmless(db, run, status, plan)
    ensures var after := Committed(db, plan);
      && (run in after.runs ==> after.runs[run].status in {RunRunning, status})
      && (HasRunStatus(db, run, status) && status != RunRunning ==> HasRunStatus(after, run, status))
      && (RunOf(m) == run && RunVerdict(m) == Some(status) ==> HasRunStatus(after, run, status))
  {
  }

  lemma CommitStepSettlesRun(env: Env, s: State, h: HandlerId, run: RunId, status: RunStatus)
    requires Inv(s) && Enabled(s, Commit(h)) && status != RunRunning
    requires OnlyRunVerdict(s, run, status) && RunSettles(s, run, status)
    ensures RunSettles(Step(env, s, Commit(h)), run, status)
  {
    var s' := Step(env, s, Commit(h));
    var m, plan := s.handlers[h].message, s.handlers[h].phase.plan;
    assert HandlerFits(s.db, s.handlers[h]);
    forall o | RunVerdictDone(s', o, run, status) && o != h ensures RunVerdictDone(s, o, run, status) {}
    if !Conflict(s.db, plan) {
      CommitSettlesRun(s.db, m, plan, run, status);
    }
  }

  lemma QuietStepSettlesRun(env: Env, s: State, a: Action, run: RunId, status: RunStatus)
    requires Inv(s) && Enabled(s, a) && !a.Commit? && RunSettles(s, run, status)
    ensures RunSettles(Step(env, s, a), run, status)
  {
    var s' := Step(env, s, a);
    forall h | RunVerdictDone(s', h, run, status) ensures RunVerdictDone(s, h, run, status) {
      assert HandlerFits(s.db, s.handlers[h]);
    }
    hide Inv, ReadPlan, RunVerdictDone, RunTerminal;
    if a.Begin? { ReadPlanIsFresh(env, s.db, s.handlers[a.h].message); }
  }

  lemma StepSettlesRun(env: Env, s: State, a: Action, run: RunId, status: RunStatus)
    requires Inv(s) && Enabled(s, a) && status != RunRunning
    requires OnlyRunVerdict(Step(env, s, a), run, status) && RunSettles(s, run, status)
    ensures OnlyRunVerdict(s, run, status) && RunSettles(Step(env, s, a), run, status)
  {
    HandlersKeepMessages(env, s, a);
    if a.Commit? {
      CommitStepSettlesRun(env, s, a.h, run, status);
    } else {
      QuietStepSettlesRun(env, s, a, run, status);
    }
  }

  lemma {:induction false} NodeStatusReached(env: Env, actions: seq<Action>, node: NodeId, status: NodeStatus)
    requires OnlyNodeVerdict(Reached(env, actions), node, status) && status != NodeRunning
    ensures NodeSettles(Reached(env, actions), node, status)
  {
    if actions != [] {
      var init, a := actions[..|actions| - 1], actions[|actions| - 1];
      var before := Reached(env, init);
      ExecKeepsInv(env, Start(), init);
      HandlersKeepMessages(env, before, a);
      NodeStatusReached(env, init, node, status);
      if Enabled(before, a) {
        StepSettlesNode(env, before, a, node, status);
      }
    }
  }

  lemma {:induction false} RunStatusReached(env: Env, actions: seq<Action>, run: RunId, status: RunStatus)
    requires OnlyRunVerdict(Reached(env, actions), run, status) && status != RunRunning
    ensures RunSettles(Reached(env, actions), run, status)
  {
    if actions != [] {
      var init, a := actions[..|actions| - 1], actions[|actions| - 1];
      var before := Reached(env, init);
      ExecKeepsInv(env, Start(), init);
      HandlersKeepMessages(env, before, a);
      RunStatusReached(env, init, run, status);
      if Enabled(before, a) {
        StepSettlesRun(env, before, a, run, status);
      }
    }
  }

  /** With no error message for a node or run, a committed finish leaves it successful in every later state. */
  lemma AcknowledgedFinishIsSuccess(env: Env, actions: seq<Action>)
    ensures var s := Reached(env, actions);
      && (forall h, n :: NodeVerdictDone(s, h, n, NodeSuccess) && OnlyNodeVerdict(s, n, NodeSuccess) ==>
        HasNodeStatus(s.db, n, NodeSuccess))
      && (forall h, r :: RunVerdictDone(s, h, r, RunSuccess) && OnlyRunVerdict(s, r, RunSuccess) ==>
        HasRunStatus(s.db, r, RunSuccess))
  {
    var s := Reached(env, actions);
    forall h, n | NodeVerdictDone(s, h, n, NodeSuccess) && OnlyNodeVerdict(s, n, NodeSuccess)
      ensures HasNodeStatus(s.db, n, NodeSuccess)
    {
      NodeStatusReached(env, actions, n, NodeSuccess);
    }
    forall h, r | RunVerdictDone(s, h, r, RunSuccess) && OnlyRunVerdict(s, r, RunSuccess)
      ensures HasRunStatus(s.db, r, RunSuccess)
    {
      RunStatusReached(env, actions, r, RunSuccess);
    }
  }

  /** With no finish message for a node or run, a committed error leaves it failed in every later state. */
  lemma AcknowledgedErrorIsFailure(env: Env, actions: seq<Action>)
    ensures var s := Reached(env, actions);
      && (forall h, n :: NodeVerdictDone(s, h, n, NodeFailed) && OnlyNodeVerdict(s, n, NodeFailed) ==>
        HasNodeStatus(s.db, n, NodeFailed))
      && (forall h, r :: RunVerdictDone(s, h, r, RunFailed) && OnlyRunVerdict(s, r, RunFailed) ==>
        HasRunStatus(s.db, r, RunFailed))
  {
    var s := Reached(env, actions);
    forall h, n | NodeVerdictDone(s, h, n, NodeFailed) && OnlyNodeVerdict(s, n, NodeFailed)
      ensures HasNodeStatus(s.db, n, NodeFailed)
    {
      NodeStatusReached(env, actions, n, NodeFailed);
    }
    forall h, r | RunVerdictDone(s, h, r, RunFailed) && OnlyRunVerdict(s, r, RunFailed)
      ensures HasRunStatus(s.db, r, RunFailed)
    {
      RunStatusReached(env, actions, r, RunFailed);
    }
  }

  // ----- Finishes and errors together -----

  ghost predicate VerdictsAreTerminal(s: State) {
    && (forall h, n, status :: NodeVerdictDone(s, h, n, status) ==> NodeTerminal(s.db, n))
    && (forall h, r, status :: RunVerdictDone(s, h, r, status) ==> RunTerminal(s.db, r))
  }

  lemma CommitIsTerminal(db: Db, m: Message, plan: Plan)
    requires ParentsExist(db) && PlanFits(db, m, plan) && !Conflict(db, plan)
    ensures NodeVerdict(m).Some? ==> NodeTerminal(Committed(db, plan), NodeOf(m).value)
    ensures RunVerdict(m).Some? ==> RunTerminal(Committed(db, plan), RunOf(m))
  {
  }

  lemma StepKeepsVerdictsTerminal(env: Env, s: State, a: Action)
    requires Inv(s) && VerdictsAreTerminal(s) && Enabled(s, a)
    ensures VerdictsAreTerminal(Step(env, s, a))
  {
    StepKeepsInv(env, s, a);
    if a.Commit? && !Conflict(s.db, s.handlers[a.h].phase.plan) {
      assert HandlerFits(s.db, s.handlers[a.h]);
      CommitIsTerminal(s.db, s.handlers[a.h].message, s.handlers[a.h].phase.plan);
    }
    var s' := Step(env, s, a);
    hide Inv, Committed, Conflict, ReadPlan, PlanFits, ParentsExist;
    forall h, n, status | NodeVerdictDone(s', h, n, status) ensures NodeTerminal(s'.db, n) {
      if NodeVerdictDone(s, h, n, status) { assert NodeTerminal(s.db, n); }
    }
    forall h, r, status | RunVerdictDone(s', h, r, status) ensures RunTerminal(s'.db, r) {
      if RunVerdictDone(s, h, r, status) { assert RunTerminal(s.db, r); }
    }
  }

  /** Whatever else was delivered, an acknowledged finish or error leaves a terminal row. */
  lemma {:induction false} AcknowledgedVerdictIsTerminal(env: Env, actions: seq<Action>)
    ensures VerdictsAreTerminal(Reached(env, actions))
  {
    if actions != [] {
      var init, a := actions[..|actions| - 1], actions[|actions| - 1];
      AcknowledgedVerdictIsTerminal(env, init);
      ExecKeepsInv(env, Start(), init);
      if Enabled(Reached(env, init), a) {
        StepKeepsVerdictsTerminal(env, Reached(env, init), a);
      }
    }
  }

  lemma HandlersKeepMessages(env: Env, s: State, a: Action)
    ensures forall h :: Enabled(s, a) && h in s.handlers ==>
      h in Step(env, s, a).handlers && Step(env, s, a).handlers[h].message == s.handlers[h].message
  {
  }
}
