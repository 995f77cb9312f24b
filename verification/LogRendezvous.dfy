/** When the routing record of a run is requested. */
module LogRendezvous {
  import opened Wrappers
  import opened LogProtocol
  import opened LogSafety

  /** Log entry `i` is the commit of a finish or error of run `r`. */
  predicate RunEnded(s: State, i: int, r: RunId) {
    && 0 <= i < |s.log| && s.log[i].WriteCommitted? && s.log[i].handler in s.handlers
    && var m := s.handlers[s.log[i].handler].message;
    (m.FinishRun? || m.ErrorRun?) && RunOf(m) == r
  }

  /** Log entry `i` is the commit of a create or error of node `n`, sent for run `r`. */
  predicate NodeRecorded(s: State, i: int, n: NodeId, r: RunId) {
    && 0 <= i < |s.log| && s.log[i].WriteCommitted? && s.log[i].handler in s.handlers
    && var m := s.handlers[s.log[i].handler].message;
    (m.CreateNode? || m.ErrorNode?) && RunOf(m) == r && NodeOf(m) == Some(n)
  }

  /** The handler of log entry `i` is acknowledged. */
  predicate CommitterAcked(s: State, i: int)
    requires 0 <= i < |s.log| && s.log[i].WriteCommitted? && s.log[i].handler in s.handlers
  {
    s.handlers[s.log[i].handler].phase.Acked?
  }

  /** The handler of log entry `i` is that of a create whose request once failed. */
  predicate CreateLostItsSend(s: State, i: int)
    requires 0 <= i < |s.log| && s.log[i].WriteCommitted? && s.log[i].handler in s.handlers
  {
    s.handlers[s.log[i].handler].message.CreateNode? && SendFailed(s.log[i].handler) in s.log
  }

  predicate SentAfter(s: State, i: int, r: RunId) {
    exists k :: 0 <= k < |s.log| && i < k && s.log[k] == RecordRunSent(r)
  }

  predicate IsLlmNode(db: Db, n: NodeId) { n in db.nodes && db.nodes[n].nodeType == "llmNode" }

  ghost predicate CommittersAreKnown(s: State) {
    forall i :: 0 <= i < |s.log| && s.log[i].WriteCommitted? ==> s.log[i].handler in s.handlers
  }

  /** A create that has committed waits to send, unless it is through or its request failed. */
  ghost predicate CreatesAreDone(s: State) {
    forall i :: 0 <= i < |s.log| && s.log[i].WriteCommitted? && s.log[i].handler in s.handlers ==>
      var handler := s.handlers[s.log[i].handler];
      handler.message.CreateNode? ==> Through(handler.phase) || CreateLostItsSend(s, i)
  }

  ghost predicate EndedRunsAreTerminal(s: State) {
    forall i, r :: RunEnded(s, i, r) ==> RunTerminal(s.db, r) && (CommitterAcked(s, i) ==> SentAfter(s, i, r))
  }

  ghost predicate TerminalRunsEnded(s: State) {
    forall r :: RunTerminal(s.db, r) ==> exists i :: RunEnded(s, i, r)
  }

  ghost predicate RecordedNodesNotify(s: State) {
    forall i, n, r :: NodeRecorded(s, i, n, r) ==>
      && n in s.db.nodes
      && (IsLlmNode(s.db, n) && CommitterAcked(s, i) ==>
        SentAfter(s, i, r) || CreateLostItsSend(s, i) || (forall j :: RunEnded(s, j, r) ==> i < j))
  }

  ghost predicate SendsFollowAnEnd(s: State) {
    forall k, r :: 0 <= k < |s.log| && s.log[k] == RecordRunSent(r) ==> exists i :: i < k && RunEnded(s, i, r)
  }

  ghost predicate RendezvousInv(s: State) {
    && Inv(s) && CommittersAreKnown(s) && CreatesAreDone(s) && EndedRunsAreTerminal(s) && TerminalRunsEnded(s)
    && RecordedNodesNotify(s) && SendsFollowAnEnd(s)
  }

  /** A step extends the log and acknowledges at most its own handler. */
  lemma StepFrame(env: Env, s: State, a: Action)
    requires RendezvousInv(s) && Enabled(s, a)
    ensures var s' := Step(env, s, a);
      && Inv(s') && Grows(s.db, s'.db) && s.log <= s'.log && |s'.log| <= |s.log| + 1
      && (forall i, r :: 0 <= i < |s.log| ==> (RunEnded(s', i, r) <==> RunEnded(s, i, r)))
      && (forall i, n, r :: 0 <= i < |s.log| ==> (NodeRecorded(s', i, n, r) <==> NodeRecorded(s, i, n, r)))
      && CommittersAreKnown(s')
      && (forall i :: 0 <= i < |s.log| && s.log[i].WriteCommitted? ==>
        && (CreateLostItsSend(s, i) ==> CreateLostItsSend(s', i))
        && (CommitterAcked(s', i) && !CommitterAcked(s, i) ==> !a.Deliver? && a.h == s.log[i].handler))
      && (forall i, r :: SentAfter(s, i, r) ==> SentAfter(s', i, r))
  {
    hide Inv, Grows, RunTerminal, Conflict, Committed, ReadPlan, Recovered, IsLlmNode, EndedRunsAreTerminal;
    hide TerminalRunsEnded, RecordedNodesNotify, SendsFollowAnEnd, CreatesAreDone;
    StepKeepsInv(env, s, a);
    HandlersKeepMessages(env, s, a);
    var s' := Step(env, s, a);
    forall i, r | SentAfter(s, i, r) ensures SentAfter(s', i, r) {
      var k :| 0 <= k < |s.log| && i < k && s.log[k] == RecordRunSent(r);
      assert s'.log[k] == RecordRunSent(r);
    }
  }

  /** Only the commit of a finish or error makes a run terminal. */
  lemma CommitEndsRun(db: Db, m: Message, plan: Plan, r: RunId)
    requires ParentsExist(db) && PlanFits(db, m, plan) && !Conflict(db, plan)
    ensures RunTerminal(Committed(db, plan), r) && !RunTerminal(db, r) ==> plan.UpdateRun? && RunOf(m) == r
    ensures plan.UpdateRun? ==> RunTerminal(Committed(db, plan), RunOf(m))
  {
  }

  /** The commit of a create or error of an LLM node is followed by a notification. */
  lemma CommitOfLlmNodeNotifies(db: Db, m: Message, plan: Plan, n: NodeId)
    requires ParentsExist(db) && PlanFits(db, m, plan) && !Conflict(db, plan) && !plan.KeepPayloads?
    requires (m.CreateNode? || m.ErrorNode?) && NodeOf(m) == Some(n)
    ensures n in Committed(db, plan).nodes
    ensures IsLlmNode(Committed(db, plan), n) ==> AfterCommit(m, plan) == Notifying(RunOf(m))
  {
  }

  /** The commits that acknowledge their handler at once. */
  lemma CommitAcknowledges(db: Db, m: Message, plan: Plan)
    requires ParentsExist(db) && PlanFits(db, m, plan) && !Conflict(db, plan) && AfterCommit(m, plan).Acked?
    ensures !m.FinishRun? && !m.ErrorRun?
    ensures m.CreateNode? && !plan.KeepPayloads? ==> NodeOf(m).value !in db.nodes
    ensures m.ErrorNode? ==> !IsLlmNode(Committed(db, plan), NodeOf(m).value)
  {
  }

  lemma CommitKeepsTerminalRuns(env: Env, s: State, h: HandlerId)
    requires RendezvousInv(s) && Enabled(s, Commit(h)) && !Conflict(s.db, s.handlers[h].phase.plan)
    ensures TerminalRunsEnded(Step(env, s, Commit(h)))
  {
    var s' := Step(env, s, Commit(h));
    StepFrame(env, s, Commit(h));
    assert HandlerFits(s.db, s.handlers[h]);
    forall r | RunTerminal(s'.db, r) ensures exists i :: RunEnded(s', i, r) {
      CommitEndsRun(s.db, s.handlers[h].message, s.handlers[h].phase.plan, r);
      if RunTerminal(s.db, r) {
        var i :| RunEnded(s, i, r);
        assert RunEnded(s', i, r);
      } else {
        assert RunEnded(s', |s.log|, r);
      }
    }
  }

  lemma CommitKeepsEndedRuns(env: Env, s: State, h: HandlerId)
    requires RendezvousInv(s) && Enabled(s, Commit(h)) && !Conflict(s.db, s.handlers[h].phase.plan)
    ensures EndedRunsAreTerminal(Step(env, s, Commit(h)))
  {
    var s' := Step(env, s, Commit(h));
    StepFrame(env, s, Commit(h));
    assert HandlerFits(s.db, s.handlers[h]);
    forall i, r | RunEnded(s', i, r)
      ensures RunTerminal(s'.db, r) && (CommitterAcked(s', i) ==> SentAfter(s', i, r))
    {
      if i == |s.log| { CommitEndsRun(s.db, s.handlers[h].message, s.handlers[h].phase.plan, r); }
    }
  }

  lemma CommitKeepsRecordedNodes(env: Env, s: State, h: HandlerId)
    requires RendezvousInv(s) && Enabled(s, Commit(h)) && !Conflict(s.db, s.handlers[h].phase.plan)
    ensures RecordedNodesNotify(Step(env, s, Commit(h)))
  {
    var s' := Step(env, s, Commit(h));
    var m, plan := s.handlers[h].message, s.handlers[h].phase.plan;
    StepFrame(env, s, Commit(h));
    assert HandlerFits(s.db, s.handlers[h]);
    hide Inv, Grows, Conflict, Committed, PlanFits;
    if AfterCommit(m, plan).Acked? { CommitAcknowledges(s.db, m, plan); }
    forall i, n, r | NodeRecorded(s', i, n, r)
      ensures n in s'.db.nodes
      ensures IsLlmNode(s'.db, n) && CommitterAcked(s', i) ==>
        SentAfter(s', i, r) || CreateLostItsSend(s', i) || (forall j :: RunEnded(s', j, r) ==> i < j)
    {
      if i == |s.log| {
        CommitOfLlmNodeNotifies(s.db, m, plan, n);
      }
    }
  }

  lemma CommitKeepsCreatesDone(env: Env, s: State, h: HandlerId)
    requires RendezvousInv(s) && Enabled(s, Commit(h)) && !Conflict(s.db, s.handlers[h].phase.plan)
    ensures CreatesAreDone(Step(env, s, Commit(h)))
  {
    StepFrame(env, s, Commit(h));
    hide Inv, Grows, Conflict, Committed, EndedRunsAreTerminal, TerminalRunsEnded, RecordedNodesNotify, SendsFollowAnEnd;
  }

  lemma CommitKeepsRendezvous(env: Env, s: State, h: HandlerId)
    requires RendezvousInv(s) && Enabled(s, Commit(h))
    ensures RendezvousInv(Step(env, s, Commit(h)))
  {
    var s' := Step(env, s, Commit(h));
    StepFrame(env, s, Commit(h));
    if !Conflict(s.db, s.handlers[h].phase.plan) {
      CommitKeepsCreatesDone(env, s, h);
      hide Inv, Grows, TerminalRunsEnded, EndedRunsAreTerminal, RecordedNodesNotify, CreatesAreDone;
      CommitKeepsTerminalRuns(env, s, h);
      CommitKeepsEndedRuns(env, s, h);
      CommitKeepsRecordedNodes(env, s, h);
      SendsStayPreceded(s, s');
    }
  }

  lemma SendsStayPreceded(s: State, s': State)
    requires SendsFollowAnEnd(s) && s.log <= s'.log
    requires forall i, r :: 0 <= i < |s.log| ==> (RunEnded(s', i, r) <==> RunEnded(s, i, r))
    requires forall k :: |s.log| <= k < |s'.log| ==> !s'.log[k].RecordRunSent?
    ensures SendsFollowAnEnd(s')
  {
    forall k, r | 0 <= k < |s'.log| && s'.log[k] == RecordRunSent(r) ensures exists i :: i < k && RunEnded(s', i, r) {
      var i :| i < k && RunEnded(s, i, r);
      assert RunEnded(s', i, r);
    }
  }

  lemma NotifyKeepsRendezvous(env: Env, s: State, h: HandlerId)
    requires RendezvousInv(s) && Enabled(s, Notify(h))
    ensures RendezvousInv(Step(env, s, Notify(h)))
  {
    var s' := Step(env, s, Notify(h));
    StepFrame(env, s, Notify(h));
    var run := s.handlers[h].phase.run;
    assert HandlerFits(s.db, s.handlers[h]);
    forall r | RunTerminal(s'.db, r) ensures exists i :: RunEnded(s', i, r) {
      var i :| RunEnded(s, i, r);
      assert RunEnded(s', i, r);
    }
    if RunTerminal(s.db, run) {
      assert s'.log[|s.log|] == RecordRunSent(run);
      assert forall i :: 0 <= i < |s.log| ==> SentAfter(s', i, run);
    }
    forall k, r | 0 <= k < |s'.log| && s'.log[k] == RecordRunSent(r) ensures exists i :: i < k && RunEnded(s', i, r) {
      var i :| 0 <= i < |s.log| && (k < |s.log| ==> i < k) && RunEnded(s, i, r);
      assert RunEnded(s', i, r);
    }
  }

  /** A step that acknowledges neither by a commit nor by a send is the recovery of a create. */
  lemma QuietStepAcknowledges(env: Env, s: State, a: Action, h: HandlerId)
    requires Inv(s) && Enabled(s, a) && !a.Commit? && !a.Notify? && h in s.handlers
    requires !s.handlers[h].phase.Acked? && Step(env, s, a).handlers[h].phase.Acked?
    ensures s.handlers[h].message.CreateRun? || (s.handlers[h].message.CreateNode? && !Through(s.handlers[h].phase))
  {
  }

  lemma QuietStepKeepsRendezvous(env: Env, s: State, a: Action)
    requires RendezvousInv(s) && Enabled(s, a) && !a.Commit? && !a.Notify?
    ensures RendezvousInv(Step(env, s, a))
  {
    var s' := Step(env, s, a);
    StepFrame(env, s, a);
    forall r | RunTerminal(s'.db, r) ensures exists i :: RunEnded(s', i, r) {
      var i :| RunEnded(s, i, r);
      assert RunEnded(s', i, r);
    }
    forall i | 0 <= i < |s.log| && s.log[i].WriteCommitted? && CommitterAcked(s', i) && !CommitterAcked(s, i)
      ensures s.handlers[s.log[i].handler].message.CreateRun? || CreateLostItsSend(s, i)
    {
      QuietStepAcknowledges(env, s, a, s.log[i].handler);
    }
    SendsStayPreceded(s, s');
  }

  lemma {:induction false} RendezvousInvReached(env: Env, actions: seq<Action>)
    ensures RendezvousInv(Reached(env, actions))
  {
    if actions != [] {
      var init, a := actions[..|actions| - 1], actions[|actions| - 1];
      RendezvousInvReached(env, init);
      var s := Reached(env, init);
      if Enabled(s, a) {
        match a
        case Commit(h) => CommitKeepsRendezvous(env, s, h);
        case Notify(h) => NotifyKeepsRendezvous(env, s, h);
        case _ => QuietStepKeepsRendezvous(env, s, a);
      }
    }
  }

  /**
   * No lost rendezvous: once the create or error of an LLM node and the end of its run have
   * both been committed, in either order, and both handlers are through, the run's record
   * was requested after both commits, however often sends failed and were retried; only a
   * create behind the end must not have failed to send.
   */
  lemma RendezvousIsNotLost(env: Env, actions: seq<Action>, i: int, j: int, n: NodeId, r: RunId)
    requires var s := Reached(env, actions);
      && NodeRecorded(s, i, n, r) && IsLlmNode(s.db, n) && RunEnded(s, j, r)
      && CommitterAcked(s, i) && CommitterAcked(s, j)
      && (j < i ==> !CreateLostItsSend(s, i))
    ensures SentAfter(Reached(env, actions), if i < j then j else i, r)
  {
    RendezvousInvReached(env, actions);
  }

  /** A record is requested only for a run whose end has been committed before. */
  lemma NoneSentBeforeTheEnd(env: Env, actions: seq<Action>, k: int, r: RunId)
    requires var s := Reached(env, actions); 0 <= k < |s.log| && s.log[k] == RecordRunSent(r)
    ensures RunTerminal(Reached(env, actions).db, r)
    ensures exists i :: i < k && RunEnded(Reached(env, actions), i, r)
  {
    RendezvousInvReached(env, actions);
  }

  // ----- The finish of a node is no rendezvous -----

  /** Delivering, reading and committing without interference. */
  function Uninterrupted(h: HandlerId, m: Message): seq<Action> { [Deliver(h, m), Begin(h), Commit(h)] }

  lemma UndisturbedEffect(env: Env, s: State, h: HandlerId, m: Message)
    requires h !in s.handlers && ReadPlan(env, s.db, m).Some? && !Conflict(s.db, ReadPlan(env, s.db, m).value)
    requires !ReadPlan(env, s.db, m).value.KeepPayloads?
    ensures var plan := ReadPlan(env, s.db, m).value;
      Exec(env, s, Uninterrupted(h, m)) == State(
        Committed(s.db, plan), s.handlers[h := Handler(m, AfterCommit(m, plan))], s.log + [WriteCommitted(h)])
  {
    var all := Uninterrupted(h, m);
    var s1, s2 := Step(env, s, Deliver(h, m)), Step(env, Step(env, s, Deliver(h, m)), Begin(h));
    assert all[..2] == [Deliver(h, m), Begin(h)] && all[..2][..1] == [Deliver(h, m)];
    assert Exec(env, s, all[..2][..1][..0]) == s;
    assert Exec(env, s, all[..2][..1]) == s1;
    assert Exec(env, s, all[..2]) == s2;
  }

  /**
   * The finish of a node is committed without a request for the run's record, whatever the
   * run's status: in every state, an undisturbed late finish is the last event of the log.
   */
  lemma LateFinishRequestsNothing(env: Env, s: State, h: HandlerId, d: NodeFinish)
    requires h !in s.handlers && ReadPlan(env, s.db, FinishNode(d)).Some?
    requires !Conflict(s.db, ReadPlan(env, s.db, FinishNode(d)).value)
    ensures var s' := Exec(env, s, Uninterrupted(h, FinishNode(d)));
      && s'.log == s.log + [WriteCommitted(h)]
      && h in s'.handlers && s'.handlers[h].phase == Acked
  {
    UndisturbedEffect(env, s, h, FinishNode(d));
  }

  const RUN_CREATED := CreateRun(RunCreation(0, EMPTY, 0, []))
  const NODE_CREATED := CreateNode(NodeCreation(0, 0, "llmNode", EMPTY, EMPTY, EMPTY, 0, false, false, None, 0, []))
  const RUN_FINISHED := FinishRun(RunFinish(0, EMPTY, 2, []))
  const NODE_FINISHED := FinishNode(
    NodeFinish(0, 0, Some("llmNode"), EMPTY, EMPTY, EMPTY, EMPTY, Some(0), 1, Some(1), false, false, None, 0, []))

  function UntilRunEnds(): seq<Action> {
    (Uninterrupted(0, RUN_CREATED) + Notified(1, NODE_CREATED)) + Notified(2, RUN_FINISHED)
  }

  function Notified(h: HandlerId, m: Message): seq<Action> { Uninterrupted(h, m) + [Notify(h)] }

  lemma NotifiedEffect(env: Env, s: State, h: HandlerId, m: Message)
    requires h !in s.handlers && ReadPlan(env, s.db, m).Some? && !Conflict(s.db, ReadPlan(env, s.db, m).value)
    requires !ReadPlan(env, s.db, m).value.KeepPayloads?
    requires AfterCommit(m, ReadPlan(env, s.db, m).value) == Notifying(RunOf(m))
    ensures var db := Committed(s.db, ReadPlan(env, s.db, m).value);
      Exec(env, s, Notified(h, m)) == State(
        db, s.handlers[h := Handler(m, Acked)],
        s.log + [WriteCommitted(h)] + if RunTerminal(db, RunOf(m)) then [RecordRunSent(RunOf(m))] else [])
  {
    UndisturbedEffect(env, s, h, m);
    var s' := Exec(env, s, Uninterrupted(h, m));
    assert Exec(env, s', [Notify(h)][..0]) == s';
    ExecSplits(env, s, Uninterrupted(h, m), [Notify(h)]);
    assert s'.handlers[h := Handler(m, Acked)] == s.handlers[h := Handler(m, Acked)];
  }

  lemma RunIsCreated(env: Env)
    ensures var s := Exec(env, Start(), Uninterrupted(0, RUN_CREATED));
      && s.db == Db(map[0 := RowFromCreateRun(RUN_CREATED.runCreation)], map[], map[])
      && s.handlers == map[0 := Handler(RUN_CREATED, Acked)] && s.log == [WriteCommitted(0)]
  {
    UndisturbedEffect(env, Start(), 0, RUN_CREATED);
  }

  lemma NodeIsCreated(env: Env, s: State)
    requires s.db == Db(map[0 := RowFromCreateRun(RUN_CREATED.runCreation)], map[], map[])
    requires s.handlers == map[0 := Handler(RUN_CREATED, Acked)] && s.log == [WriteCommitted(0)]
    ensures var s' := Exec(env, s, Notified(1, NODE_CREATED));
      && s'.db == s.db.(nodes := map[0 := RowFromCreateNode(NODE_CREATED.creation)])
      && s'.handlers == s.handlers[1 := Handler(NODE_CREATED, Acked)]
      && s'.log == [WriteCommitted(0), WriteCommitted(1)]
  {
    var captured := CapturedCreate(env, NODE_CREATED.creation);
    assert captured == NODE_CREATED.creation;
    NotifiedEffect(env, s, 1, NODE_CREATED);
  }

  lemma RunIsFinished(env: Env, s: State)
    requires s.db.runs == map[0 := RowFromCreateRun(RUN_CREATED.runCreation)] && s.db.payloads == map[]
    requires s.db.nodes == map[0 := RowFromCreateNode(NODE_CREATED.creation)] && 2 !in s.handlers
    ensures var s' := Exec(env, s, Notified(2, RUN_FINISHED));
      && RunTerminal(s'.db, 0) && s'.db.nodes == s.db.nodes && s'.db.payloads == map[]
      && s'.handlers == s.handlers[2 := Handler(RUN_FINISHED, Acked)]
      && s'.log == s.log + [WriteCommitted(2), RecordRunSent(0)]
  {
    assert DownstreamMetadata(env, s.db, 0, "passed") == map[];
    assert PatchedMetadata(s.db.nodes, map[]) == s.db.nodes;
    NotifiedEffect(env, s, 2, RUN_FINISHED);
  }

  /**
   * Contrary to the comment at apps/log_system/tasks.py:69, a late finish of an LLM node gives
   * the run's record no second chance: here everything is delivered once, every handler is
   * through, run and node are successful, and no record was requested after the node's commit.
   */
  lemma LateFinishHasNoRendezvous(env: Env)
    requires env.providerSummary(Some("llmNode"), EMPTY, EMPTY) == None
    ensures var s := Reached(env, UntilRunEnds() + Uninterrupted(3, NODE_FINISHED));
      && (forall h :: h in s.handlers ==> s.handlers[h].phase.Acked?)
      && RunTerminal(s.db, 0) && NodeTerminal(s.db, 0) && IsLlmNode(s.db, 0)
      && s.log == [WriteCommitted(0), WriteCommitted(1), WriteCommitted(2), RecordRunSent(0), WriteCommitted(3)]
  {
    var s1 := Exec(env, Start(), Uninterrupted(0, RUN_CREATED));
    RunIsCreated(env);
    var s2 := Exec(env, s1, Notified(1, NODE_CREATED));
    NodeIsCreated(env, s1);
    var s3 := Exec(env, s2, Notified(2, RUN_FINISHED));
    RunIsFinished(env, s2);
    ExecSplits(env, Start(), Uninterrupted(0, RUN_CREATED), Notified(1, NODE_CREATED));
    ExecSplits(env, Start(), Uninterrupted(0, RUN_CREATED) + Notified(1, NODE_CREATED), Notified(2, RUN_FINISHED));
    ExecSplits(env, Start(), UntilRunEnds(), Uninterrupted(3, NODE_FINISHED));
    FinishIsCommitted(env, s3);
  }

  lemma FinishIsCommitted(env: Env, s: State)
    requires env.providerSummary(Some("llmNode"), EMPTY, EMPTY) == None
    requires s.db.nodes == map[0 := RowFromCreateNode(NODE_CREATED.creation)] && s.db.payloads == map[]
    requires 3 !in s.handlers
    ensures var s' := Exec(env, s, Uninterrupted(3, NODE_FINISHED));
      && s'.db.runs == s.db.runs && NodeTerminal(s'.db, 0) && IsLlmNode(s'.db, 0)
      && s'.handlers == s.handlers[3 := Handler(NODE_FINISHED, Acked)] && s'.log == s.log + [WriteCommitted(3)]
  {
    UndisturbedEffect(env, s, 3, NODE_FINISHED);
  }
}
