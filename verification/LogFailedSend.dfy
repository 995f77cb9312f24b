/**
 * What becomes of the request for a run's record when sending it fails and the message is
 * delivered again.  An error or the end of a run commits again and sends again; a create
 * meets its own row and is acknowledged as a duplicate.
 */
module LogFailedSend {
  import opened Wrappers
  import opened LogProtocol
  import opened LogSafety
  import opened LogRendezvous
  import opened LogLateFinish
  import opened LogStore

  /** A message about to send has left the row of its LLM node; a create that failed to send will not send. */
  predicate SenderIsStored(s: State, h: HandlerId, handler: Handler) {
    && (handler.phase.Notifying? && NodeOf(handler.message).Some? ==> IsLlmNode(s.db, NodeOf(handler.message).value))
    && (handler.message.CreateNode? && SendFailed(h) in s.log ==>
      handler.message.creation.node in s.db.nodes && !handler.phase.Notifying?)
  }

  ghost predicate SendersAreStored(s: State) {
    && (forall h :: h in s.handlers ==> SenderIsStored(s, h, s.handlers[h]))
    && (forall h :: SendFailed(h) in s.log ==> h in s.handlers)
  }

  /** A commit with a request stores the row of an LLM node, for a create only once. */
  lemma CommitOfSenderIsStored(db: Db, m: Message, plan: Plan)
    requires ParentsExist(db) && PlanFits(db, m, plan) && !Conflict(db, plan) && m.CreateNode?
    ensures AfterCommit(m, plan).Notifying? ==> m.creation.node in Committed(db, plan).nodes && m.creation.node !in db.nodes
  {
  }

  lemma StepKeepsSenderStored(env: Env, s: State, a: Action, h: HandlerId)
    requires Inv(s) && SendersAreStored(s) && Enabled(s, a) && h in Step(env, s, a).handlers
    ensures SenderIsStored(Step(env, s, a), h, Step(env, s, a).handlers[h])
  {
    StepKeepsInv(env, s, a);
    assert h in s.handlers ==> SenderIsStored(s, h, s.handlers[h]) && HandlerFits(s.db, s.handlers[h]);
    assert ParentsExist(s.db);
    hide Inv, Conflict, Committed, ReadPlan, PlanFits, SendersAreStored, ParentsExist, AfterCommit;
    if a == Commit(h) && s.handlers[h].message.CreateNode? && !Conflict(s.db, s.handlers[h].phase.plan) {
      CommitOfSenderIsStored(s.db, s.handlers[h].message, s.handlers[h].phase.plan);
    }
  }

  lemma StepKeepsSendersStored(env: Env, s: State, a: Action)
    requires Inv(s) && SendersAreStored(s) && Enabled(s, a)
    ensures SendersAreStored(Step(env, s, a))
  {
    var s' := Step(env, s, a);
    forall h | h in s'.handlers ensures SenderIsStored(s', h, s'.handlers[h]) {
      StepKeepsSenderStored(env, s, a, h);
    }
    hide Inv, Conflict, Committed, ReadPlan, Recovered, SenderIsStored;
    assert forall h :: h in s.handlers ==> h in s'.handlers;
  }

  lemma {:induction false} SendersAreStoredReached(env: Env, actions: seq<Action>)
    ensures SendersAreStored(Reached(env, actions))
  {
    if actions != [] {
      var init := actions[..|actions| - 1];
      SendersAreStoredReached(env, init);
      ExecKeepsInv(env, Start(), init);
      if Enabled(Reached(env, init), actions[|actions| - 1]) {
        StepKeepsSendersStored(env, Reached(env, init), actions[|actions| - 1]);
      }
    }
  }

  // ----- The exact condition for creates -----

  /** A create of run `r` has committed and is about to send. */
  predicate CreateIsAboutToSend(s: State, h: HandlerId, r: RunId) {
    && h in s.handlers && s.handlers[h].message.CreateNode? && RunOf(s.handlers[h].message) == r
    && s.handlers[h].phase.Notifying?
  }

  /** From `s` on no other handler of run `r` asks for its record. */
  ghost predicate OthersAreSilent(s: State, s': State, h: HandlerId, r: RunId) {
    forall o :: o in s'.handlers && o != h && RunOf(s'.handlers[o].message) == r ==> IsSilent(s, o, s'.handlers[o].message)
  }

  /** Where a create that was about to send after the end of its run can be by now. */
  ghost predicate SentOrFailed(s: State, s': State, h: HandlerId, r: RunId) {
    && h in s'.handlers
    && (SentAfter(s', |s.log| - 1, r) <==> IsAcked(s', h) && SendFailed(h) !in s'.log)
    && (SendFailed(h) !in s'.log ==> Through(s'.handlers[h].phase))
  }

  lemma LastEventCounts(s: State, s': State, i: int, r: RunId)
    requires s.log <= s'.log && |s'.log| <= |s.log| + 1 && i < |s.log|
    ensures SentAfter(s', i, r) <==>
      SentAfter(s, i, r) || (|s'.log| > |s.log| && s'.log[|s.log|] == RecordRunSent(r))
  {
    if SentAfter(s, i, r) {
      var k :| 0 <= k < |s.log| && i < k && s.log[k] == RecordRunSent(r);
      assert s'.log[k] == RecordRunSent(r);
    }
  }

  /** The event of a step, if any, and whom it moves. */
  lemma StepLogs(env: Env, s: State, a: Action, h: HandlerId)
    requires Enabled(s, a) && h in s.handlers
    ensures var s' := Step(env, s, a);
      && h in s'.handlers && (a.h != h ==> s'.handlers[h] == s.handlers[h])
      && (a == Notify(h) ==> s'.handlers[h].phase.Acked?)
      && s.log <= s'.log && |s'.log| <= |s.log| + 1
      && (|s'.log| > |s.log| ==>
        var e := s'.log[|s.log|];
        && (e.RecordRunSent? <==> a.Notify?) && (e.SendFailed? <==> a.FailSend?)
        && (a.Notify? ==> e.run == s.handlers[a.h].phase.run) && (a.FailSend? ==> e.handler == a.h))
      && (a.FailSend? || (a.Notify? && RunTerminal(s.db, s.handlers[a.h].phase.run)) ==> |s'.log| > |s.log|)
  {
    hide ReadPlan, Recovered, Conflict, Committed, AfterCommit, AfterConflict, RunTerminal;
  }

  lemma StepKeepsSentOrFailed(env: Env, s: State, s': State, a: Action, h: HandlerId, r: RunId)
    requires Inv(s') && SendersAreStored(s') && Enabled(s', a) && RunTerminal(s'.db, r)
    requires s.log <= s'.log && SentOrFailed(s, s', h, r)
    requires s'.handlers[h].message.CreateNode? && RunOf(s'.handlers[h].message) == r
    requires a.Notify? && a.h != h ==> RunOf(s'.handlers[a.h].message) != r
    ensures SentOrFailed(s, Step(env, s', a), h, r)
  {
    var after := Step(env, s', a);
    assert SenderIsStored(s', h, s'.handlers[h]) && HandlerFits(s'.db, s'.handlers[h]);
    if a.Notify? { assert HandlerFits(s'.db, s'.handlers[a.h]); }
    StepLogs(env, s', a, h);
    LastEventCounts(s', after, |s.log| - 1, r);
    hide Inv, Step, RunTerminal, PlanFits, SendersAreStored, SentAfter;
    assert after.log == s'.log || after.log == s'.log + [after.log[|s'.log|]];
  }

  /**
   * Let a create of an LLM node have committed after the end of its run, with no other message
   * of the run asking for the record.  The record is requested exactly when the create gets
   * through without its request ever failing; what a failed one lost is not made up for.
   */
  lemma CreateIsRequestedIff(
      env: Env, first: seq<Action>, second: seq<Action>, h: HandlerId, r: RunId)
    requires var s := Reached(env, first); CreateIsAboutToSend(s, h, r) && RunTerminal(s.db, r)
    requires OthersAreSilent(Reached(env, first), Reached(env, first + second), h, r)
    ensures var s, s' := Reached(env, first), Reached(env, first + second);
      SentAfter(s', |s.log| - 1, r) <==> IsAcked(s', h) && SendFailed(h) !in s'.log
  {
    ExecSplits(env, Start(), first, second);
    CreateSentOrFailed(env, first, second, h, r);
  }

  lemma {:induction false} CreateSentOrFailed(
      env: Env, first: seq<Action>, second: seq<Action>, h: HandlerId, r: RunId)
    requires var s := Reached(env, first); CreateIsAboutToSend(s, h, r) && RunTerminal(s.db, r)
    requires OthersAreSilent(Reached(env, first), Exec(env, Reached(env, first), second), h, r)
    ensures SentOrFailed(Reached(env, first), Exec(env, Reached(env, first), second), h, r)
  {
    var s := Reached(env, first);
    if second == [] {
      SendersAreStoredReached(env, first);
    } else {
      var init, a := second[..|second| - 1], second[|second| - 1];
      var before := Exec(env, s, init);
      HandlersKeepMessages(env, before, a);
      CreateSentOrFailed(env, first, init, h, r);
      MessagesStay(env, s, init);
      ExecSplits(env, Start(), first, init);
      SendersAreStoredReached(env, first + init);
      ExecKeepsInv(env, Start(), first);
      ExecKeepsInv(env, s, init);
      if Enabled(before, a) {
        if a.Notify? && a.h != h && RunOf(before.handlers[a.h].message) == r {
          SilentStays(env, s, init, a.h);
        }
        StepKeepsSentOrFailed(env, s, before, a, h, r);
      }
    }
  }

  // ----- What a redelivery requests -----

  /** A failed send and an undisturbed redelivery, as a run of the protocol. */
  lemma FailedSendIsRedelivered(env: Env, s: State, h: HandlerId) returns (actions: seq<Action>, phase: Phase)
    requires h in s.handlers && s.handlers[h].phase.Notifying?
    ensures var m := s.handlers[h].message;
      var e := Undisturbed(env, s.db, m);
      && Moved(s, Exec(env, s, actions), h, m, e.db, phase, [SendFailed(h)] + Logged(h, e))
      && (phase == Acked <==> e.outcome == Done || e.outcome == Duplicate)
  {
    var m, failed := s.handlers[h].message, Step(env, s, FailSend(h));
    assert Exec(env, s, [FailSend(h)][..0]) == s;
    actions, phase := RedeliveryIsProtocol(env, failed, h, m);
    ExecSplits(env, s, [FailSend(h)], actions);
    actions := [FailSend(h)] + actions;
    var e := Undisturbed(env, s.db, m);
    assert s.log + [SendFailed(h)] + Logged(h, e) == s.log + ([SendFailed(h)] + Logged(h, e));
  }

  /**
   * Whoever waits to send after the end of its run is stored already.  If that send fails, the
   * end of a run and the error of a node request the record when they are stored again; a
   * create changes no row and requests nothing.
   */
  lemma RedeliveryRequestsAgain(env: Env, actions: seq<Action>, h: HandlerId)
    requires var s := Reached(env, actions);
      h in s.handlers && s.handlers[h].phase.Notifying? && RunTerminal(s.db, RunOf(s.handlers[h].message))
    ensures var s := Reached(env, actions);
      var m := s.handlers[h].message;
      var e := Undisturbed(env, s.db, m);
      && e.requested == (if e.outcome == Done then [RunOf(m)] else [])
      && (e.outcome == Done ==> !m.CreateNode?)
      && (m.CreateNode? ==> e.db.runs == s.db.runs && e.db.nodes == s.db.nodes)
      && (m.ErrorNode? || m.ErrorRun? ==> e.outcome == Done)
  {
    var s := Reached(env, actions);
    var m := s.handlers[h].message;
    SendersAreStoredReached(env, actions);
    ExecKeepsInv(env, Start(), actions);
    assert HandlerFits(s.db, s.handlers[h]) && SenderIsStored(s, h, s.handlers[h]);
    RedeliveryRequests(env, s.db, m);
  }

  lemma RedeliveryRequests(env: Env, db: Db, m: Message)
    requires RunTerminal(db, RunOf(m)) && !m.CreateRun? && !m.FinishNode?
    requires NodeOf(m).Some? ==> IsLlmNode(db, NodeOf(m).value)
    ensures var e := Undisturbed(env, db, m);
      && e.requested == (if e.outcome == Done then [RunOf(m)] else [])
      && (e.outcome == Done ==> !m.CreateNode?)
      && (m.CreateNode? ==> e.db.runs == db.runs && e.db.nodes == db.nodes)
      && (m.ErrorNode? || m.ErrorRun? ==> e.outcome == Done)
  {
    hide NewPayloads, WithPayloads, PayloadsFit, FailedNode, FinishedRun;
    match m
    case FinishRun(d) => FinishRunEffect(env, db, d);
    case ErrorRun(d) => ErrorRunEffect(env, db, d);
    case CreateNode(d) => CreateNodeEffect(env, db, d);
    case ErrorNode(d) => ErrorNodeEffect(env, db, d);
  }

  // ----- A lost request -----

  /** A run is created and finished, and then an LLM node of it is created. */
  function CreateBehindTheEnd(): seq<Action> {
    (Uninterrupted(0, RUN_CREATED) + Notified(2, RUN_FINISHED)) + Uninterrupted(1, NODE_CREATED)
  }

  lemma EmptyRunIsFinished(env: Env, s: State)
    requires s.db == Db(map[0 := RowFromCreateRun(RUN_CREATED.runCreation)], map[], map[]) && 2 !in s.handlers
    ensures var s' := Exec(env, s, Notified(2, RUN_FINISHED));
      && RunTerminal(s'.db, 0) && s'.db.nodes == map[] && s'.db.payloads == map[]
      && s'.handlers == s.handlers[2 := Handler(RUN_FINISHED, Acked)]
      && s'.log == s.log + [WriteCommitted(2), RecordRunSent(0)]
  {
    assert DownstreamMetadata(env, s.db, 0, "passed") == map[];
    NotifiedEffect(env, s, 2, RUN_FINISHED);
  }

  lemma NodeCommits(env: Env, s: State)
    requires RunTerminal(s.db, 0) && s.db.nodes == map[] && s.db.payloads == map[] && 1 !in s.handlers
    ensures var s' := Exec(env, s, Uninterrupted(1, NODE_CREATED));
      && s'.db == s.db.(nodes := map[0 := RowFromCreateNode(NODE_CREATED.creation)])
      && s'.handlers == s.handlers[1 := Handler(NODE_CREATED, Notifying(0))]
      && s'.log == s.log + [WriteCommitted(1)]
  {
    assert CapturedCreate(env, NODE_CREATED.creation) == NODE_CREATED.creation;
    UndisturbedEffect(env, s, 1, NODE_CREATED);
  }

  lemma CreateIsDuplicate(env: Env, db: Db)
    requires 0 in db.runs && 0 in db.nodes && db.payloads == map[]
    ensures Undisturbed(env, db, NODE_CREATED) == Effect(db, Duplicate, [])
  {
    assert CapturedCreate(env, NODE_CREATED.creation) == NODE_CREATED.creation;
    hide Undisturbed;
    CreateNodeEffect(env, db, NODE_CREATED.creation);
  }

  /**
   * One failed send is enough: everything is delivered once and redelivered until it is through,
   * run and LLM node are stored, and no record was requested after the node's commit.
   */
  lemma CreateCanLoseItsRequest(env: Env) returns (actions: seq<Action>)
    ensures var s := Reached(env, actions);
      && (forall h :: h in s.handlers ==> s.handlers[h].phase.Acked?)
      && RunTerminal(s.db, 0) && IsLlmNode(s.db, 0)
      && s.log == [WriteCommitted(0), WriteCommitted(2), RecordRunSent(0), WriteCommitted(1), SendFailed(1)]
  {
    var first, second := Uninterrupted(0, RUN_CREATED), Notified(2, RUN_FINISHED);
    RunIsCreated(env);
    EmptyRunIsFinished(env, Exec(env, Start(), first));
    ExecSplits(env, Start(), first, second);
    NodeCommits(env, Exec(env, Start(), first + second));
    ExecSplits(env, Start(), first + second, Uninterrupted(1, NODE_CREATED));
    var s := Reached(env, CreateBehindTheEnd());
    CreateIsDuplicate(env, s.db);
    hide Undisturbed;
    var last, _ := FailedSendIsRedelivered(env, s, 1);
    ExecSplits(env, Start(), CreateBehindTheEnd(), last);
    actions := CreateBehindTheEnd() + last;
  }
}
