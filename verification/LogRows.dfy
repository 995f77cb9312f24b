/**
 * What a committed finish or error has left in its row, column by column, in every state that
 * a protocol run reaches, as long as no other finish or error of that node or run is sent.
 */
module LogRows {
  import opened Wrappers
  import opened LogProtocol
  import opened LogSafety

  // ----- Nodes -----

  /** The columns that a finish or error decides by itself; absent ones are left to the row. */
  datatype NodeColumns = NodeColumns(
    status: NodeStatus, inputs: Option<Json>, processData: Option<Json>, outputs: Option<Json>,
    errorMessage: Option<string>, finishedAt: int, duration: Option<int>)

  const NO_FIELDS := Obj(map[])

  /** A falsy value is stored as an empty object. */
  function Stored(v: Json): Json {
    if v in {Null, Bool(false), Num(0), Str(""), Arr([]), NO_FIELDS} then NO_FIELDS else v
  }

  function Wrapped(v: Json): Json { if v.Obj? then v else Obj(map["result" := v]) }

  /** A duration counts when it is reported and not zero. */
  function Reported(duration: Option<int>): Option<int> { if duration == Some(0) then None else duration }

  predicate IsCapturedError(env: Env, d: NodeError) {
    env.deferred(d.nodeType) || env.metadataOnly(d.nodeType, d.processData, d.traceMetadata)
  }

  /** Captured messages leave no inputs or process data, and of the outputs only the summary. */
  function FinishColumns(env: Env, d: NodeFinish): NodeColumns {
    match env.providerSummary(d.nodeType, d.processData, d.traceMetadata)
    case Some(summary) =>
      NodeColumns(NodeSuccess, Some(NO_FIELDS), Some(NO_FIELDS), Some(Wrapped(summary)), None, d.finishedAt,
                  Reported(d.duration))
    case None =>
      NodeColumns(NodeSuccess, Some(Stored(d.inputs)), Some(Stored(d.processData)), Some(Wrapped(d.outputs)), None,
                  d.finishedAt, Reported(d.duration))
  }

  function ErrorColumns(env: Env, d: NodeError): NodeColumns {
    var cleared := if IsCapturedError(env, d) then Some(NO_FIELDS) else None;
    NodeColumns(NodeFailed, cleared, cleared, None, Some(d.error), d.finishedAt, Reported(d.duration))
  }

  predicate Shows(c: NodeColumns, row: NodeRow) {
    && row.status == c.status && row.finishedAt == Some(c.finishedAt) && row.errorMessage == c.errorMessage
    && (c.inputs.Some? ==> row.inputs == c.inputs.value)
    && (c.processData.Some? ==> row.processData == c.processData.value)
    && (c.outputs.Some? ==> row.outputs == c.outputs.value)
    && (c.duration.Some? ==> row.duration == c.duration)
  }

  lemma StoredIff(v: Json)
    ensures OrEmpty(v) == Stored(v)
  {
  }

  /** A row that a finish updates. */
  lemma FinishUpdates(env: Env, row: NodeRow, d: NodeFinish)
    requires row.errorMessage == None
    ensures Shows(FinishColumns(env, d), FinishedNode(env, row, CapturedFinish(env, d)))
  {
    StoredIff(d.inputs);
    StoredIff(d.processData);
    StoredIff(EMPTY);
  }

  lemma FinishCreates(env: Env, d: NodeFinish)
    ensures Shows(FinishColumns(env, d), RowFromFinishNode(env, CapturedFinish(env, d)))
  {
    StoredIff(d.inputs);
    StoredIff(d.processData);
    StoredIff(EMPTY);
  }

  lemma ErrorUpdates(env: Env, row: NodeRow, d: NodeError)
    ensures Shows(ErrorColumns(env, d), FailedNode(env, row, CapturedError(env, d), ErrorIsMetadataOnly(env, d)))
  {
  }

  lemma ErrorCreates(env: Env, d: NodeError)
    ensures Shows(ErrorColumns(env, d), RowFromErrorNode(env, CapturedError(env, d)))
  {
    StoredIff(EMPTY);
  }

  /** Where the loaded row shows a column already, so does the row that the commit will meet. */
  predicate Keeps(c: NodeColumns, loaded: NodeRow, current: NodeRow) {
    && (loaded.status == c.status ==> current.status == c.status)
    && (loaded.finishedAt == Some(c.finishedAt) ==> current.finishedAt == Some(c.finishedAt))
    && (loaded.errorMessage == c.errorMessage ==> current.errorMessage == c.errorMessage)
    && (c.inputs.Some? && loaded.inputs == c.inputs.value ==> current.inputs == c.inputs.value)
    && (c.processData.Some? && loaded.processData == c.processData.value ==> current.processData == c.processData.value)
    && (c.outputs.Some? && loaded.outputs == c.outputs.value ==> current.outputs == c.outputs.value)
    && (c.duration.Some? && loaded.duration == c.duration ==> current.duration == c.duration)
  }

  lemma PatchShows(c: NodeColumns, current: NodeRow, loaded: NodeRow, desired: NodeRow)
    requires Shows(c, desired) && Keeps(c, loaded, current)
    ensures Shows(c, PatchedNode(current, loaded, desired))
  {
  }

  lemma PatchKeeps(c: NodeColumns, other: NodeRow, current: NodeRow, loaded: NodeRow, desired: NodeRow)
    requires Shows(c, desired) && Keeps(c, other, current)
    ensures Keeps(c, other, PatchedNode(current, loaded, desired))
  {
  }

  function ColumnsOf(env: Env, m: Message): NodeColumns
    requires m.FinishNode? || m.ErrorNode?
  {
    if m.FinishNode? then FinishColumns(env, m.finish) else ErrorColumns(env, m.error)
  }

  predicate IsNodeVerdict(m: Message, n: NodeId) { (m.FinishNode? || m.ErrorNode?) && NodeOf(m) == Some(n) }

  /** Of node `n` nothing but creates, of any content, and this finish or error is delivered. */
  ghost predicate OnlyVerdict(s: State, n: NodeId, m: Message) {
    forall h :: h in s.handlers && NodeOf(s.handlers[h].message) == Some(n) ==>
      s.handlers[h].message.CreateNode? || s.handlers[h].message == m
  }

  /** Without an error message no row of the node has one. */
  predicate NoErrorStored(db: Db, n: NodeId, m: Message) {
    m.FinishNode? && n in db.nodes ==> db.nodes[n].errorMessage == None
  }

  predicate PlanShows(db: Db, n: NodeId, c: NodeColumns, m: Message, sent: Message, plan: Plan) {
    && (plan.InsertNode? && plan.node == n ==>
      if sent == m then Shows(c, plan.row) else sent.CreateNode? && plan.row.errorMessage == None)
    && (plan.UpdateNode? && plan.node == n ==>
      sent == m && n in db.nodes && Shows(c, plan.desired) && Keeps(c, plan.loaded, db.nodes[n]))
  }

  predicate HandlerShows(db: Db, n: NodeId, c: NodeColumns, m: Message, handler: Handler) {
    && (handler.phase.Planned? ==> PlanShows(db, n, c, m, handler.message, handler.phase.plan))
    && (handler.message == m && Through(handler.phase) ==> n in db.nodes && Shows(c, db.nodes[n]))
  }

  ghost predicate NodeShows(env: Env, s: State, n: NodeId, m: Message)
    requires IsNodeVerdict(m, n)
  {
    && NoErrorStored(s.db, n, m)
    && forall h :: h in s.handlers ==> HandlerShows(s.db, n, ColumnsOf(env, m), m, s.handlers[h])
  }

  lemma ReadShows(env: Env, db: Db, n: NodeId, m: Message, sent: Message)
    requires IsNodeVerdict(m, n) && NoErrorStored(db, n, m) && ReadPlan(env, db, sent).Some?
    requires NodeOf(sent) == Some(n) ==> sent.CreateNode? || sent == m
    ensures PlanShows(db, n, ColumnsOf(env, m), m, sent, ReadPlan(env, db, sent).value)
  {
    hide NewPayloads, PayloadsOfNode, FinishedNode, FailedNode, RowFromFinishNode, RowFromErrorNode, Shows;
    hide FinishColumns, ErrorColumns, CapturedFinish, CapturedError, ErrorIsMetadataOnly;
    if sent == m {
      if m.FinishNode? {
        FinishCreates(env, m.finish);
        if n in db.nodes { FinishUpdates(env, db.nodes[n], m.finish); }
      } else {
        ErrorCreates(env, m.error);
        if n in db.nodes { ErrorUpdates(env, db.nodes[n], m.error); }
      }
    }
  }

  /** What a commit does to the row of node `n`. */
  lemma CommitShows(db: Db, n: NodeId, c: NodeColumns, m: Message, sent: Message, plan: Plan)
    requires PlanFits(db, sent, plan) && PlanShows(db, n, c, m, sent, plan) && !Conflict(db, plan)
    requires IsNodeVerdict(m, n) && NoErrorStored(db, n, m) && (m.FinishNode? ==> c.errorMessage == None)
    ensures var after := Committed(db, plan);
      && NoErrorStored(after, n, m)
      && (n in db.nodes ==>
        && n in after.nodes && (Shows(c, db.nodes[n]) ==> Shows(c, after.nodes[n]))
        && forall loaded :: Keeps(c, loaded, db.nodes[n]) ==> Keeps(c, loaded, after.nodes[n]))
      && (sent == m ==> n in after.nodes && Shows(c, after.nodes[n]))
  {
  }

  lemma CommitStepShows(env: Env, s: State, h: HandlerId, n: NodeId, m: Message)
    requires Inv(s) && Enabled(s, Commit(h)) && IsNodeVerdict(m, n) && NodeShows(env, s, n, m)
    ensures NodeShows(env, Step(env, s, Commit(h)), n, m)
  {
    var s', c := Step(env, s, Commit(h)), ColumnsOf(env, m);
    assert HandlerFits(s.db, s.handlers[h]) && HandlerShows(s.db, n, c, m, s.handlers[h]);
    var sent, plan := s.handlers[h].message, s.handlers[h].phase.plan;
    hide Inv, Committed, Conflict, Shows, Keeps, PlanFits, FinishColumns, ErrorColumns;
    if !Conflict(s.db, plan) {
      FinishHasNoError(env, m);
      CommitShows(s.db, n, c, m, sent, plan);
      forall o | o in s'.handlers && o != h ensures HandlerShows(s'.db, n, c, m, s'.handlers[o]) {
        assert HandlerShows(s.db, n, c, m, s.handlers[o]);
      }
    }
  }

  lemma FinishHasNoError(env: Env, m: Message)
    requires m.FinishNode? || m.ErrorNode?
    ensures m.FinishNode? ==> ColumnsOf(env, m).errorMessage == None
  {
  }

  lemma QuietStepShows(env: Env, s: State, a: Action, n: NodeId, m: Message)
    requires Inv(s) && Enabled(s, a) && !a.Commit? && IsNodeVerdict(m, n) && NodeShows(env, s, n, m)
    requires OnlyVerdict(s, n, m)
    ensures NodeShows(env, Step(env, s, a), n, m)
  {
    var s', c := Step(env, s, a), ColumnsOf(env, m);
    forall h | h in s'.handlers ensures HandlerShows(s'.db, n, c, m, s'.handlers[h]) {
      assert h in s.handlers ==> HandlerFits(s.db, s.handlers[h]) && HandlerShows(s.db, n, c, m, s.handlers[h]);
      hide Inv, Conflict, ReadPlan, Shows, Keeps, PlanFits, ColumnsOf;
      if a == Begin(h) && s.handlers[h].phase.Ready? && ReadPlan(env, s.db, s.handlers[h].message).Some? {
        ReadShows(env, s.db, n, m, s.handlers[h].message);
      }
    }
  }

  lemma {:induction false} NodeShowsReached(env: Env, actions: seq<Action>, n: NodeId, m: Message)
    requires IsNodeVerdict(m, n) && OnlyVerdict(Reached(env, actions), n, m)
    ensures NodeShows(env, Reached(env, actions), n, m)
  {
    if actions != [] {
      var init, a := actions[..|actions| - 1], actions[|actions| - 1];
      var before := Reached(env, init);
      HandlersKeepMessages(env, before, a);
      NodeShowsReached(env, init, n, m);
      ExecKeepsInv(env, Start(), init);
      if Enabled(before, a) {
        if a.Commit? {
          CommitStepShows(env, before, a.h, n, m);
        } else {
          QuietStepShows(env, before, a, n, m);
        }
      }
    }
  }

  /**
   * With one finish of a node and any creates, but no error: once the finish is acknowledged,
   * the row has its status, inputs, process data, outputs and end in every reachable state.  Of
   * a captured node it has the summary alone.
   */
  lemma FinishedRowIs(env: Env, actions: seq<Action>, h: HandlerId, d: NodeFinish)
    requires var s := Reached(env, actions);
      && h in s.handlers && s.handlers[h].message == FinishNode(d) && Through(s.handlers[h].phase)
      && OnlyVerdict(s, d.node, FinishNode(d))
    ensures var db := Reached(env, actions).db;
      d.node in db.nodes && Shows(FinishColumns(env, d), db.nodes[d.node])
  {
    NodeShowsReached(env, actions, d.node, FinishNode(d));
    var s := Reached(env, actions);
    assert HandlerShows(s.db, d.node, FinishColumns(env, d), FinishNode(d), s.handlers[h]);
  }

  /** The same for one error and no finish: status, error and end, and nothing else of a captured node. */
  lemma FailedRowIs(env: Env, actions: seq<Action>, h: HandlerId, d: NodeError)
    requires var s := Reached(env, actions);
      && h in s.handlers && s.handlers[h].message == ErrorNode(d) && Through(s.handlers[h].phase)
      && OnlyVerdict(s, d.node, ErrorNode(d))
    ensures var db := Reached(env, actions).db;
      d.node in db.nodes && Shows(ErrorColumns(env, d), db.nodes[d.node])
  {
    NodeShowsReached(env, actions, d.node, ErrorNode(d));
    var s := Reached(env, actions);
    assert HandlerShows(s.db, d.node, ErrorColumns(env, d), ErrorNode(d), s.handlers[h]);
  }

  // ----- Runs -----

  predicate IsRunVerdict(m: Message, r: RunId) { (m.FinishRun? || m.ErrorRun?) && RunOf(m) == r }

  /** The row of a run after its one finish or error. */
  predicate RunShows(m: Message, row: RunRow)
    requires m.FinishRun? || m.ErrorRun?
  {
    match m
    case FinishRun(d) =>
      && row.status == RunSuccess && row.outputs == d.outputs && row.errorMessage == None
      && row.finishedAt == Some(d.finishedAt) && row.duration == Some(d.finishedAt - row.startedAt)
    case ErrorRun(d) =>
      && row.status == RunFailed && row.errorMessage == Some(d.error)
      && row.finishedAt == Some(d.finishedAt) && row.duration == Some(d.finishedAt - row.startedAt)
  }

  /** The update changes neither inputs nor start; what the loaded row shows already, the one it meets shows too. */
  predicate RunKeeps(desired: RunRow, loaded: RunRow, current: RunRow) {
    && desired.startedAt == loaded.startedAt == current.startedAt && desired.inputs == loaded.inputs == current.inputs
    && (loaded.status == desired.status ==> current.status == desired.status)
    && (loaded.outputs == desired.outputs ==> current.outputs == desired.outputs)
    && (loaded.errorMessage == desired.errorMessage ==> current.errorMessage == desired.errorMessage)
    && (loaded.finishedAt == desired.finishedAt ==> current.finishedAt == desired.finishedAt)
    && (loaded.duration == desired.duration ==> current.duration == desired.duration)
  }

  ghost predicate OnlyRunVerdictIs(s: State, r: RunId, m: Message) {
    forall h :: h in s.handlers && RunOf(s.handlers[h].message) == r && RunVerdict(s.handlers[h].message).Some? ==>
      s.handlers[h].message == m
  }

  predicate RunPlanShows(db: Db, r: RunId, m: Message, sent: Message, plan: Plan)
    requires IsRunVerdict(m, r)
  {
    plan.UpdateRun? && plan.run == r ==>
      && sent == m && r in db.runs && RunShows(m, plan.runDesired) && RunKeeps(plan.runDesired, plan.runLoaded, db.runs[r])
      && (m.ErrorRun? ==> plan.runDesired.outputs == plan.runLoaded.outputs)
  }

  predicate RunHandlerShows(db: Db, r: RunId, m: Message, handler: Handler)
    requires IsRunVerdict(m, r)
  {
    && (handler.phase.Planned? ==> RunPlanShows(db, r, m, handler.message, handler.phase.plan))
    && (handler.message == m && Through(handler.phase) ==> r in db.runs && RunShows(m, db.runs[r]))
  }

  ghost predicate RunsShow(s: State, r: RunId, m: Message)
    requires IsRunVerdict(m, r)
  {
    forall h :: h in s.handlers ==> RunHandlerShows(s.db, r, m, s.handlers[h])
  }

  lemma RunReadShows(env: Env, db: Db, r: RunId, m: Message, sent: Message)
    requires IsRunVerdict(m, r) && ReadPlan(env, db, sent).Some?
    requires RunOf(sent) == r && RunVerdict(sent).Some? ==> sent == m
    ensures RunPlanShows(db, r, m, sent, ReadPlan(env, db, sent).value)
  {
    hide NewPayloads, DownstreamMetadata, PayloadsOfNode;
  }

  lemma RunPatchShows(m: Message, current: RunRow, loaded: RunRow, desired: RunRow)
    requires (m.FinishRun? || m.ErrorRun?) && RunShows(m, desired) && RunKeeps(desired, loaded, current)
    ensures RunShows(m, PatchedRun(current, loaded, desired))
  {
  }

  /** Another pending update of the same message is not disturbed. */
  lemma RunPatchKeeps(m: Message, current: RunRow, loaded: RunRow, desired: RunRow, loaded': RunRow, desired': RunRow)
    requires (m.FinishRun? || m.ErrorRun?) && RunShows(m, desired) && RunShows(m, desired')
    requires RunKeeps(desired, loaded, current) && RunKeeps(desired', loaded', current)
    requires m.ErrorRun? ==> desired.outputs == loaded.outputs && desired'.outputs == loaded'.outputs
    ensures RunKeeps(desired', loaded', PatchedRun(current, loaded, desired))
  {
  }

  /** What a commit does to the row of run `r`, and to an update of it that is still pending. */
  lemma RunCommitShows(db: Db, r: RunId, m: Message, sent: Message, plan: Plan, sent': Message, pending: Plan)
    requires IsRunVerdict(m, r) && PlanFits(db, sent, plan) && !Conflict(db, plan)
    requires RunPlanShows(db, r, m, sent, plan) && RunPlanShows(db, r, m, sent', pending)
    ensures var after := Committed(db, plan);
      && RunPlanShows(after, r, m, sent', pending)
      && (r in db.runs && RunShows(m, db.runs[r]) ==> r in after.runs && RunShows(m, after.runs[r]))
      && (sent == m ==> r in after.runs && RunShows(m, after.runs[r]))
  {
    hide PayloadsFit, PatchedRun, RunShows, RunKeeps, WithPayloads, PatchedMetadata;
    if plan.UpdateRun? && plan.run == r {
      var current := db.runs[r];
      RunPatchShows(m, current, plan.runLoaded, plan.runDesired);
      if pending.UpdateRun? && pending.run == r {
        RunPatchKeeps(m, current, plan.runLoaded, plan.runDesired, pending.runLoaded, pending.runDesired);
      }
    }
  }

  lemma RunCommitStepShows(env: Env, s: State, h: HandlerId, r: RunId, m: Message)
    requires Inv(s) && Enabled(s, Commit(h)) && IsRunVerdict(m, r) && RunsShow(s, r, m)
    ensures RunsShow(Step(env, s, Commit(h)), r, m)
  {
    var s' := Step(env, s, Commit(h));
    assert HandlerFits(s.db, s.handlers[h]) && RunHandlerShows(s.db, r, m, s.handlers[h]);
    var sent, plan := s.handlers[h].message, s.handlers[h].phase.plan;
    hide Inv, Committed, Conflict, RunShows, RunKeeps, PlanFits, RunPlanShows;
    if !Conflict(s.db, plan) {
      RunCommitShows(s.db, r, m, sent, plan, sent, plan);
      forall o | o in s'.handlers && o != h ensures RunHandlerShows(s'.db, r, m, s'.handlers[o]) {
        assert RunHandlerShows(s.db, r, m, s.handlers[o]);
        if s.handlers[o].phase.Planned? {
          RunCommitShows(s.db, r, m, sent, plan, s.handlers[o].message, s.handlers[o].phase.plan);
        }
      }
    }
  }

  lemma RecoveredIsNoUpdate(env: Env, db: Db, r: RunId, m: Message, sent: Message)
    requires IsRunVerdict(m, r)
    ensures Recovered(env, db, sent).Planned? ==> RunPlanShows(db, r, m, sent, Recovered(env, db, sent).plan)
    ensures sent == m ==> Recovered(env, db, sent).Ready?
  {
  }

  lemma RunQuietStepShows(env: Env, s: State, a: Action, r: RunId, m: Message)
    requires Inv(s) && Enabled(s, a) && !a.Commit? && IsRunVerdict(m, r) && RunsShow(s, r, m)
    requires OnlyRunVerdictIs(s, r, m)
    ensures RunsShow(Step(env, s, a), r, m)
  {
    var s' := Step(env, s, a);
    forall h | h in s'.handlers ensures RunHandlerShows(s'.db, r, m, s'.handlers[h]) {
      assert h in s.handlers ==> RunHandlerShows(s.db, r, m, s.handlers[h]);
      hide Inv, Conflict, ReadPlan, Recovered, RunShows, RunKeeps, RunPlanShows, PlanFits;
      if a == Begin(h) {
        RecoveredIsNoUpdate(env, s.db, r, m, s.handlers[h].message);
        if ReadPlan(env, s.db, s.handlers[h].message).Some? {
          RunReadShows(env, s.db, r, m, s.handlers[h].message);
        }
      }
    }
  }

  lemma {:induction false} RunsShowReached(env: Env, actions: seq<Action>, r: RunId, m: Message)
    requires IsRunVerdict(m, r) && OnlyRunVerdictIs(Reached(env, actions), r, m)
    ensures RunsShow(Reached(env, actions), r, m)
  {
    if actions != [] {
      var init, a := actions[..|actions| - 1], actions[|actions| - 1];
      var before := Reached(env, init);
      HandlersKeepMessages(env, before, a);
      RunsShowReached(env, init, r, m);
      ExecKeepsInv(env, Start(), init);
      if Enabled(before, a) {
        if a.Commit? {
          RunCommitStepShows(env, before, a.h, r, m);
        } else {
          RunQuietStepShows(env, before, a, r, m);
        }
      }
    }
  }

  /**
   * With one finish of a run and no error: once it is committed, the row holds its outputs, its
   * end and the time between start and end, in every reachable state.
   */
  lemma FinishedRunIs(env: Env, actions: seq<Action>, h: HandlerId, d: RunFinish)
    requires var s := Reached(env, actions);
      && h in s.handlers && s.handlers[h].message == FinishRun(d) && Through(s.handlers[h].phase)
      && OnlyRunVerdictIs(s, d.run, FinishRun(d))
    ensures var db := Reached(env, actions).db;
      && d.run in db.runs
      && var row := db.runs[d.run];
      && row.status == RunSuccess && row.outputs == d.outputs && row.errorMessage == None
      && row.finishedAt == Some(d.finishedAt) && row.duration == Some(d.finishedAt - row.startedAt)
  {
    RunsShowReached(env, actions, d.run, FinishRun(d));
    var s := Reached(env, actions);
    assert RunHandlerShows(s.db, d.run, FinishRun(d), s.handlers[h]);
  }

  /** The same for one error and no finish. */
  lemma FailedRunIs(env: Env, actions: seq<Action>, h: HandlerId, d: RunError)
    requires var s := Reached(env, actions);
      && h in s.handlers && s.handlers[h].message == ErrorRun(d) && Through(s.handlers[h].phase)
      && OnlyRunVerdictIs(s, d.run, ErrorRun(d))
    ensures var db := Reached(env, actions).db;
      && d.run in db.runs
      && var row := db.runs[d.run];
      && row.status == RunFailed && row.errorMessage == Some(d.error)
      && row.finishedAt == Some(d.finishedAt) && row.duration == Some(d.finishedAt - row.startedAt)
  {
    RunsShowReached(env, actions, d.run, ErrorRun(d));
    var s := Reached(env, actions);
    assert RunHandlerShows(s.db, d.run, ErrorRun(d), s.handlers[h]);
  }

  // ----- Whole rows -----

  /** The metadata of a span: sanitised under the reported type if there is one, kept if nothing is left. */
  function SpanOr(env: Env, reported: Option<string>, row: NodeRow, traceMetadata: Json): Json {
    var nodeType := if reported.None? || reported == Some("") then row.nodeType else reported.value;
    var clean := env.sanitizeSpan(nodeType, Stored(traceMetadata));
    if clean in {Null, Bool(false), Num(0), Str(""), Arr([]), NO_FIELDS} then row.traceMetadata else clean
  }

  function FirstReported(a: Option<int>, b: Option<int>): Option<int> { if Reported(a).Some? then a else b }

  lemma SpanIs(env: Env, row: NodeRow, reported: Option<string>, traceMetadata: Json)
    ensures SpanMetadata(env, row, reported, traceMetadata) == SpanOr(env, reported, row, traceMetadata)
  {
    StoredIff(traceMetadata);
  }

  lemma CapturedFinishIs(env: Env, d: NodeFinish)
    ensures var f, c := CapturedFinish(env, d), FinishColumns(env, d);
      && OrEmpty(f.inputs) == c.inputs.value && OrEmpty(f.processData) == c.processData.value
      && NormalizedOutputs(f.outputs) == c.outputs.value
      && f == d.(inputs := f.inputs, processData := f.processData, outputs := f.outputs, payloads := f.payloads)
  {
    StoredIff(d.inputs);
    StoredIff(d.processData);
    StoredIff(EMPTY);
  }

  /** Every column of a row that a finish updates. */
  lemma FinishedNodeIs(env: Env, row: NodeRow, d: NodeFinish)
    ensures var c := FinishColumns(env, d);
      FinishedNode(env, row, CapturedFinish(env, d)) == NodeRow(
        row.run, row.nodeType, NodeSuccess, c.inputs.value, c.processData.value, c.outputs.value, row.errorMessage,
        row.startedAt, Some(d.finishedAt), FirstReported(d.duration, Some(d.finishedAt - row.startedAt)),
        SpanOr(env, d.nodeType, row, d.traceMetadata), row.redactionApplied || d.redaction,
        row.piiDetected || d.pii, FirstReported(row.sequence, d.sequence),
        if d.retryCount == 0 then row.retryCount else d.retryCount)
  {
    CapturedFinishIs(env, d);
    SpanIs(env, row, d.nodeType, d.traceMetadata);
    hide CapturedFinish, FinishColumns, OrEmpty, NormalizedOutputs, SpanOr, SpanMetadata;
  }

  /** Every column of a row that a finish creates; of the message's times the start may be missing. */
  lemma CreatedByFinishIs(env: Env, d: NodeFinish)
    ensures var c := FinishColumns(env, d);
      var nodeType := if d.nodeType.Some? then d.nodeType.value else "unknown";
      var start := if d.startedAt.Some? then d.startedAt.value else d.finishedAt;
      RowFromFinishNode(env, CapturedFinish(env, d)) == NodeRow(
        d.run, nodeType, NodeSuccess, c.inputs.value, c.processData.value, c.outputs.value, None, start,
        Some(d.finishedAt), if d.duration.Some? then d.duration else Some(d.finishedAt - start),
        env.sanitizeSpan(nodeType, Stored(d.traceMetadata)), d.redaction, d.pii, d.sequence, d.retryCount)
  {
    CapturedFinishIs(env, d);
    StoredIff(d.traceMetadata);
    hide CapturedFinish, FinishColumns, OrEmpty, NormalizedOutputs, Stored;
  }

  /** Every column of a row that an error updates: outputs and flags stay, inputs unless captured. */
  lemma FailedNodeIs(env: Env, row: NodeRow, d: NodeError)
    ensures var captured := IsCapturedError(env, d);
      FailedNode(env, row, CapturedError(env, d), ErrorIsMetadataOnly(env, d)) == NodeRow(
        row.run, row.nodeType, NodeFailed, if captured then NO_FIELDS else row.inputs,
        if captured then NO_FIELDS else row.processData, row.outputs, Some(d.error), row.startedAt,
        Some(d.finishedAt), FirstReported(d.duration, Some(d.finishedAt - row.startedAt)),
        SpanOr(env, d.nodeType, row, d.traceMetadata), row.redactionApplied, row.piiDetected,
        FirstReported(row.sequence, d.sequence), if d.retryCount == 0 then row.retryCount else d.retryCount)
  {
    SpanIs(env, row, d.nodeType, d.traceMetadata);
    hide SpanOr, SpanMetadata;
  }

  lemma CreatedByErrorIs(env: Env, d: NodeError)
    ensures var captured := IsCapturedError(env, d);
      var nodeType := if d.nodeType.Some? then d.nodeType.value else "unknown";
      var start := if d.startedAt.Some? then d.startedAt.value else d.finishedAt;
      RowFromErrorNode(env, CapturedError(env, d)) == NodeRow(
        d.run, nodeType, NodeFailed, if captured then NO_FIELDS else Stored(d.inputs),
        if captured then NO_FIELDS else Stored(d.processData), Null, Some(d.error), start, Some(d.finishedAt),
        if d.duration.Some? then d.duration else Some(d.finishedAt - start),
        env.sanitizeSpan(nodeType, Stored(d.traceMetadata)), false, false, d.sequence, d.retryCount)
  {
  }

  /** Every column of a row that a create leaves; a captured one is stored without inputs, process data and payloads. */
  lemma CreatedNodeIs(env: Env, d: NodeCreation)
    ensures var captured := env.deferred(Some(d.nodeType)) || env.metadataOnly(Some(d.nodeType), d.processData, d.traceMetadata);
      && RowFromCreateNode(CapturedCreate(env, d)) == NodeRow(
           d.run, d.nodeType, NodeRunning, if captured then NO_FIELDS else Stored(d.inputs),
           if captured then NO_FIELDS else Stored(d.processData), Null, None, d.startedAt, None, None, Null,
           d.redaction, d.pii, d.sequence, d.retryCount)
      && CapturedCreate(env, d).payloads == if captured then [] else d.payloads
  {
  }

  lemma CreatedRunIs(d: RunCreation)
    ensures RowFromCreateRun(d) == RunRow(RunRunning, Stored(d.inputs), Null, None, d.startedAt, None, None)
  {
  }

  /** The end of a run marks exactly its successful LLM nodes. */
  lemma DownstreamIs(env: Env, db: Db, run: RunId, verdict: string, n: NodeId)
    requires n in db.nodes
    ensures var row := db.nodes[n];
      PatchedMetadata(db.nodes, DownstreamMetadata(env, db, run, verdict))[n] ==
        if row.run == run && row.nodeType == "llmNode" && row.status == NodeSuccess
        then row.(traceMetadata := env.downstream(row.traceMetadata, verdict)) else row
  {
  }

  /**
   * A session writes what it changed: where nothing was changed since the row was loaded, what
   * others wrote meanwhile stays; where everything was, it is overwritten.
   */
  lemma UnchangedColumnsStay(current: NodeRow, loaded: NodeRow, run: RunRow, loadedRun: RunRow)
    ensures PatchedNode(current, loaded, loaded) == current && PatchedRun(run, loadedRun, loadedRun) == run
    ensures PatchedNode(loaded, loaded, current) == current && PatchedRun(loadedRun, loadedRun, run) == run
  {
  }
}
