/**
 * The run and node log tasks as a protocol over one database.
 *
 * Messages are delivered at least once, in any order, to handlers that run at the same
 * time.  A handler reads (Begin), commits (Commit) and, for some messages, afterwards asks
 * for the routing record of the run (Notify).  Between its read and its commit anything
 * else may commit; a commit that breaks a key is rolled back.  A handler whose request fails
 * (FailSend) is delivered again, although it has committed.
 */
module LogProtocol {
  import opened Wrappers

  type RunId = nat
  type NodeId = nat
  type PayloadId = nat
  type HandlerId = nat

  datatype Json = Null | Bool(b: bool) | Num(n: int) | Str(s: string) | Arr(items: seq<Json>) | Obj(fields: map<string, Json>)

  predicate Truthy(v: Json) {
    match v
    case Null => false
    case Bool(b) => b
    case Num(n) => n != 0
    case Str(s) => s != ""
    case Arr(items) => items != []
    case Obj(fields) => fields != map[]
  }

  const EMPTY := Obj(map[])

  /** `value or {}` */
  function OrEmpty(v: Json): Json { if Truthy(v) then v else EMPTY }

  /** `a or b` for an optional number: absent and zero both give way. */
  function OrNumber(a: Option<int>, b: Option<int>): Option<int> {
    if a.Some? && a.value != 0 then a else b
  }

  datatype RunStatus = RunRunning | RunSuccess | RunFailed
  datatype NodeStatus = NodeRunning | NodeSuccess | NodeFailed

  datatype RunRow = RunRow(
    status: RunStatus, inputs: Json, outputs: Json, errorMessage: Option<string>,
    startedAt: int, finishedAt: Option<int>, duration: Option<int>)

  datatype NodeRow = NodeRow(
    run: RunId, nodeType: string, status: NodeStatus, inputs: Json, processData: Json, outputs: Json,
    errorMessage: Option<string>, startedAt: int, finishedAt: Option<int>, duration: Option<int>,
    traceMetadata: Json, redactionApplied: bool, piiDetected: bool, sequence: Option<int>, retryCount: int)

  datatype PayloadRecord = PayloadRecord(id: Option<PayloadId>, nodeId: Option<NodeId>, body: Json)

  datatype Payload = Payload(run: RunId, nodeId: Option<NodeId>, body: Json)

  datatype Db = Db(runs: map<RunId, RunRow>, nodes: map<NodeId, NodeRow>, payloads: map<PayloadId, Payload>)

  datatype RunCreation = RunCreation(run: RunId, inputs: Json, startedAt: int, payloads: seq<PayloadRecord>)

  datatype RunFinish = RunFinish(run: RunId, outputs: Json, finishedAt: int, payloads: seq<PayloadRecord>)

  datatype RunError = RunError(run: RunId, error: string, finishedAt: int)

  datatype NodeCreation = NodeCreation(
    node: NodeId, run: RunId, nodeType: string, inputs: Json, processData: Json, traceMetadata: Json,
    startedAt: int, redaction: bool, pii: bool, sequence: Option<int>, retryCount: int,
    payloads: seq<PayloadRecord>)

  datatype NodeFinish = NodeFinish(
    node: NodeId, run: RunId, nodeType: Option<string>, inputs: Json, processData: Json, outputs: Json,
    traceMetadata: Json, startedAt: Option<int>, finishedAt: int, duration: Option<int>, redaction: bool,
    pii: bool, sequence: Option<int>, retryCount: int, payloads: seq<PayloadRecord>)

  datatype NodeError = NodeError(
    node: NodeId, run: RunId, nodeType: Option<string>, inputs: Json, processData: Json, error: string,
    traceMetadata: Json, startedAt: Option<int>, finishedAt: int, duration: Option<int>,
    sequence: Option<int>, retryCount: int)

  datatype Message =
    | CreateRun(runCreation: RunCreation)
    | FinishRun(runFinish: RunFinish)
    | ErrorRun(runError: RunError)
    | CreateNode(creation: NodeCreation)
    | FinishNode(finish: NodeFinish)
    | ErrorNode(error: NodeError)

  /** The run that a message is about. */
  function RunOf(m: Message): RunId {
    match m
    case CreateRun(d) => d.run
    case FinishRun(d) => d.run
    case ErrorRun(d) => d.run
    case CreateNode(d) => d.run
    case FinishNode(d) => d.run
    case ErrorNode(d) => d.run
  }

  /** The node that a message is about, if any. */
  function NodeOf(m: Message): Option<NodeId> {
    match m
    case CreateNode(d) => Some(d.node)
    case FinishNode(d) => Some(d.node)
    case ErrorNode(d) => Some(d.node)
    case _ => None
  }

  /** Code of other modules that the handlers call; any functions will do. */
  datatype Env = Env(
    deferred: Option<string> -> bool,
    metadataOnly: (Option<string>, Json, Json) -> bool,
    providerSummary: (Option<string>, Json, Json) -> Option<Json>,
    providerRecords: (seq<PayloadRecord>, Option<string>, Json, Json) -> seq<PayloadRecord>,
    sanitizeSpan: (string, Json) -> Json,
    downstream: (Json, string) -> Json)

  // ----- What a handler intends to write -----

  datatype Metadata = Metadata(loaded: Json, desired: Json)

  datatype Plan =
    | InsertRun(run: RunId, runRow: RunRow, added: seq<(PayloadId, Payload)>)
    | UpdateRun(run: RunId, runLoaded: RunRow, runDesired: RunRow, metadata: map<NodeId, Metadata>,
                added: seq<(PayloadId, Payload)>)
    | InsertNode(node: NodeId, row: NodeRow, purged: set<PayloadId>, added: seq<(PayloadId, Payload)>)
    | UpdateNode(node: NodeId, loaded: NodeRow, desired: NodeRow, purged: set<PayloadId>,
                 added: seq<(PayloadId, Payload)>)
    | KeepPayloads(added: seq<(PayloadId, Payload)>)

  /** The records that carry an id which is not stored yet, in order. */
  function NewPayloads(stored: set<PayloadId>, run: RunId, records: seq<PayloadRecord>): seq<(PayloadId, Payload)> {
    if records == [] then []
    else
      var last := records[|records| - 1];
      NewPayloads(stored, run, records[..|records| - 1])
      + if last.id.Some? && last.id.value !in stored then [(last.id.value, Payload(run, last.nodeId, last.body))] else []
  }

  function NodeTypeOr(nodeType: Option<string>, fallback: string): string {
    if nodeType.Some? then nodeType.value else fallback
  }

  function RowFromCreateRun(m: RunCreation): RunRow {
    RunRow(RunRunning, OrEmpty(m.inputs), Null, None, m.startedAt, None, None)
  }

  function FinishedRun(row: RunRow, m: RunFinish): RunRow {
    row.(status := RunSuccess, outputs := m.outputs, errorMessage := None, finishedAt := Some(m.finishedAt),
         duration := Some(m.finishedAt - row.startedAt))
  }

  function FailedRun(row: RunRow, m: RunError): RunRow {
    row.(status := RunFailed, errorMessage := Some(m.error), finishedAt := Some(m.finishedAt),
         duration := Some(m.finishedAt - row.startedAt))
  }

  /** Provider nodes give up their inputs and payloads before anything is stored. */
  function CapturedCreate(env: Env, m: NodeCreation): NodeCreation {
    if env.deferred(Some(m.nodeType)) || env.metadataOnly(Some(m.nodeType), m.processData, m.traceMetadata)
    then m.(inputs := EMPTY, processData := EMPTY, payloads := []) else m
  }

  function RowFromCreateNode(m: NodeCreation): NodeRow {
    NodeRow(m.run, m.nodeType, NodeRunning, OrEmpty(m.inputs), OrEmpty(m.processData), Null, None, m.startedAt, None, None,
            Null, m.redaction, m.pii, m.sequence, m.retryCount)
  }

  /** Outputs that are no object are wrapped as one. */
  function NormalizedOutputs(outputs: Json): Json {
    if outputs.Obj? then outputs else Obj(map["result" := outputs])
  }

  function FinishSummary(env: Env, m: NodeFinish): Option<Json> {
    env.providerSummary(m.nodeType, m.processData, m.traceMetadata)
  }

  function CapturedFinish(env: Env, m: NodeFinish): NodeFinish {
    var summary := FinishSummary(env, m);
    if summary.None? then m
    else m.(inputs := EMPTY, processData := EMPTY, outputs := summary.value,
            payloads := env.providerRecords(m.payloads, m.nodeType, m.processData, m.traceMetadata))
  }

  function StartOr(startedAt: Option<int>, finishedAt: int): int {
    if startedAt.Some? then startedAt.value else finishedAt
  }

  /** The row stored when a finish message finds none; `m` is the captured message. */
  function RowFromFinishNode(env: Env, m: NodeFinish): NodeRow {
    NodeRow(m.run, NodeTypeOr(m.nodeType, "unknown"), NodeSuccess, OrEmpty(m.inputs), OrEmpty(m.processData),
            NormalizedOutputs(m.outputs), None, StartOr(m.startedAt, m.finishedAt), Some(m.finishedAt),
            if m.duration.Some? then m.duration else Some(m.finishedAt - StartOr(m.startedAt, m.finishedAt)),
            env.sanitizeSpan(NodeTypeOr(m.nodeType, "unknown"), OrEmpty(m.traceMetadata)),
            m.redaction, m.pii, m.sequence, m.retryCount)
  }

  function SpanMetadata(env: Env, row: NodeRow, nodeType: Option<string>, traceMetadata: Json): Json {
    var named := if nodeType.Some? && nodeType.value != "" then nodeType.value else row.nodeType;
    var clean := env.sanitizeSpan(named, OrEmpty(traceMetadata));
    if Truthy(clean) then clean else row.traceMetadata
  }

  /** The loaded row after the assignments of the finish handler; `m` is the captured message. */
  function FinishedNode(env: Env, row: NodeRow, m: NodeFinish): NodeRow {
    row.(status := NodeSuccess, outputs := NormalizedOutputs(m.outputs), inputs := OrEmpty(m.inputs),
         processData := OrEmpty(m.processData), finishedAt := Some(m.finishedAt),
         duration := OrNumber(m.duration, Some(m.finishedAt - row.startedAt)),
         traceMetadata := SpanMetadata(env, row, m.nodeType, m.traceMetadata),
         redactionApplied := row.redactionApplied || m.redaction, piiDetected := row.piiDetected || m.pii,
         sequence := OrNumber(row.sequence, m.sequence),
         retryCount := if m.retryCount != 0 then m.retryCount else row.retryCount)
  }

  predicate ErrorIsMetadataOnly(env: Env, m: NodeError) {
    env.deferred(m.nodeType) || env.metadataOnly(m.nodeType, m.processData, m.traceMetadata)
  }

  function CapturedError(env: Env, m: NodeError): NodeError {
    if ErrorIsMetadataOnly(env, m) then m.(inputs := EMPTY, processData := EMPTY) else m
  }

  function RowFromErrorNode(env: Env, m: NodeError): NodeRow {
    NodeRow(m.run, NodeTypeOr(m.nodeType, "unknown"), NodeFailed, OrEmpty(m.inputs), OrEmpty(m.processData), Null,
            Some(m.error), StartOr(m.startedAt, m.finishedAt), Some(m.finishedAt),
            if m.duration.Some? then m.duration else Some(m.finishedAt - StartOr(m.startedAt, m.finishedAt)),
            env.sanitizeSpan(NodeTypeOr(m.nodeType, "unknown"), OrEmpty(m.traceMetadata)),
            false, false, m.sequence, m.retryCount)
  }

  function FailedNode(env: Env, row: NodeRow, m: NodeError, metadataOnly: bool): NodeRow {
    var cleared := if metadataOnly then row.(inputs := EMPTY, processData := EMPTY) else row;
    cleared.(status := NodeFailed, errorMessage := Some(m.error), finishedAt := Some(m.finishedAt),
             duration := OrNumber(m.duration, Some(m.finishedAt - row.startedAt)),
             traceMetadata := SpanMetadata(env, row, m.nodeType, m.traceMetadata),
             sequence := OrNumber(row.sequence, m.sequence),
             retryCount := if m.retryCount != 0 then m.retryCount else row.retryCount)
  }

  function PayloadsOfNode(db: Db, node: NodeId): set<PayloadId> {
    set p | p in db.payloads && db.payloads[p].nodeId == Some(node)
  }

  /** The downstream verdict that a terminal run puts on its successful LLM nodes. */
  function DownstreamMetadata(env: Env, db: Db, run: RunId, verdict: string): map<NodeId, Metadata> {
    map n | n in db.nodes && db.nodes[n].run == run && db.nodes[n].nodeType == "llmNode"
            && db.nodes[n].status == NodeSuccess
      :: Metadata(db.nodes[n].traceMetadata, env.downstream(db.nodes[n].traceMetadata, verdict))
  }

  /** The read half of a handler: what it will try to commit, or nothing when it must wait for the run. */
  function ReadPlan(env: Env, db: Db, m: Message): Option<Plan> {
    match m
    case CreateRun(d) => Some(InsertRun(d.run, RowFromCreateRun(d), NewPayloads(db.payloads.Keys, d.run, d.payloads)))
    case FinishRun(d) =>
      if d.run !in db.runs then None
      else Some(UpdateRun(d.run, db.runs[d.run], FinishedRun(db.runs[d.run], d),
                          DownstreamMetadata(env, db, d.run, "passed"),
                          NewPayloads(db.payloads.Keys, d.run, d.payloads)))
    case ErrorRun(d) =>
      if d.run !in db.runs then None
      else Some(UpdateRun(d.run, db.runs[d.run], FailedRun(db.runs[d.run], d),
                          DownstreamMetadata(env, db, d.run, "failed"), []))
    case CreateNode(d) =>
      if d.run !in db.runs then None
      else
        var c := CapturedCreate(env, d);
        Some(InsertNode(d.node, RowFromCreateNode(c), {}, NewPayloads(db.payloads.Keys, d.run, c.payloads)))
    case FinishNode(d) => ReadFinish(env, db, d)
    case ErrorNode(d) => ReadError(env, db, d)
  }

  function ReadFinish(env: Env, db: Db, d: NodeFinish): Option<Plan> {
    var f := CapturedFinish(env, d);
    var purged := if FinishSummary(env, d).Some? then PayloadsOfNode(db, d.node) else {};
    var added := NewPayloads(db.payloads.Keys - purged, d.run, f.payloads);
    if d.node in db.nodes then
      Some(UpdateNode(d.node, db.nodes[d.node], FinishedNode(env, db.nodes[d.node], f), purged, added))
    else if d.run !in db.runs then None
    else Some(InsertNode(d.node, RowFromFinishNode(env, f), purged, added))
  }

  function ReadError(env: Env, db: Db, d: NodeError): Option<Plan> {
    var e := CapturedError(env, d);
    var purged := if ErrorIsMetadataOnly(env, d) then PayloadsOfNode(db, d.node) else {};
    if d.node in db.nodes then
      Some(UpdateNode(d.node, db.nodes[d.node], FailedNode(env, db.nodes[d.node], e, ErrorIsMetadataOnly(env, d)),
                      purged, []))
    else if d.run !in db.runs then None
    else Some(InsertNode(d.node, RowFromErrorNode(env, e), purged, []))
  }

  // ----- Committing a plan -----

  /** A session writes a column only when its value differs from the one that was loaded. */
  function Column<T(==)>(current: T, loaded: T, desired: T): T {
    if desired == loaded then current else desired
  }

  function PatchedRun(current: RunRow, loaded: RunRow, desired: RunRow): RunRow {
    RunRow(Column(current.status, loaded.status, desired.status),
           Column(current.inputs, loaded.inputs, desired.inputs),
           Column(current.outputs, loaded.outputs, desired.outputs),
           Column(current.errorMessage, loaded.errorMessage, desired.errorMessage),
           Column(current.startedAt, loaded.startedAt, desired.startedAt),
           Column(current.finishedAt, loaded.finishedAt, desired.finishedAt),
           Column(current.duration, loaded.duration, desired.duration))
  }

  function PatchedNode(current: NodeRow, loaded: NodeRow, desired: NodeRow): NodeRow {
    NodeRow(Column(current.run, loaded.run, desired.run),
            Column(current.nodeType, loaded.nodeType, desired.nodeType),
            Column(current.status, loaded.status, desired.status),
            Column(current.inputs, loaded.inputs, desired.inputs),
            Column(current.processData, loaded.processData, desired.processData),
            Column(current.outputs, loaded.outputs, desired.outputs),
            Column(current.errorMessage, loaded.errorMessage, desired.errorMessage),
            Column(current.startedAt, loaded.startedAt, desired.startedAt),
            Column(current.finishedAt, loaded.finishedAt, desired.finishedAt),
            Column(current.duration, loaded.duration, desired.duration),
            Column(current.traceMetadata, loaded.traceMetadata, desired.traceMetadata),
            Column(current.redactionApplied, loaded.redactionApplied, desired.redactionApplied),
            Column(current.piiDetected, loaded.piiDetected, desired.piiDetected),
            Column(current.sequence, loaded.sequence, desired.sequence),
            Column(current.retryCount, loaded.retryCount, desired.retryCount))
  }

  function PatchedMetadata(nodes: map<NodeId, NodeRow>, metadata: map<NodeId, Metadata>): map<NodeId, NodeRow> {
    map n | n in nodes ::
      if n in metadata
      then nodes[n].(traceMetadata := Column(nodes[n].traceMetadata, metadata[n].loaded, metadata[n].desired))
      else nodes[n]
  }

  function WithPayloads(payloads: map<PayloadId, Payload>, added: seq<(PayloadId, Payload)>): map<PayloadId, Payload> {
    if added == [] then payloads
    else WithPayloads(payloads, added[..|added| - 1])[added[|added| - 1].0 := added[|added| - 1].1]
  }

  /** The rows of a plan, before its payloads. */
  function RowsAfter(db: Db, plan: Plan): Db {
    match plan
    case InsertRun(run, row, _) => db.(runs := db.runs[run := row])
    case UpdateRun(run, loaded, desired, metadata, _) =>
      if run !in db.runs then db
      else db.(runs := db.runs[run := PatchedRun(db.runs[run], loaded, desired)],
               nodes := PatchedMetadata(db.nodes, metadata))
    case InsertNode(node, row, purged, _) => db.(nodes := db.nodes[node := row], payloads := db.payloads - purged)
    case UpdateNode(node, loaded, desired, purged, _) =>
      if node !in db.nodes then db
      else db.(nodes := db.nodes[node := PatchedNode(db.nodes[node], loaded, desired)],
               payloads := db.payloads - purged)
    case KeepPayloads(_) => db
  }

  predicate DistinctIds(added: seq<(PayloadId, Payload)>) {
    forall i, j :: 0 <= i < j < |added| ==> added[i].0 != added[j].0
  }

  /** Primary and foreign keys of the payload table. */
  predicate PayloadsFit(db: Db, added: seq<(PayloadId, Payload)>) {
    && DistinctIds(added)
    && forall i :: 0 <= i < |added| ==>
      && added[i].0 !in db.payloads && added[i].1.run in db.runs
      && (added[i].1.nodeId.Some? ==> added[i].1.nodeId.value in db.nodes)
  }

  /** The commit would break a primary or foreign key. */
  predicate Conflict(db: Db, plan: Plan) {
    || (plan.InsertRun? && plan.run in db.runs)
    || (plan.InsertNode? && (plan.node in db.nodes || plan.row.run !in db.runs))
    || !PayloadsFit(RowsAfter(db, plan), plan.added)
  }

  function Committed(db: Db, plan: Plan): Db {
    var rows := RowsAfter(db, plan);
    rows.(payloads := WithPayloads(rows.payloads, plan.added))
  }

  // ----- Handlers -----

  datatype Phase = Ready | Planned(plan: Plan) | Recovering | Notifying(run: RunId) | Acked

  datatype Handler = Handler(message: Message, phase: Phase)

  datatype Event = WriteCommitted(handler: HandlerId) | RecordRunSent(run: RunId) | SendFailed(handler: HandlerId)

  datatype State = State(db: Db, handlers: map<HandlerId, Handler>, log: seq<Event>)

  datatype Action =
    | Deliver(h: HandlerId, message: Message)
    | Begin(h: HandlerId)
    | Commit(h: HandlerId)
    | Notify(h: HandlerId)
    | FailSend(h: HandlerId)
    | Abort(h: HandlerId)

  function Start(): State { State(Db(map[], map[], map[]), map[], []) }

  /** Which commits are followed by a request for the run's routing record. */
  function AfterCommit(m: Message, plan: Plan): Phase {
    if plan.UpdateRun? then Notifying(RunOf(m))
    else if plan.InsertNode? && !m.FinishNode? && plan.row.nodeType == "llmNode" then Notifying(RunOf(m))
    else if plan.UpdateNode? && !m.FinishNode? && plan.loaded.nodeType == "llmNode" then Notifying(RunOf(m))
    else Acked
  }

  function AfterConflict(m: Message, plan: Plan): Phase {
    if plan.InsertRun? || (plan.InsertNode? && m.CreateNode?) then Recovering else Ready
  }

  /** A create whose insert lost: an existing row makes it a duplicate that only keeps its payloads. */
  function Recovered(env: Env, db: Db, m: Message): Phase {
    match m
    case CreateRun(d) => if d.run in db.runs then Acked else Ready
    case CreateNode(d) =>
      if d.node !in db.nodes then Ready
      else
        var row := db.nodes[d.node];
        if env.metadataOnly(Some(row.nodeType), row.processData, row.traceMetadata) then Acked
        else Planned(KeepPayloads(NewPayloads(db.payloads.Keys, d.run, CapturedCreate(env, d).payloads)))
    case _ => Ready
  }

  predicate RunTerminal(db: Db, run: RunId) {
    run in db.runs && db.runs[run].status != RunRunning
  }

  predicate Enabled(s: State, a: Action) {
    match a
    case Deliver(h, _) => h !in s.handlers
    case Begin(h) => h in s.handlers && (s.handlers[h].phase.Ready? || s.handlers[h].phase.Recovering?)
    case Commit(h) => h in s.handlers && s.handlers[h].phase.Planned?
    case Notify(h) => h in s.handlers && s.handlers[h].phase.Notifying?
    case FailSend(h) => h in s.handlers && s.handlers[h].phase.Notifying?
    case Abort(h) => h in s.handlers && (s.handlers[h].phase.Planned? || s.handlers[h].phase.Recovering?)
  }

  function WithPhase(s: State, h: HandlerId, phase: Phase): State
    requires h in s.handlers
  {
    s.(handlers := s.handlers[h := s.handlers[h].(phase := phase)])
  }

  function Step(env: Env, s: State, a: Action): State
    requires Enabled(s, a)
  {
    match a
    case Deliver(h, m) => s.(handlers := s.handlers[h := Handler(m, Ready)])
    case Begin(h) =>
      var m := s.handlers[h].message;
      if s.handlers[h].phase.Recovering? then WithPhase(s, h, Recovered(env, s.db, m))
      else
        var plan := ReadPlan(env, s.db, m);
        if plan.None? then s else WithPhase(s, h, Planned(plan.value))
    case Commit(h) =>
      var m, plan := s.handlers[h].message, s.handlers[h].phase.plan;
      if Conflict(s.db, plan) then WithPhase(s, h, AfterConflict(m, plan))
      else
        var moved := WithPhase(s, h, AfterCommit(m, plan));
        moved.(db := Committed(s.db, plan), log := if plan.KeepPayloads? then s.log else s.log + [WriteCommitted(h)])
    case Notify(h) =>
      var run := s.handlers[h].phase.run;
      var moved := WithPhase(s, h, Acked);
      if RunTerminal(s.db, run) then moved.(log := s.log + [RecordRunSent(run)]) else moved
    case FailSend(h) => WithPhase(s, h, Ready).(log := s.log + [SendFailed(h)])
    case Abort(h) => WithPhase(s, h, Ready)
  }

  /** The state after a list of actions; actions that are not enabled do nothing. */
  function Exec(env: Env, s: State, actions: seq<Action>): State {
    if actions == [] then s
    else
      var before := Exec(env, s, actions[..|actions| - 1]);
      var a := actions[|actions| - 1];
      if Enabled(before, a) then Step(env, before, a) else before
  }

  function Reached(env: Env, actions: seq<Action>): State { Exec(env, Start(), actions) }
}
